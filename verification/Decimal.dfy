/**
 Decimal text: rendering and reading of identifiers, event identities, thread contexts
 and account numbers, on both sides of the process boundary.
 */
module Decimal {
  import opened Wrappers

  const MAX_INT64: nat := 0x7FFF_FFFF_FFFF_FFFF
  /** The literal the Python side compares against. */
  const MAX_ACCOUNT: string := "9223372036854775807"

  predicate IsDigit(c: char) { '0' <= c <= '9' }

  predicate AllDigits(s: string) {
    forall i :: 0 <= i < |s| ==> IsDigit(s[i])
  }

  /** The language of the regular expression `[1-9][0-9]*`. */
  predicate CanonicalPositive(s: string) {
    |s| > 0 && '1' <= s[0] <= '9' && AllDigits(s)
  }

  function DigitValue(c: char): (d: nat)
    requires IsDigit(c)
    ensures d < 10
  {
    c as int - '0' as int
  }

  function DigitChar(d: nat): (c: char)
    requires d < 10
    ensures IsDigit(c) && DigitValue(c) == d
  {
    (d + '0' as int) as char
  }

  /** The number a digit string denotes: Python's `int(...)` on such a string. */
  function Value(s: string): nat
    requires AllDigits(s)
  {
    if s == [] then 0 else 10 * Value(s[..|s| - 1]) + DigitValue(s[|s| - 1])
  }

  /** The decimal rendering Go's `%d` and Python's f-strings give a non-negative number. */
  function Render(n: nat): (s: string)
    ensures |s| > 0 && AllDigits(s)
    ensures n > 0 ==> CanonicalPositive(s)
  {
    if n < 10 then [DigitChar(n)] else Render(n / 10) + [DigitChar(n % 10)]
  }

  lemma {:induction false} ValueOfRender(n: nat)
    ensures Value(Render(n)) == n
  {
    var s := Render(n);
    if n < 10 {
      assert s[..0] == [];
    } else {
      ValueOfRender(n / 10);
      assert s[..|s| - 1] == Render(n / 10);
    }
  }

  lemma {:induction false} CanonicalValuePositive(s: string)
    requires CanonicalPositive(s)
    ensures Value(s) > 0
  {
    var init := s[..|s| - 1];
    if init == [] {
      assert s[0] == s[|s| - 1] && Value(init) == 0;
    } else {
      CanonicalValuePositive(init);
    }
  }

  lemma {:induction false} RenderOfValue(s: string)
    requires CanonicalPositive(s)
    ensures Render(Value(s)) == s
  {
    var init, last := s[..|s| - 1], s[|s| - 1];
    if init == [] {
      assert Value(init) == 0;
      assert s == [last];
    } else {
      CanonicalValuePositive(init);
      RenderOfValue(init);
      var v := Value(init);
      assert Value(s) == 10 * v + DigitValue(last);
      assert Value(s) / 10 == v && Value(s) % 10 == DigitValue(last);
      assert s == init + [last];
    }
  }

  // ---------------------------------------------------------------- string order

  /** Strict code-point order on strings, as `<` in Go and Python. */
  predicate LexLess(a: string, b: string) {
    b != [] && (a == [] || a[0] < b[0] || (a[0] == b[0] && LexLess(a[1..], b[1..])))
  }

  lemma {:induction false} LexTotal(a: string, b: string)
    ensures (if LexLess(a, b) then 1 else 0) + (if LexLess(b, a) then 1 else 0) + (if a == b then 1 else 0) == 1
  {
    if a != [] && b != [] && a[0] == b[0] {
      LexTotal(a[1..], b[1..]);
      assert a == b <==> a[1..] == b[1..] by {
        assert a == [a[0]] + a[1..] && b == [b[0]] + b[1..];
      }
    }
  }

  lemma {:induction false} LexTransitive(a: string, b: string, c: string)
    requires LexLess(a, b) && LexLess(b, c)
    ensures LexLess(a, c)
  {
    if a != [] && a[0] == b[0] && b[0] == c[0] {
      LexTransitive(a[1..], b[1..], c[1..]);
    }
  }

  function Pow10(n: nat): nat {
    if n == 0 then 1 else 10 * Pow10(n - 1)
  }

  /** A leading digit weighs a power of ten. */
  lemma {:induction false} ValueFromFront(s: string)
    requires s != [] && AllDigits(s)
    ensures Value(s) == DigitValue(s[0]) * Pow10(|s| - 1) + Value(s[1..])
  {
    if |s| == 1 {
      assert s[..0] == [] && s[1..] == [];
    } else {
      var init, rest, n := s[..|s| - 1], s[1..], |s| - 1;
      ValueFromFront(init);
      assert rest[..n - 1] == init[1..] && rest[n - 1] == s[n];
      TenTimes(DigitValue(s[0]), Pow10(n - 1), Value(init[1..]));
    }
  }

  lemma TenTimes(d: nat, p: nat, v: nat)
    ensures 10 * (d * p + v) == d * (10 * p) + 10 * v
  {
  }

  lemma {:induction false} ValueBelow(s: string)
    requires AllDigits(s)
    ensures Value(s) < Pow10(|s|)
  {
    if s != [] {
      ValueBelow(s[..|s| - 1]);
    }
  }

  /** On digit strings of one length, string order is numeric order. */
  lemma {:induction false} LexIsNumeric(a: string, b: string)
    requires AllDigits(a) && AllDigits(b) && |a| == |b|
    ensures LexLess(a, b) <==> Value(a) < Value(b)
  {
    if a != [] {
      ValueFromFront(a);
      ValueFromFront(b);
      ValueBelow(a[1..]);
      ValueBelow(b[1..]);
      LexIsNumeric(a[1..], b[1..]);
      LeadDecides(DigitValue(a[0]), Value(a[1..]), DigitValue(b[0]), Value(b[1..]), Pow10(|a| - 1));
    }
  }

  lemma LeadDecides(x: nat, u: nat, y: nat, v: nat, p: nat)
    requires u < p && v < p
    ensures x * p + u < y * p + v <==> x < y || (x == y && u < v)
  {
    if x < y {
      ScaleGap(x, y, p);
    } else if y < x {
      ScaleGap(y, x, p);
    }
  }

  lemma {:induction false} ScaleGap(x: nat, y: nat, p: nat)
    requires x < y
    ensures x * p + p <= y * p
  {
    if x + 1 < y {
      ScaleGap(x, y - 1, p);
    }
  }

  lemma {:induction false} LongerIsLarger(a: string, b: string)
    requires CanonicalPositive(a) && CanonicalPositive(b) && |a| < |b|
    ensures Value(a) < Value(b)
  {
    ValueBelow(a);
    ValueFromFront(b);
    PowMonotone(|a|, |b| - 1);
    ScaleGap(0, DigitValue(b[0]), Pow10(|b| - 1));
  }

  lemma {:induction false} PowMonotone(m: nat, n: nat)
    requires m <= n
    ensures Pow10(m) <= Pow10(n)
  {
    if m < n {
      PowMonotone(m, n - 1);
    }
  }

  // ---------------------------------------------------------------- accounts

  /** `canonical_account`: pattern, length, then string comparison. */
  function CanonicalAccount(s: string): Option<string> {
    if !CanonicalPositive(s) || |s| > |MAX_ACCOUNT| || (|s| == |MAX_ACCOUNT| && LexLess(MAX_ACCOUNT, s))
    then None
    else Some(s)
  }

  /** `strconv.ParseInt(value, 10, 64)` on a digit string: its value, unless out of range. */
  function ParseInt64(s: string): Option<int>
    requires AllDigits(s)
  {
    if s == [] || Value(s) > MAX_INT64 then None else Some(Value(s))
  }

  /** `parseCanonicalAccount`: a scan of the digits, then the bounded parse. */
  method ParseCanonicalAccount(value: string) returns (r: Option<int>)
    ensures r.Some? <==> exists n :: 1 <= n <= MAX_INT64 && value == Render(n)
    ensures r.Some? ==> 1 <= r.value <= MAX_INT64 && value == Render(r.value)
  {
    if |value| == 0 || value[0] < '1' || value[0] > '9' {
      return None;
    }
    var i := 1;
    while i < |value|
      invariant 1 <= i <= |value|
      invariant forall j :: 0 <= j < i ==> IsDigit(value[j])
    {
      if value[i] < '0' || value[i] > '9' {
        return None;
      }
      i := i + 1;
    }
    r := ParseInt64(value);
    RenderOfValue(value);
    CanonicalValuePositive(value);
    forall n: nat | value == Render(n) ensures n == Value(value) {
      ValueOfRender(n);
    }
  }

  lemma PrefixValue(s: string, k: nat)
    requires AllDigits(s) && k < |s|
    ensures Value(s[..k + 1]) == 10 * Value(s[..k]) + DigitValue(s[k])
  {
    assert s[..k + 1][..k] == s[..k];
  }

  lemma MaxAccountHead(m: string)
    requires |m| == 19 && AllDigits(m)
    requires m[0] == '9' && m[1] == '2' && m[2] == '2' && m[3] == '3' && m[4] == '3' && m[5] == '7' && m[6] == '2'
    requires m[7] == '0' && m[8] == '3'
    ensures Value(m[..9]) == 922337203
  {
    assert m[..0] == [];
    PrefixValue(m, 0);
    PrefixValue(m, 1);
    PrefixValue(m, 2);
    PrefixValue(m, 3);
    PrefixValue(m, 4);
    PrefixValue(m, 5);
    PrefixValue(m, 6);
    PrefixValue(m, 7);
    PrefixValue(m, 8);
  }

  lemma MaxAccountMiddle(m: string)
    requires |m| == 19 && AllDigits(m) && Value(m[..9]) == 922337203
    requires m[9] == '6' && m[10] == '8' && m[11] == '5' && m[12] == '4' && m[13] == '7'
    ensures Value(m[..14]) == 92233720368547
  {
    PrefixValue(m, 9);
    PrefixValue(m, 10);
    PrefixValue(m, 11);
    PrefixValue(m, 12);
    PrefixValue(m, 13);
  }

  lemma MaxAccountTail(m: string)
    requires |m| == 19 && AllDigits(m) && Value(m[..9]) == 922337203
    requires m[9] == '6' && m[10] == '8' && m[11] == '5' && m[12] == '4' && m[13] == '7' && m[14] == '7'
    requires m[15] == '5' && m[16] == '8' && m[17] == '0' && m[18] == '7'
    ensures Value(m) == MAX_INT64
  {
    MaxAccountMiddle(m);
    PrefixValue(m, 14);
    PrefixValue(m, 15);
    PrefixValue(m, 16);
    PrefixValue(m, 17);
    PrefixValue(m, 18);
    assert m[..19] == m;
  }

  lemma MaxAccountValue()
    ensures CanonicalPositive(MAX_ACCOUNT) && Value(MAX_ACCOUNT) == MAX_INT64
  {
    MaxAccountHead(MAX_ACCOUNT);
    MaxAccountTail(MAX_ACCOUNT);
  }

  /** The Python test accepts exactly the renderings of 1..2^63-1: the set the Go parser accepts. */
  lemma {:induction false} AccountsAgree(s: string)
    ensures CanonicalAccount(s).Some? <==> exists n :: 1 <= n <= MAX_INT64 && s == Render(n)
    ensures CanonicalAccount(s).Some? ==> 1 <= Value(s) <= MAX_INT64 && s == Render(Value(s))
  {
    MaxAccountValue();
    if CanonicalPositive(s) {
      CanonicalValuePositive(s);
      RenderOfValue(s);
      if |s| < |MAX_ACCOUNT| {
        LongerIsLarger(s, MAX_ACCOUNT);
      } else if |s| > |MAX_ACCOUNT| {
        LongerIsLarger(MAX_ACCOUNT, s);
      } else {
        LexIsNumeric(MAX_ACCOUNT, s);
      }
    }
    forall n: nat | s == Render(n) && n > 0 ensures CanonicalPositive(s) && n == Value(s) {
      ValueOfRender(n);
    }
  }

  // ---------------------------------------------------------------- identities

  /** `thread:<t>`: the conversation context of a thread. */
  function ContextId(t: nat): string {
    "thread:" + Render(t)
  }

  /** `thread:<t>:entry:<e>`: the identity of an event. */
  function EventId(t: nat, e: nat): string {
    ContextId(t) + ":entry:" + Render(e)
  }

  /** The language of `thread:[1-9][0-9]*:entry:[1-9][0-9]*`, shared by the queue file and the ack channel. */
  ghost predicate MatchesIdentity(s: string) {
    exists a, b :: CanonicalPositive(a) && CanonicalPositive(b) && s == "thread:" + a + ":entry:" + b
  }

  /** The length of the leading run of digits. */
  function DigitRun(s: string): (n: nat)
    ensures n <= |s| && AllDigits(s[..n]) && (n < |s| ==> !IsDigit(s[n]))
  {
    if s == [] || !IsDigit(s[0]) then 0 else 1 + DigitRun(s[1..])
  }

  /** A left-to-right matcher for the identity pattern. */
  predicate IsIdentity(s: string) {
    |s| >= 7 && s[..7] == "thread:" &&
    var rest := s[7..];
    var n := DigitRun(rest);
    && CanonicalPositive(rest[..n])
    && |rest| >= n + 7 && rest[n..n + 7] == ":entry:"
    && CanonicalPositive(rest[n + 7..])
  }

  /** `parse_context_id`. */
  function ParseContextId(s: string): Option<nat> {
    if |s| >= 7 && s[..7] == "thread:" && CanonicalPositive(s[7..]) then Some(Value(s[7..])) else None
  }

  lemma RenderInjective(m: nat, n: nat)
    requires Render(m) == Render(n)
    ensures m == n
  {
    ValueOfRender(m);
    ValueOfRender(n);
  }

  /** A digit run is delimited by the first character that is not a digit. */
  lemma DigitRunShorter(a: string, x: string, b: string, y: string)
    requires AllDigits(a) && AllDigits(b) && x != [] && !IsDigit(x[0])
    requires a + x == b + y
    ensures |a| >= |b|
  {
    var whole := b + y;
    assert whole[|a|] == x[0];
    assert forall k :: 0 <= k < |b| ==> IsDigit(whole[k]);
  }

  lemma DigitRunUnique(a: string, x: string, b: string, y: string)
    requires AllDigits(a) && AllDigits(b) && x != [] && y != [] && !IsDigit(x[0]) && !IsDigit(y[0])
    requires a + x == b + y
    ensures a == b && x == y
  {
    DigitRunShorter(a, x, b, y);
    DigitRunShorter(b, y, a, x);
    SamePrefix(a, x, b, y);
  }

  lemma SamePrefix(a: string, x: string, b: string, y: string)
    requires |a| == |b| && a + x == b + y
    ensures a == b && x == y
  {
    assert a == (a + x)[..|a|] && b == (b + y)[..|b|];
    assert x == (a + x)[|a|..] && y == (b + y)[|b|..];
  }

  /** One identity, one (thread, entry): deduplicating by text is deduplicating by numbers. */
  lemma EventIdInjective(t1: nat, e1: nat, t2: nat, e2: nat)
    requires EventId(t1, e1) == EventId(t2, e2)
    ensures t1 == t2 && e1 == e2
  {
    var r1, x, r2, y := Render(t1), ":entry:" + Render(e1), Render(t2), ":entry:" + Render(e2);
    assert EventId(t1, e1) == "thread:" + (r1 + x);
    assert EventId(t2, e2) == "thread:" + (r2 + y);
    SamePrefix("thread:", r1 + x, "thread:", r2 + y);
    DigitRunUnique(r1, x, r2, y);
    SamePrefix(":entry:", Render(e1), ":entry:", Render(e2));
    RenderInjective(t1, t2);
    RenderInjective(e1, e2);
  }

  /** The pattern accepts exactly the identities of positive numbers. */
  lemma MatchesIdentityImage(s: string)
    ensures MatchesIdentity(s) <==> exists t: nat, e: nat :: t > 0 && e > 0 && s == EventId(t, e)
  {
    if MatchesIdentity(s) {
      var a, b :| CanonicalPositive(a) && CanonicalPositive(b) && s == "thread:" + a + ":entry:" + b;
      CanonicalValuePositive(a);
      CanonicalValuePositive(b);
      RenderOfValue(a);
      RenderOfValue(b);
      assert s == EventId(Value(a), Value(b));
    }
    if t: nat, e: nat :| t > 0 && e > 0 && s == EventId(t, e) {
      assert s == "thread:" + Render(t) + ":entry:" + Render(e);
    }
  }

  lemma {:induction false} DigitRunStops(a: string, x: string)
    requires AllDigits(a) && x != [] && !IsDigit(x[0])
    ensures DigitRun(a + x) == |a|
  {
    if a == [] {
      assert a + x == x;
    } else {
      assert (a + x)[1..] == a[1..] + x;
      DigitRunStops(a[1..], x);
    }
  }

  /** The matcher decides the pattern. */
  lemma IsIdentityExact(s: string)
    ensures IsIdentity(s) <==> MatchesIdentity(s)
  {
    if MatchesIdentity(s) {
      var a, b :| CanonicalPositive(a) && CanonicalPositive(b) && s == "thread:" + a + ":entry:" + b;
      MatchIsIdentity(s, a, b);
    }
    if IsIdentity(s) {
      IdentityMatches(s);
    }
  }

  lemma MatchIsIdentity(s: string, a: string, b: string)
    requires CanonicalPositive(a) && CanonicalPositive(b) && s == "thread:" + a + ":entry:" + b
    ensures IsIdentity(s)
  {
    var x := ":entry:" + b;
    assert s[..7] == "thread:" && s[7..] == a + x;
    DigitRunStops(a, x);
    assert (a + x)[..|a|] == a && (a + x)[|a|..] == x;
    assert (a + x)[|a|..|a| + 7] == x[..7] && (a + x)[|a| + 7..] == x[7..];
  }

  lemma IdentityMatches(s: string)
    requires IsIdentity(s)
    ensures MatchesIdentity(s)
  {
    var rest := s[7..];
    var n := DigitRun(rest);
    assert rest == rest[..n] + rest[n..n + 7] + rest[n + 7..];
    assert s == s[..7] + rest;
    assert s == "thread:" + rest[..n] + ":entry:" + rest[n + 7..];
  }

  lemma EventIdIsIdentity(t: nat, e: nat)
    requires t > 0 && e > 0
    ensures IsIdentity(EventId(t, e))
  {
    MatchesIdentityImage(EventId(t, e));
    IsIdentityExact(EventId(t, e));
  }

  /** Reading a context inverts printing it, and nothing else is read. */
  lemma ContextRoundTrip(s: string, t: nat)
    requires t > 0
    ensures ParseContextId(s) == Some(t) <==> s == ContextId(t)
  {
    ValueOfRender(t);
    assert ContextId(t)[7..] == Render(t) && ContextId(t)[..7] == "thread:";
    if ParseContextId(s) == Some(t) {
      RenderOfValue(s[7..]);
      assert s == s[..7] + s[7..];
    }
  }
}
