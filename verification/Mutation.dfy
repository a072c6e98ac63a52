/**
 One final response: the sidecar's single mutation, the classification of its failures, the exit
 code it crosses the process boundary with, and the retry loop that relies on it.
 */
module Mutations {
  import opened Wrappers
  import opened Decimal
  import opened Events
  import opened Hydration

  // ---------------------------------------------------------------- errors

  datatype Code = NetworkCode | RateLimitCode | OtherCode
  datatype ApiError = ApiError(code: Code, status: int)
  datatype NetError = NetError(timeout: bool, temporary: bool)

  /** A Go error as `errors.Is` and `errors.As` see its chain; `safe` marks a safe-retry wrapper in it. */
  datatype GoError =
    GoError(deadline: bool, canceled: bool, api: Option<ApiError>, net: Option<NetError>, safe: bool)

  const PLAIN := GoError(false, false, None, None, false)

  function SafeRetry(e: GoError): GoError {
    e.(safe := true)
  }

  /** A failed read that a later attempt may not meet: a deadline, the network, a rate limit, an ailing server. */
  ghost predicate MayPass(e: GoError) {
    || e.deadline
    || (!e.canceled && e.api.Some? && (e.api.value.code.NetworkCode? || e.api.value.code.RateLimitCode?))
    || (!e.canceled && e.api.Some? && (e.api.value.status in {408, 425, 429} || 500 <= e.api.value.status))
    || (!e.canceled && e.api.None? && e.net.Some? && (e.net.value.timeout || e.net.value.temporary))
  }

  /** A create that the server refused, so that nothing came of it. */
  ghost predicate Refuses(e: GoError) {
    e.api.Some? && e.api.value.status in {404, 409, 422, 429}
  }

  method IsTransientRead(e: GoError) returns (r: bool)
    ensures r <==> MayPass(e)
  {
    if e.deadline {
      return true;
    }
    if e.canceled {
      return false;
    }
    if e.api.Some? {
      if e.api.value.code != OtherCode {
        return true;
      }
      var status := e.api.value.status;
      return status == 408 || status == 425 || status == 429 || status >= 500;
    }
    return e.net.Some? && (e.net.value.timeout || e.net.value.temporary);
  }

  method IsDefinitiveRejection(e: GoError) returns (r: bool)
    ensures r <==> Refuses(e)
  {
    if e.api.None? {
      return false;
    }
    var status := e.api.value.status;
    return status == 404 || status == 409 || status == 422 || status == 429;
  }

  /** A failed read keeps the mutation unmade; it may be retried when it is transient. */
  method ReadFailure(e: GoError) returns (r: GoError)
    requires !e.safe
    ensures r == e.(safe := MayPass(e))
  {
    var transient := IsTransientRead(e);
    return if transient then SafeRetry(e) else e;
  }

  /** A failed create may be retried when the server definitively refused it. */
  method CreateFailure(e: GoError) returns (r: GoError)
    requires !e.safe
    ensures r == e.(safe := Refuses(e))
  {
    var refused := IsDefinitiveRejection(e);
    return if refused then SafeRetry(e) else e;
  }

  // ---------------------------------------------------------------- the mutation

  /** What the server did with one create call, and what the client was told. */
  datatype CreateOutcome = CreateOutcome(applied: bool, err: Option<GoError>) {
    /** Success means applied; statuses 404, 409, 422 and 429 mean not applied; anything else may mean either. */
    ghost predicate Honest() {
      && (err.None? ==> applied)
      && (err.Some? ==> !err.value.safe)
      && (err.Some? && Refuses(err.value) ==> !applied)
    }
  }

  datatype Input = BadJson | Content(text: string)

  const MAX_BODY: nat := 512 * 1024

  predicate Sendable(input: Input) {
    input.Content? && !Blank(input.text) && |input.text| <= MAX_BODY
  }

  /** A text that is not blank, of at most half a mebibyte. */
  ghost predicate Composed(input: Input) {
    && input.Content? && |input.text| <= 524288
    && exists k :: 0 <= k < |input.text| && !IsSpace(input.text[k])
  }

  datatype Draft = Draft(directly: seq<Contact>, copied: seq<Contact>, blind: seq<Contact>)

  datatype Recipients = Recipients(to: seq<string>, cc: seq<string>, bcc: seq<string>)

  /** The API of one reply, with the text functions used on addresses. */
  datatype ReplyApi = ReplyApi(
    entries: Result<seq<Entry>, GoError>,
    draft: int -> Result<Option<Draft>, GoError>,
    sender: Result<int, GoError>,
    create: (int, string, Recipients) -> CreateOutcome,
    trim: string -> string,
    lower: string -> string)
  {
    ghost predicate Honest() {
      && (entries.Err? ==> !entries.error.safe)
      && (forall id :: draft(id).Err? ==> !draft(id).error.safe)
      && (sender.Err? ==> !sender.error.safe)
      && (forall id, text, r :: create(id, text, r).Honest())
    }
  }

  /** A create as the server meets it. */
  datatype Call =
    | Reply(entry: int, content: string, recipients: Recipients, outcome: CreateOutcome)
    | CommentOn(thread: int, content: string, outcome: CreateOutcome)

  /** No call, or one that the server did not apply. */
  predicate NothingApplied(calls: seq<Call>) {
    forall i :: 0 <= i < |calls| ==> !calls[i].outcome.applied
  }

  /** What a run reports once its create has been answered: a refused one is marked safe to retry. */
  ghost function Told(answer: Option<GoError>, outOk: bool): Option<GoError> {
    match answer
    case Some(e) => Some(e.(safe := Refuses(e)))
    case None => if outOk then None else Some(PLAIN)
  }

  // ---------------------------------------------------------------- the addresses of a reply

  /** The addresses of `contacts`, blank ones and repetitions up to case left out. */
  function Addresses(trim: string -> string, lower: string -> string, contacts: seq<Contact>,
          seen: set<string>): seq<string>
  {
    if contacts == [] then []
    else
      var email := trim(contacts[0].email);
      if email == "" || lower(email) in seen then Addresses(trim, lower, contacts[1..], seen)
      else [email] + Addresses(trim, lower, contacts[1..], seen + {lower(email)})
  }

  /** `contactEmails`. */
  method ContactEmails(trim: string -> string, lower: string -> string, contacts: seq<Contact>)
    returns (result: seq<string>)
    ensures result == Addresses(trim, lower, contacts, {})
  {
    result := [];
    var seen: set<string> := {};
    var i := 0;
    assert contacts[0..] == contacts;
    assert [] + Addresses(trim, lower, contacts, {}) == Addresses(trim, lower, contacts, {});
    while i < |contacts|
      invariant 0 <= i <= |contacts|
      invariant Addresses(trim, lower, contacts, {}) == result + Addresses(trim, lower, contacts[i..], seen)
    {
      assert contacts[i..][1..] == contacts[i + 1..];
      var email := trim(contacts[i].email);
      var key := lower(email);
      ghost var rest := Addresses(trim, lower, contacts[i + 1..], seen + {key});
      i := i + 1;
      if email != "" && key !in seen {
        assert result + ([email] + rest) == result + [email] + rest;
        seen := seen + {key};
        result := result + [email];
      }
    }
    assert result + [] == result;
  }

  /** Contact `i` is the first of the list with its address, which is not blank and not one of `seen`. */
  ghost predicate Introduces(trim: string -> string, lower: string -> string, contacts: seq<Contact>,
          seen: set<string>, i: nat)
  {
    && i < |contacts| && trim(contacts[i].email) != "" && lower(trim(contacts[i].email)) !in seen
    && forall j :: 0 <= j < i && trim(contacts[j].email) != "" ==>
         lower(trim(contacts[j].email)) != lower(trim(contacts[i].email))
  }

  /** `picks` lists, in order, the contacts that introduce an address, and `r` lists their addresses. */
  ghost predicate Picks(trim: string -> string, lower: string -> string, contacts: seq<Contact>,
          seen: set<string>, picks: seq<nat>, r: seq<string>)
  {
    && |r| == |picks|
    && (forall k, l :: 0 <= k < l < |picks| ==> picks[k] < picks[l])
    && (forall i: nat :: i in picks <==> Introduces(trim, lower, contacts, seen, i))
    && (forall k :: 0 <= k < |picks| ==> picks[k] < |contacts| && r[k] == trim(contacts[picks[k]].email))
  }

  /** The list is that of the contacts which introduce an address, in their order, and of no others. */
  lemma {:induction false} AddressesSpec(trim: string -> string, lower: string -> string, contacts: seq<Contact>,
          seen: set<string>) returns (picks: seq<nat>)
    ensures Picks(trim, lower, contacts, seen, picks, Addresses(trim, lower, contacts, seen))
  {
    if contacts == [] {
      return [];
    }
    var email := trim(contacts[0].email);
    var next := if email == "" || lower(email) in seen then seen else seen + {lower(email)};
    var rest := AddressesSpec(trim, lower, contacts[1..], next);
    picks := (if next == seen then [] else [0]) + Shifted(rest);
    PicksWhich(trim, lower, contacts, seen, next, rest, picks);
    PicksMore(trim, lower, contacts, seen, next, rest, Addresses(trim, lower, contacts[1..], next), picks);
  }

  /** The picks of the rest, moved up by one, after the first contact if it introduces an address. */
  ghost predicate Extends(trim: string -> string, lower: string -> string, contacts: seq<Contact>,
          seen: set<string>, next: set<string>, rest: seq<nat>, picks: seq<nat>)
  {
    && contacts != []
    && (var email := trim(contacts[0].email);
        next == if email == "" || lower(email) in seen then seen else seen + {lower(email)})
    && picks == (if next == seen then [] else [0]) + Shifted(rest)
  }

  lemma PicksWhich(trim: string -> string, lower: string -> string, contacts: seq<Contact>,
          seen: set<string>, next: set<string>, rest: seq<nat>, picks: seq<nat>)
    requires Extends(trim, lower, contacts, seen, next, rest, picks)
    requires forall i: nat :: i in rest <==> Introduces(trim, lower, contacts[1..], next, i)
    ensures forall i: nat :: i in picks <==> Introduces(trim, lower, contacts, seen, i)
  {
    forall i: nat ensures i in picks <==> Introduces(trim, lower, contacts, seen, i) {
      assert i in Shifted(rest) <==> i > 0 && i - 1 in rest;
      if i > 0 {
        IntroducesLater(trim, lower, contacts, seen, next, i);
      }
    }
  }

  lemma PicksMore(trim: string -> string, lower: string -> string, contacts: seq<Contact>,
          seen: set<string>, next: set<string>, rest: seq<nat>, r: seq<string>, picks: seq<nat>)
    requires Extends(trim, lower, contacts, seen, next, rest, picks) && |r| == |rest|
    requires forall k, l :: 0 <= k < l < |rest| ==> rest[k] < rest[l]
    requires forall k :: 0 <= k < |rest| ==>
               rest[k] < |contacts[1..]| && r[k] == trim(contacts[1..][rest[k]].email)
    ensures forall k, l :: 0 <= k < l < |picks| ==> picks[k] < picks[l]
    ensures var all := (if next == seen then [] else [trim(contacts[0].email)]) + r;
            |all| == |picks| && forall k :: 0 <= k < |picks| ==>
              picks[k] < |contacts| && all[k] == trim(contacts[picks[k]].email)
  {
  }

  function Shifted(s: seq<nat>): (r: seq<nat>)
    ensures |r| == |s| && (forall k :: 0 <= k < |s| ==> r[k] == s[k] + 1)
    ensures forall i: nat :: i in r <==> i > 0 && i - 1 in s
  {
    if s == [] then [] else [s[0] + 1] + Shifted(s[1..])
  }

  lemma IntroducesLater(trim: string -> string, lower: string -> string, contacts: seq<Contact>,
          seen: set<string>, next: set<string>, i: nat)
    requires 0 < i && contacts != []
    requires var email := trim(contacts[0].email);
             next == if email == "" || lower(email) in seen then seen else seen + {lower(email)}
    ensures Introduces(trim, lower, contacts, seen, i) <==> Introduces(trim, lower, contacts[1..], next, i - 1)
  {
    var rest := contacts[1..];
    if i < |contacts| {
      assert contacts[i] == rest[i - 1];
      if Introduces(trim, lower, rest, next, i - 1) {
        forall j | 0 <= j < i && trim(contacts[j].email) != ""
          ensures lower(trim(contacts[j].email)) != lower(trim(contacts[i].email))
        {
          assert j > 0 ==> contacts[j] == rest[j - 1];
        }
      }
      if Introduces(trim, lower, contacts, seen, i) {
        assert forall j :: 0 <= j < i - 1 ==> rest[j] == contacts[j + 1];
      }
    }
  }

  /** No address is left out unless it is blank. */
  lemma AddressesEmpty(trim: string -> string, lower: string -> string, contacts: seq<Contact>)
    ensures Addresses(trim, lower, contacts, {}) == [] <==> forall c :: c in contacts ==> trim(c.email) == ""
  {
    var picks := AddressesSpec(trim, lower, contacts, {});
    if picks != [] {
      assert contacts[picks[0]] in contacts && picks[0] in picks;
    }
    if c :| c in contacts && trim(c.email) != "" {
      var i: nat :| i < |contacts| && contacts[i] == c;
      var first := FirstNonblank(trim, contacts, i);
      assert Introduces(trim, lower, contacts, {}, first);
      assert first in picks;
    }
  }

  lemma {:induction false} FirstNonblank(trim: string -> string, contacts: seq<Contact>, i: nat) returns (first: nat)
    requires i < |contacts| && trim(contacts[i].email) != ""
    ensures first < |contacts| && trim(contacts[first].email) != ""
    ensures forall j :: 0 <= j < first ==> trim(contacts[j].email) == ""
  {
    if j: nat :| j < i && trim(contacts[j].email) != "" {
      first := FirstNonblank(trim, contacts, j);
    } else {
      first := i;
    }
  }

  // ---------------------------------------------------------------- replies

  /** Entry `i` of the listing is its first message with an identity. */
  ghost predicate FirstMessage(entries: seq<Entry>, i: nat) {
    && i < |entries| && entries[i].kind == "message" && entries[i].id > 0
    && forall j :: 0 <= j < i ==> !(entries[j].kind == "message" && entries[j].id > 0)
  }

  /** Some contact of the draft has an address. */
  ghost predicate Addressed(trim: string -> string, d: Draft) {
    exists c :: (c in d.directly || c in d.copied || c in d.blind) && trim(c.email) != ""
  }

  /** The draft for the listing's first message is `d`, and it is addressed to someone. */
  ghost predicate Prefilled(api: ReplyApi, i: nat, d: Draft) {
    && api.entries.Ok? && FirstMessage(api.entries.value, i)
    && api.draft(api.entries.value[i].id) == Ok(Some(d)) && Addressed(api.trim, d)
  }

  /** The read at which a reply ends fails with `e`: of the listing, of the draft, or of the sender. */
  ghost predicate ReadFails(api: ReplyApi, e: GoError) {
    || api.entries == Err(e)
    || (exists i: nat :: api.entries.Ok? && FirstMessage(api.entries.value, i)
                    && api.draft(api.entries.value[i].id) == Err(e))
    || (api.sender == Err(e) && exists i, d :: Prefilled(api, i, d))
  }

  function RecipientsOf(api: ReplyApi, d: Draft): Recipients {
    Recipients(Addresses(api.trim, api.lower, d.directly, {}), Addresses(api.trim, api.lower, d.copied, {}),
               Addresses(api.trim, api.lower, d.blind, {}))
  }

  /** The create of a reply to entry `i` of the listing. */
  function ReplyCall(api: ReplyApi, i: nat, d: Draft, content: string): Call
    requires api.entries.Ok? && i < |api.entries.value|
  {
    var entry, to := api.entries.value[i].id, RecipientsOf(api, d);
    Reply(entry, content, to, api.create(entry, content, to))
  }

  /** The reply is created, on the draft `d` for entry `i` of the listing. */
  ghost predicate Replies(api: ReplyApi, thread: int, input: Input, i: nat, d: Draft) {
    thread > 0 && Composed(input) && Prefilled(api, i, d) && api.sender.Ok? && api.sender.value > 0
  }

  /**
   How a reply ends. It is created exactly when its thread, its text and every read allow it; otherwise
   it ends with the read that failed, marked safe to retry when that may pass, or with a final error.
   */
  ghost predicate ReplyEnds(api: ReplyApi, thread: int, input: Input, outOk: bool,
          err: Option<GoError>, calls: seq<Call>)
  {
    && (calls != [] <==> exists i, d :: Replies(api, thread, input, i, d))
    && (forall i, d :: Replies(api, thread, input, i, d) ==> calls == [ReplyCall(api, i, d, input.text)])
    && (calls != [] ==> err == Told(calls[0].outcome.err, outOk))
    && (forall e :: thread > 0 && Composed(input) && ReadFails(api, e) ==> err == Some(e.(safe := MayPass(e))))
    && (calls == [] && !(thread > 0 && Composed(input) && exists e :: ReadFails(api, e)) ==> err == Some(PLAIN))
  }

  /** That settles both the calls and the error. */
  lemma ReplyEndsOneWay(api: ReplyApi, thread: int, input: Input, outOk: bool,
          err: Option<GoError>, calls: seq<Call>, err': Option<GoError>, calls': seq<Call>)
    requires ReplyEnds(api, thread, input, outOk, err, calls) && ReplyEnds(api, thread, input, outOk, err', calls')
    ensures err == err' && calls == calls'
  {
    if calls != [] {
      var i, d :| Replies(api, thread, input, i, d);
    }
  }

  lemma EndsUnread(api: ReplyApi, thread: int, input: Input, outOk: bool, e: GoError)
    requires thread > 0 && Composed(input) && ReadFails(api, e)
    ensures ReplyEnds(api, thread, input, outOk, Some(e.(safe := MayPass(e))), [])
  {
    assert forall i, d :: Prefilled(api, i, d) ==> FirstMessage(api.entries.value, i);
  }

  lemma EndsUnsent(api: ReplyApi, thread: int, input: Input, outOk: bool)
    requires forall i, d :: !Replies(api, thread, input, i, d)
    requires thread > 0 && Composed(input) ==> forall e :: !ReadFails(api, e)
    ensures ReplyEnds(api, thread, input, outOk, Some(PLAIN), [])
  {
  }

  lemma EndsCreated(api: ReplyApi, thread: int, input: Input, outOk: bool, i: nat, d: Draft)
    requires Replies(api, thread, input, i, d)
    ensures var call := ReplyCall(api, i, d, input.text);
            ReplyEnds(api, thread, input, outOk, Told(call.outcome.err, outOk), [call])
  {
    assert forall k, d' :: Prefilled(api, k, d') ==> k == i && d' == d;
    assert forall e :: !ReadFails(api, e);
  }

  /**
   `runReply`. At most one create is called; success means it was applied; and a failure marked safe
   to retry means that nothing was applied.
   */
  method RunReply(api: ReplyApi, thread: int, input: Input, outOk: bool)
    returns (err: Option<GoError>, calls: seq<Call>)
    requires api.Honest()
    ensures ReplyEnds(api, thread, input, outOk, err, calls)
    ensures |calls| <= 1
    ensures err.None? ==> |calls| == 1 && calls[0].outcome.applied
    ensures err.Some? && err.value.safe ==> NothingApplied(calls)
  {
    calls := [];
    if thread <= 0 || !Sendable(input) {
      EndsUnsent(api, thread, input, outOk);
      return Some(PLAIN), [];
    }
    if api.entries.Err? {
      var failure := ReadFailure(api.entries.error);
      EndsUnread(api, thread, input, outOk, api.entries.error);
      return Some(failure), [];
    }
    var entries := api.entries.value;
    var entryId := 0;
    var i := 0;
    while i < |entries|
      invariant 0 <= i <= |entries| && entryId == 0
      invariant forall j :: 0 <= j < i ==> !(entries[j].kind == "message" && entries[j].id > 0)
    {
      if entries[i].kind == "message" && entries[i].id > 0 {
        entryId := entries[i].id;
        break;
      }
      i := i + 1;
    }
    if entryId == 0 {
      EndsUnsent(api, thread, input, outOk);
      return Some(PLAIN), [];
    }
    assert forall k: nat :: FirstMessage(entries, k) <==> k == i;
    var prefill := api.draft(entryId);
    if prefill.Err? {
      var failure := ReadFailure(prefill.error);
      EndsUnread(api, thread, input, outOk, prefill.error);
      return Some(failure), [];
    }
    if prefill.value.None? {
      EndsUnsent(api, thread, input, outOk);
      return Some(PLAIN), [];
    }
    ghost var draft := prefill.value.value;
    var to := ContactEmails(api.trim, api.lower, prefill.value.value.directly);
    var cc := ContactEmails(api.trim, api.lower, prefill.value.value.copied);
    var bcc := ContactEmails(api.trim, api.lower, prefill.value.value.blind);
    AddressesEmpty(api.trim, api.lower, draft.directly);
    AddressesEmpty(api.trim, api.lower, draft.copied);
    AddressesEmpty(api.trim, api.lower, draft.blind);
    if |to| + |cc| + |bcc| == 0 {
      EndsUnsent(api, thread, input, outOk);
      return Some(PLAIN), [];
    }
    assert Prefilled(api, i, draft);
    if api.sender.Err? {
      var failure := ReadFailure(api.sender.error);
      EndsUnread(api, thread, input, outOk, api.sender.error);
      return Some(failure), [];
    }
    if api.sender.value <= 0 {
      EndsUnsent(api, thread, input, outOk);
      return Some(PLAIN), [];
    }
    EndsCreated(api, thread, input, outOk, i, draft);
    var outcome := api.create(entryId, input.text, Recipients(to, cc, bcc));
    calls := [Reply(entryId, input.text, Recipients(to, cc, bcc), outcome)];
    if outcome.err.Some? {
      var failure := CreateFailure(outcome.err.value);
      return Some(failure), calls;
    }
    return if outOk then None else Some(PLAIN), calls;
  }

  // ---------------------------------------------------------------- comments

  /** A completed HTTP exchange, with the path and user of the redirect it names, if that parses. */
  datatype Response = Response(status: int, redirectPath: Option<string>, redirectUser: bool)

  /** `PostForm`: an error, no response, or a response. */
  datatype Posted = PostError(err: GoError) | NoResponse | Answered(response: Response)

  /** The exchange confirms a comment: a success, or a redirect back to the thread. */
  ghost predicate Confirms(thread: nat, posted: Posted) {
    && posted.Answered?
    && var r := posted.response;
       (r.status / 100 == 2
        || (r.status in {302, 303} && r.redirectPath == Some("/topics/" + Render(thread)) && !r.redirectUser))
  }

  ghost function CommentAnswer(thread: nat, posted: Posted): Option<GoError> {
    if Confirms(thread, posted) then None else if posted.PostError? then Some(posted.err) else Some(PLAIN)
  }

  /** `CreateComment`'s reading of the exchange. */
  method CommentError(thread: nat, posted: Posted) returns (err: Option<GoError>)
    ensures err == CommentAnswer(thread, posted)
  {
    match posted {
      case PostError(e) =>
        return Some(e);
      case NoResponse =>
        return Some(PLAIN);
      case Answered(r) =>
        if 200 <= r.status < 300 {
          return None;
        }
        if r.status != 302 && r.status != 303 {
          return Some(PLAIN);
        }
        if r.redirectUser || r.redirectPath != Some("/topics/" + Render(thread)) {
          return Some(PLAIN);
        }
        return None;
    }
  }

  /** How a comment ends: it is created exactly when its thread and text allow it, and its answer is told. */
  ghost predicate CommentEnds(thread: int, input: Input, applied: bool, posted: Posted, outOk: bool,
          err: Option<GoError>, calls: seq<Call>)
  {
    if thread > 0 && Composed(input)
    then
      var answer := CommentAnswer(thread, posted);
      calls == [CommentOn(thread, input.text, CreateOutcome(applied, answer))] && err == Told(answer, outOk)
    else calls == [] && err == Some(PLAIN)
  }

  /** `runComment`: one create, classified as a reply's is. */
  method RunComment(thread: int, input: Input, applied: bool, posted: Posted, outOk: bool)
    returns (err: Option<GoError>, calls: seq<Call>)
    requires thread > 0 ==> CreateOutcome(applied, CommentAnswer(thread, posted)).Honest()
    ensures CommentEnds(thread, input, applied, posted, outOk, err, calls)
    ensures err.None? ==> |calls| == 1 && calls[0].outcome.applied
    ensures err.Some? && err.value.safe ==> NothingApplied(calls)
  {
    if thread <= 0 || !Sendable(input) {
      return Some(PLAIN), [];
    }
    var told := CommentError(thread, posted);
    calls := [CommentOn(thread, input.text, CreateOutcome(applied, told))];
    if told.Some? {
      var failure := CreateFailure(told.value);
      return Some(failure), calls;
    }
    return if outOk then None else Some(PLAIN), calls;
  }

  // ---------------------------------------------------------------- the process boundary

  /** `main` and `exitCode`: success and cancellation exit 0, a safe retry 75, the rest 1. */
  function ExitCode(err: Option<GoError>): int {
    if err.None? || err.value.canceled then 0 else if err.value.safe then 75 else 1
  }

  /** Why the Python runner raised, as the message it raises with. */
  datatype RunnerError = CouldNotStart | TimedOut | Oversized | BadExit(code: int) | InvalidJson | BadResponse

  function FormatInt(n: int): string {
    if n < 0 then "-" + Render(-n) else Render(n)
  }

  function Operation(kind: Kind): string {
    if kind == Comment then "comment" else "reply"
  }

  function Text(kind: Kind, e: RunnerError): string {
    var head := "HEY SDK " + Operation(kind);
    match e
    case CouldNotStart => head + " could not start"
    case TimedOut => head + " timed out"
    case Oversized => head + " returned oversized JSON"
    case BadExit(code) => head + " failed (" + ("exit " + FormatInt(code) + ")")
    case InvalidJson => head + " returned invalid JSON"
    case BadResponse => head + " failed"
  }

  function LowerChar(c: char): char {
    if 'A' <= c <= 'Z' then (c as int + 32) as char else c
  }

  function Lower(s: string): string {
    if s == [] then [] else [LowerChar(s[0])] + Lower(s[1..])
  }

  function SpaceRun(s: string): (n: nat)
    ensures n <= |s|
  {
    if s == [] || !IsSpace(s[0]) then 0 else 1 + SpaceRun(s[1..])
  }

  /** The digits the pattern `exit\s+(\d+)` would capture at the front of `s`. */
  function ExitHere(s: string): Option<string> {
    if |s| < 4 || s[..4] != "exit" then None
    else
      var n := SpaceRun(s[4..]);
      var d := DigitRun(s[4..][n..]);
      if n == 0 || d == 0 then None else Some(s[4..][n..][..d])
  }

  /** The leftmost match of that pattern. */
  function FindExit(s: string): Option<string> {
    if ExitHere(s).Some? then ExitHere(s) else if s == [] then None else FindExit(s[1..])
  }

  /** `_retryable`: the message says exit 75. */
  predicate Retryable(error: string) {
    var digits := FindExit(Lower(error));
    digits.Some? && AllDigits(digits.value) && Value(digits.value) == 75
  }

  ghost predicate NoX(s: string) {
    forall i :: 0 <= i < |s| ==> s[i] != 'x' && s[i] != 'X'
  }

  lemma {:induction false} LowerConcat(a: string, b: string)
    ensures Lower(a + b) == Lower(a) + Lower(b)
  {
    if a == [] {
      assert a + b == b;
    } else {
      assert (a + b)[1..] == a[1..] + b;
      LowerConcat(a[1..], b);
    }
  }

  lemma {:induction false} LowerNoX(s: string)
    requires NoX(s)
    ensures NoX(Lower(s)) && |Lower(s)| == |s|
  {
    if s != [] {
      LowerNoX(s[1..]);
    }
  }

  /** Text without an x holds no match, and a match cannot begin in it and end beyond it. */
  lemma {:induction false} SkipNoX(a: string, b: string)
    requires NoX(a) && (b == [] || b[0] != 'x')
    ensures FindExit(a + b) == FindExit(b)
  {
    var s := a + b;
    if a == [] {
      assert s == b;
    } else {
      assert s[1..] == a[1..] + b;
      if |s| >= 4 {
        assert s[..4][1] == s[1];
        assert s[1] == if |a| > 1 then a[1] else b[0];
      }
      assert ExitHere(s).None?;
      SkipNoX(a[1..], b);
    }
  }

  lemma {:induction false} LowerDigits(s: string)
    requires AllDigits(s)
    ensures Lower(s) == s
  {
    if s != [] {
      LowerDigits(s[1..]);
    }
  }

  lemma ExitTail(code: int)
    ensures code >= 0 ==> FindExit("exit " + Render(code) + ")") == Some(Render(code))
    ensures code < 0 ==> FindExit("exit " + ("-" + Render(-code)) + ")").None?
  {
    var digits := if code >= 0 then Render(code) else Render(-code);
    if code >= 0 {
      var s := "exit " + digits + ")";
      assert s[..4] == "exit" && s[4..] == " " + (digits + ")");
      assert s[4..][1..] == digits + ")";
      assert SpaceRun(digits + ")") == 0;
      assert SpaceRun(s[4..]) == 1;
      DigitRunStops(digits, ")");
      assert (digits + ")")[..|digits|] == digits;
    } else {
      var s := "exit " + ("-" + digits) + ")";
      var tail := "-" + digits + ")";
      assert s[..4] == "exit" && s[4..] == " " + tail;
      assert s[4..][1..] == tail;
      assert SpaceRun(tail) == 0 && DigitRun(tail) == 0;
      assert SpaceRun(s[4..]) == 1;
      assert ExitHere(s).None?;
      NoExitAfter(s, tail);
    }
  }

  lemma NoExitAfter(s: string, tail: string)
    requires s == "exit " + tail && ExitHere(s).None? && NoX(tail)
    ensures FindExit(s).None?
  {
    assert s[1..] == "xit " + tail;
    assert s[1..][1..] == "it " + tail;
    assert ExitHere(s[1..]).None? by {
      assert |s[1..]| >= 4 ==> s[1..][..4][0] == 'x';
    }
    SkipNoX("it " + tail, "");
    assert ("it " + tail) + "" == "it " + tail;
    assert FindExit("").None?;
  }

  lemma OperationNoX(kind: Kind)
    ensures NoX("HEY SDK " + Operation(kind))
  {
  }

  lemma NotRetryable(text: string)
    requires NoX(text)
    ensures !Retryable(text)
  {
    LowerNoX(text);
    SkipNoX(Lower(text), "");
    assert Lower(text) + "" == Lower(text);
    assert FindExit("").None?;
  }

  lemma ExitRetryable(head: string, code: int)
    requires NoX(head)
    ensures Retryable(head + ("exit " + FormatInt(code) + ")")) <==> code == 75
  {
    var tail := "exit " + FormatInt(code) + ")";
    LowerConcat(head, tail);
    LowerNoX(head);
    LowerTail(code);
    SkipNoX(Lower(head), tail);
    ExitTail(code);
    if code >= 0 {
      ValueOfRender(code);
    }
  }

  /** The text protocol carries the exit code faithfully: only an exit with code 75 reads as retryable. */
  lemma RetryableExact(kind: Kind, e: RunnerError)
    ensures Retryable(Text(kind, e)) <==> e == BadExit(75)
  {
    var head := "HEY SDK " + Operation(kind);
    OperationNoX(kind);
    if e.BadExit? {
      ExitRetryable(head + " failed (", e.code);
    } else {
      var rest :=
        match e
        case CouldNotStart => " could not start"
        case TimedOut => " timed out"
        case Oversized => " returned oversized JSON"
        case InvalidJson => " returned invalid JSON"
        case _ => " failed";
      assert NoX(rest);
      NotRetryable(head + rest);
    }
  }

  lemma LowerTail(code: int)
    ensures Lower("exit " + FormatInt(code) + ")") == "exit " + FormatInt(code) + ")"
  {
    var digits := if code < 0 then Render(-code) else Render(code);
    LowerDigits(digits);
    LowerConcat("exit " + FormatInt(code), ")");
    LowerConcat("exit ", FormatInt(code));
    if code < 0 {
      LowerConcat("-", digits);
    }
    LowerExit();
  }

  lemma LowerExit()
    ensures Lower("exit ") == "exit " && Lower(")") == ")" && Lower("-") == "-"
  {
  }

  // ---------------------------------------------------------------- one attempt and its retries

  datatype SendResult = SendResult(success: bool, retryable: bool)

  /** What happens to the sidecar process: it never starts, runs to its end, or is cut off at some point. */
  datatype Fate = NeverStarts | RunsToEnd | CutOff(reached: bool, how: RunnerError)

  /** Everything one attempt meets: creating the client, the API of either mutation, the process's fate. */
  datatype Attempt = Attempt(
    clientError: Option<GoError>, reply: ReplyApi, applied: bool, posted: Posted, outOk: bool, fate: Fate)
  {
    ghost predicate Honest(thread: nat) {
      && (clientError.Some? ==> !clientError.value.safe)
      && reply.Honest()
      && CreateOutcome(applied, CommentAnswer(thread, posted)).Honest()
      && (fate.CutOff? ==> fate.how == TimedOut || fate.how == Oversized || (fate.how.BadExit? && fate.how.code != 75))
    }
  }

  /** The creates that one attempt made, and what the adapter was told. */
  datatype Effect = Effect(calls: seq<Call>, result: SendResult) {
    /** A retryable answer means nothing was applied; a success means that the one create was. */
    predicate Truthful() {
      && |calls| <= 1
      && (result.retryable ==> !result.success && NothingApplied(calls))
      && (result.success ==> |calls| == 1 && calls[0].outcome.applied)
    }
  }

  /** How the sidecar ends: without a client as a failed read does, else as the mutation of its kind. */
  ghost predicate SidecarEnds(kind: Kind, thread: nat, input: Input, a: Attempt,
          err: Option<GoError>, calls: seq<Call>)
  {
    match a.clientError
    case Some(e) => calls == [] && err == Some(e.(safe := MayPass(e)))
    case None =>
      match kind
      case Message => ReplyEnds(a.reply, thread, input, a.outOk, err, calls)
      case Comment => CommentEnds(thread, input, a.applied, a.posted, a.outOk, err, calls)
  }

  /** The sidecar, from client creation to exit. */
  method RunSidecar(kind: Kind, thread: nat, input: Input, a: Attempt)
    returns (err: Option<GoError>, calls: seq<Call>)
    requires thread > 0 && a.Honest(thread)
    ensures SidecarEnds(kind, thread, input, a, err, calls)
    ensures |calls| <= 1
    ensures err.None? ==> |calls| == 1 && calls[0].outcome.applied
    ensures err.Some? && err.value.safe ==> NothingApplied(calls)
  {
    if a.clientError.Some? {
      var failure := ReadFailure(a.clientError.value);
      return Some(failure), [];
    }
    if kind == Comment {
      err, calls := RunComment(thread, input, a.applied, a.posted, a.outOk);
    } else {
      err, calls := RunReply(a.reply, thread, input, a.outOk);
    }
  }

  /**
   How one attempt for an event of kind `kind` ends. What the sidecar's run did and reported is told
   faithfully when it runs to its end: as a success exactly when it had no error, and as retryable exactly
   when its error was marked safe and was no cancellation. A process that never starts or is cut off is
   told as a final failure, whatever it did.
   */
  ghost predicate AttemptEnds(kind: Kind, thread: nat, input: Input, a: Attempt, effect: Effect) {
    match a.fate
    case NeverStarts => effect == Effect([], SendResult(false, false))
    case CutOff(reached, _) =>
      && effect.result == SendResult(false, false)
      && exists err, calls :: SidecarEnds(kind, thread, input, a, err, calls)
                              && effect.calls == if reached then calls else []
    case RunsToEnd =>
      exists err :: SidecarEnds(kind, thread, input, a, err, effect.calls)
                    && effect.result.success == err.None?
                    && effect.result.retryable == (err.Some? && err.value.safe && !err.value.canceled)
  }

  /** `send`, from the invocation of the mutation to its result. */
  method Send(kind: Kind, thread: nat, input: Input, a: Attempt) returns (effect: Effect)
    requires thread > 0 && a.Honest(thread)
    ensures AttemptEnds(kind, thread, input, a, effect) && effect.Truthful()
  {
    if a.fate.NeverStarts? {
      RetryableExact(kind, CouldNotStart);
      return Effect([], Failure(kind, CouldNotStart));
    }
    var told, calls := RunSidecar(kind, thread, input, a);
    RetryableExact(kind, InvalidJson);
    RetryableExact(kind, BadExit(ExitCode(told)));
    if a.fate.CutOff? {
      RetryableExact(kind, a.fate.how);
      return Effect(if a.fate.reached then calls else [], Failure(kind, a.fate.how));
    }
    if ExitCode(told) != 0 {
      return Effect(calls, Failure(kind, BadExit(ExitCode(told))));
    }
    // A cancelled run exits 0 and prints nothing.
    return Effect(calls, if told.None? then SendResult(true, false) else Failure(kind, InvalidJson));
  }

  function Failure(kind: Kind, e: RunnerError): SendResult {
    SendResult(false, Retryable(Text(kind, e)))
  }

  /** How one send ends: without a claimed pending event it calls nothing and fails for good. */
  ghost predicate SendEnds(claimed: Option<Kind>, thread: nat, input: Input, a: Attempt, effect: Effect) {
    match claimed
    case Some(kind) => AttemptEnds(kind, thread, input, a, effect)
    case None => effect == Effect([], SendResult(false, false))
  }

  /** Each attempt ends as it must. */
  ghost predicate AllEnd(thread: nat, input: Input, claimed: nat -> Option<Kind>, attempts: nat -> Attempt,
          effects: seq<Effect>)
  {
    forall i :: 0 <= i < |effects| ==> SendEnds(claimed(i), thread, input, attempts(i), effects[i])
  }

  /** Each was told as retryable, and applied nothing. */
  predicate AllToRetry(effects: seq<Effect>) {
    forall i :: 0 <= i < |effects| ==>
        effects[i].result.retryable && !effects[i].result.success && NothingApplied(effects[i].calls)
  }

  /**
   `_send_with_retry`: `claimed` says, for each attempt, which kind of pending event the thread's claim
   names, if any. At most `maxRetries + 1` attempts are made; they end with the first that is not retryable,
   or when they are used up, and only the last of them can have been applied.
   */
  method SendWithRetry(thread: nat, input: Input, maxRetries: nat, claimed: nat -> Option<Kind>,
          attempts: nat -> Attempt)
    returns (result: SendResult, effects: seq<Effect>)
    requires thread > 0 && forall i :: attempts(i).Honest(thread)
    ensures 1 <= |effects| <= maxRetries + 1
    ensures AllEnd(thread, input, claimed, attempts, effects) && AllToRetry(effects[..|effects| - 1])
    ensures |effects| <= maxRetries ==> !effects[|effects| - 1].result.retryable
    ensures result == effects[|effects| - 1].result && effects[|effects| - 1].Truthful()
  {
    var effect := SendClaimed(thread, input, claimed(0), attempts(0));
    ghost var earlier: seq<Effect> := [];
    effects := [effect];
    EndsMore(thread, input, claimed, attempts, [], effect);
    var attempt := 0;
    while attempt < maxRetries
      invariant 0 <= attempt <= maxRetries && |earlier| == attempt && effects == earlier + [effect]
      invariant AllEnd(thread, input, claimed, attempts, effects) && AllToRetry(earlier) && effect.Truthful()
    {
      if effect.result.success || !effect.result.retryable {
        break;
      }
      RetriesMore(earlier, effect);
      earlier := effects;
      attempt := attempt + 1;
      effect := SendClaimed(thread, input, claimed(attempt), attempts(attempt));
      EndsMore(thread, input, claimed, attempts, effects, effect);
      effects := effects + [effect];
    }
    LastOf(earlier, effect);
    result := effect.result;
  }

  lemma EndsMore(thread: nat, input: Input, claimed: nat -> Option<Kind>, attempts: nat -> Attempt,
          effects: seq<Effect>, effect: Effect)
    requires AllEnd(thread, input, claimed, attempts, effects)
    requires SendEnds(claimed(|effects|), thread, input, attempts(|effects|), effect)
    ensures AllEnd(thread, input, claimed, attempts, effects + [effect])
  {
  }

  lemma LastOf(earlier: seq<Effect>, effect: Effect)
    ensures (earlier + [effect])[..|earlier|] == earlier && (earlier + [effect])[|earlier|] == effect
  {
  }

  lemma RetriesMore(effects: seq<Effect>, effect: Effect)
    requires AllToRetry(effects) && effect.Truthful() && effect.result.retryable
    ensures AllToRetry(effects + [effect])
  {
  }

  method SendClaimed(thread: nat, input: Input, claimed: Option<Kind>, a: Attempt) returns (effect: Effect)
    requires thread > 0 && a.Honest(thread)
    ensures SendEnds(claimed, thread, input, a, effect) && effect.Truthful()
  {
    if claimed.None? {
      return Effect([], SendResult(false, false));
    }
    effect := Send(claimed.value, thread, input, a);
  }
}
