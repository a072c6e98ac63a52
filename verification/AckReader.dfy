/** Reading acknowledgement lines from a buffered stream, one bounded line at a time. */
module AckReaders {
  import opened Wrappers

  const NEWLINE: char := '\n'
  const MAX_NDJSON_BYTES: nat := 0x40_0000

  datatype ReadError = BufferFull | EndOfInput | TooLarge

  /** The bytes through the first newline, or all of them. */
  function FirstLine(s: string): (line: string)
    ensures line <= s
    ensures forall i :: 0 <= i < |line| - 1 ==> s[i] != NEWLINE
    ensures |line| < |s| ==> line != [] && line[|line| - 1] == NEWLINE
  {
    if s == [] then [] else if s[0] == NEWLINE then [s[0]] else [s[0]] + FirstLine(s[1..])
  }

  predicate Ended(line: string) {
    line != [] && line[|line| - 1] == NEWLINE
  }

  /** A buffered reader: what it has yet to deliver, and the size of its buffer. */
  class BufferedReader {
    const size: nat
    var rest: string

    constructor (size: nat, input: string)
      requires size > 0
      ensures this.size == size && rest == input
    {
      this.size, this.rest := size, input;
    }

    /**
     `ReadSlice('\n')`: through the newline if it comes within one buffer, else a full buffer, else what
     is left at the end of input. A buffer filled exactly to the end may be reported either way.
     */
    method ReadSlice(endSeen: bool) returns (part: string, error: Option<ReadError>)
      modifies this`rest
      ensures old(rest) == part + rest
      ensures part == if |FirstLine(old(rest))| <= size then FirstLine(old(rest)) else old(rest)[..size]
      ensures error == None <==> Ended(part) && part == FirstLine(old(rest))
      ensures error == Some(BufferFull) ==> |part| == size && !Ended(part)
      ensures error == Some(EndOfInput) ==> rest == [] && part == FirstLine(old(rest)) && !Ended(part)
      ensures error == None || error == Some(BufferFull) || error == Some(EndOfInput)
    {
      var line := FirstLine(rest);
      if |line| > size {
        part, error := rest[..size], Some(BufferFull);
      } else if Ended(line) {
        part, error := line, None;
      } else {
        part, error := line, Some(if |line| == size && !endSeen then BufferFull else EndOfInput);
      }
      rest := rest[|part|..];
    }

    /**
     `readLimitedLine`: for any buffer size, exactly the next line when it fits the limit, and an error
     exactly when it does not; what was read is what is no longer to be read.
     */
    method ReadLimitedLine(limit: nat, endSeen: bool) returns (r: Result<string, ReadError>, atEnd: bool)
      requires size > 0
      modifies this`rest
      ensures r.Ok? <==> |FirstLine(old(rest))| <= limit
      ensures r.Ok? ==> r.value == FirstLine(old(rest)) && old(rest) == r.value + rest
      ensures r.Ok? ==> (atEnd <==> !Ended(r.value))
      ensures r.Err? ==> r.error == TooLarge && |rest| < |old(rest)|
    {
      var line := "";
      ghost var whole, target := rest, FirstLine(rest);
      Associate("", "", whole);
      Associate("", "", target);
      while true
        invariant whole == line + rest && |line| <= limit && |rest| <= |whole|
        invariant target == line + FirstLine(rest) && !Ended(line)
        decreases |rest|
      {
        var part, error;
        part, error, line := Append(line, endSeen);
        if |line| > limit {
          return Err(TooLarge), false;
        }
        if error != Some(BufferFull) {
          return Ok(line), error == Some(EndOfInput);
        }
      }
    }

    /** One round of the loop: read a slice and append it. */
    method Append(line: string, endSeen: bool) returns (part: string, error: Option<ReadError>, line': string)
      requires size > 0 && !Ended(line)
      modifies this`rest
      ensures line' == line + part && line + old(rest) == line' + rest && |rest| == |old(rest)| - |part|
      ensures line' <= line + FirstLine(old(rest))
      ensures error == Some(BufferFull) ==>
                |part| > 0 && line + FirstLine(old(rest)) == line' + FirstLine(rest) && !Ended(line')
      ensures error != Some(BufferFull) ==>
                line + FirstLine(old(rest)) == line' && (error == Some(EndOfInput) <==> !Ended(line'))
    {
      ghost var before := rest;
      part, error := ReadSlice(endSeen);
      PartOfLine(line, before, part, rest);
      line' := line + part;
    }
  }

  /** Moving a piece of the first line from the input to what was read. */
  lemma PartOfLine(line: string, before: string, part: string, rest: string)
    requires before == part + rest && part <= FirstLine(before)
    ensures line + before == (line + part) + rest
    ensures |part| <= |FirstLine(before)|
    ensures part == FirstLine(before) ==> line + FirstLine(before) == line + part
    ensures Ended(line + part) <==> if part == [] then Ended(line) else Ended(part)
    ensures !Ended(part) ==> line + FirstLine(before) == (line + part) + FirstLine(rest)
  {
    LineExtends(before, part, rest);
    Associate(line, part, rest);
    Associate(line, part, FirstLine(rest));
  }

  lemma Associate(a: string, b: string, c: string)
    ensures a + (b + c) == (a + b) + c
  {
  }

  /** Taking a newline-free piece off the front takes it off the first line. */
  lemma {:induction false} LineExtends(s: string, part: string, rest: string)
    requires s == part + rest && part <= FirstLine(s)
    ensures FirstLine(s) == part + if Ended(part) then [] else FirstLine(rest)
  {
    if part == [] {
      assert s == rest;
    } else if s[0] == NEWLINE {
      assert part == [s[0]];
    } else {
      assert s[1..] == part[1..] + rest;
      assert part[1..] <= FirstLine(s[1..]);
      LineExtends(s[1..], part[1..], rest);
      assert Ended(part) <==> Ended(part[1..]);
      assert part == [s[0]] + part[1..];
      Associate([s[0]], part[1..], if Ended(part) then [] else FirstLine(rest));
    }
  }

  /** The lines of an input, in order. */
  function Lines(s: string): seq<string>
    decreases |s|
  {
    if s == [] then [] else [FirstLine(s)] + Lines(s[|FirstLine(s)|..])
  }

  function Joined(lines: seq<string>): string {
    if lines == [] then "" else lines[0] + Joined(lines[1..])
  }

  /** Successive reads split the input: nothing lost, nothing repeated, every line but the last ended. */
  lemma {:induction false} LinesSplit(s: string)
    ensures Joined(Lines(s)) == s
    ensures forall i :: 0 <= i < |Lines(s)| - 1 ==> Ended(Lines(s)[i])
    decreases |s|
  {
    if s != [] {
      var line := FirstLine(s);
      LinesSplit(s[|line|..]);
      assert s == line + s[|line|..];
    }
  }
}
