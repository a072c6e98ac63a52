/**
 The durable queue as a value: what a state file holds, what loading accepts, what saving
 writes, and the step each operation takes. The class in DurableQueue.dfy is proved against it.
 */
module QueueModel {
  import opened Wrappers
  import opened Sequences
  import opened Decimal
  import opened Events

  datatype QueueError =
    | Unreadable | StateOversized | PendingOverflow | QueueFull | WriteOversized | InvalidEvent | SaveFailed

  /** The constructor's limits. `sizeOf` is the byte length of the serialized state. */
  datatype Limits = Limits(maxSeen: nat, maxPending: nat, maxBytes: nat, sizeOf: Json -> nat) {
    /** `DurableQueue.__init__` clamps its arguments to at least these. */
    predicate Clamped() {
      maxSeen >= 100 && maxPending >= 1 && maxBytes >= 1
    }
  }

  /** The state path: nothing, or a file of some size that decodes to a JSON value or does not. */
  datatype Disk = Absent | File(size: nat, content: Option<Json>)

  datatype State = State(seen: seq<string>, pending: seq<HeyEvent>)

  function Ids(pending: seq<HeyEvent>): (r: seq<string>)
    ensures |r| == |pending| && forall i :: 0 <= i < |r| ==> r[i] == pending[i].eventId
  {
    if pending == [] then [] else [pending[0].eventId] + Ids(pending[1..])
  }

  predicate AllValid(pending: seq<HeyEvent>) {
    forall i :: 0 <= i < |pending| ==> pending[i].Valid()
  }

  // ---------------------------------------------------------------- loading

  predicate SeenReadable(items: seq<Json>) {
    forall i :: 0 <= i < |items| ==> items[i].Str? && IsIdentity(items[i].s)
  }

  function Strings(items: seq<Json>): (r: seq<string>)
    requires SeenReadable(items)
    ensures |r| == |items| && forall i :: 0 <= i < |r| ==> r[i] == items[i].s
  {
    if items == [] then [] else [items[0].s] + Strings(items[1..])
  }

  function ParseAll(items: seq<Json>): Result<seq<HeyEvent>, EventError> {
    if items == [] then Ok([])
    else
      var e :- ParsePersisted(items[0]);
      var rest :- ParseAll(items[1..]);
      Ok([e] + rest)
  }

  /** `_load`, its refusals in order. */
  function Load(disk: Disk, lim: Limits): Result<State, QueueError> {
    match disk
    case Absent => Ok(State([], []))
    case File(size, content) =>
      if size > lim.maxBytes then Err(StateOversized)
      else if content.None? then Err(Unreadable)
      else LoadValue(content.value, lim)
  }

  function LoadValue(j: Json, lim: Limits): Result<State, QueueError> {
    if !j.Obj? || j.fields.Keys != {SeenKey, PendingKey} then Err(Unreadable)
    else if !j.fields[SeenKey].Arr? || !j.fields[PendingKey].Arr? then Err(Unreadable)
    else LoadLists(j.fields[SeenKey].items, j.fields[PendingKey].items, lim)
  }

  function LoadLists(seen: seq<Json>, items: seq<Json>, lim: Limits): Result<State, QueueError> {
    if |items| > lim.maxPending then Err(PendingOverflow)
    else if !SeenReadable(seen) || !Distinct(Strings(seen)) then Err(Unreadable)
    else
      match ParseAll(items)
      case Err(_) => Err(Unreadable)
      case Ok(pending) =>
        if !Distinct(Ids(pending)) || !Within(Ids(pending), Strings(seen)) then Err(Unreadable)
        else Ok(State(Strings(seen), pending))
  }

  predicate Within(ids: seq<string>, seen: seq<string>) {
    forall i :: 0 <= i < |ids| ==> ids[i] in seen
  }

  // ---------------------------------------------------------------- saving

  /** Each value once, at its last position. */
  function KeepLast(values: seq<string>): seq<string> {
    if values == [] then []
    else if values[0] in values[1..] then KeepLast(values[1..])
    else [values[0]] + KeepLast(values[1..])
  }

  /** What `_trim` returns. */
  function Trimmed(values: seq<string>, cap: nat): seq<string> {
    Last(KeepLast(values), cap)
  }

  /** The seen list a save writes: a window of completed identities, then the pending ones. */
  function StoredSeen(seen: seq<string>, ids: seq<string>, maxSeen: nat): seq<string> {
    Trimmed(Without(seen, set x | x in ids), maxSeen) + Trimmed(ids, |ids|)
  }

  function EncodeSeen(seen: seq<string>): (r: seq<Json>)
    ensures |r| == |seen| && forall i :: 0 <= i < |r| ==> r[i] == Str(seen[i])
  {
    if seen == [] then [] else [Str(seen[0])] + EncodeSeen(seen[1..])
  }

  function EncodePending(pending: seq<HeyEvent>): (r: seq<Json>)
    ensures |r| == |pending|
  {
    if pending == [] then [] else [Obj(ToDict(pending[0]))] + EncodePending(pending[1..])
  }

  function Encode(s: State): Json {
    Obj(map[SeenKey := Arr(EncodeSeen(s.seen)), PendingKey := Arr(EncodePending(s.pending))])
  }

  function FileOf(s: State, lim: Limits): Disk {
    File(lim.sizeOf(Encode(s)), Some(Encode(s)))
  }

  /** `_save`: the file afterwards and whether it returned. */
  function Save(disk: Disk, seen: seq<string>, pending: seq<HeyEvent>, fault: SaveOutcome, lim: Limits)
    : (Disk, Result<(), QueueError>)
  {
    var s := State(StoredSeen(seen, Ids(pending), lim.maxSeen), pending);
    if !AllValid(pending) then (disk, Err(InvalidEvent))
    else if lim.sizeOf(Encode(s)) > lim.maxBytes then (disk, Err(WriteOversized))
    else
      match fault
      case Saved => (FileOf(s, lim), Ok(()))
      case FailedBefore => (disk, Err(SaveFailed))
      case FailedAfter => (FileOf(s, lim), Err(SaveFailed))
  }

  // ---------------------------------------------------------------- operations

  function Ingest(disk: Disk, e: HeyEvent, authorized: bool, fault: SaveOutcome, lim: Limits)
    : (Disk, Result<bool, QueueError>)
  {
    if !authorized then (disk, Ok(false))
    else
      match Load(disk, lim)
      case Err(error) => (disk, Err(error))
      case Ok(s) =>
        if e.eventId in s.seen then (disk, Ok(false))
        else if |s.pending| >= lim.maxPending then (disk, Err(QueueFull))
        else
          var (disk', r) := Save(disk, s.seen + [e.eventId], s.pending + [e], fault, lim);
          (disk', if r.Ok? then Ok(true) else Err(r.error))
  }

  /** The pending list without one identity. */
  function Remove(pending: seq<HeyEvent>, id: string): seq<HeyEvent> {
    if pending == [] then []
    else if pending[0].eventId == id then Remove(pending[1..], id)
    else [pending[0]] + Remove(pending[1..], id)
  }

  function Complete(disk: Disk, id: string, fault: SaveOutcome, lim: Limits): (Disk, Result<(), QueueError>) {
    match Load(disk, lim)
    case Err(error) => (disk, Err(error))
    case Ok(s) => Save(disk, s.seen, Remove(s.pending, id), fault, lim)
  }

  // ---------------------------------------------------------------- lists

  lemma {:induction false} KeepLastMembers(values: seq<string>)
    ensures forall x :: x in KeepLast(values) <==> x in values
    ensures Distinct(KeepLast(values))
  {
    if values != [] {
      KeepLastMembers(values[1..]);
    }
  }

  lemma {:induction false} KeepLastDistinct(values: seq<string>)
    requires Distinct(values)
    ensures KeepLast(values) == values
  {
    if values != [] {
      KeepLastDistinct(values[1..]);
    }
  }

  lemma {:induction false} RemoveMembers(pending: seq<HeyEvent>, id: string)
    ensures forall e :: e in Remove(pending, id) <==> e in pending && e.eventId != id
    ensures |Remove(pending, id)| <= |pending|
    ensures Ids(Remove(pending, id)) == Without(Ids(pending), {id})
  {
    if pending != [] {
      RemoveMembers(pending[1..], id);
    }
  }

  lemma {:induction false} RemoveAbsent(pending: seq<HeyEvent>, id: string)
    requires id !in Ids(pending)
    ensures Remove(pending, id) == pending
  {
    if pending != [] {
      assert Ids(pending)[0] == pending[0].eventId;
      RemoveAbsent(pending[1..], id);
    }
  }

  /** Removing an identity from a distinct list takes out that element and keeps the order of the rest. */
  lemma {:induction false} RemoveAt(pending: seq<HeyEvent>, i: nat)
    requires Distinct(Ids(pending)) && i < |pending|
    ensures Remove(pending, pending[i].eventId) == pending[..i] + pending[i + 1..]
  {
    var first, rest, id := pending[0], pending[1..], pending[i].eventId;
    assert Ids(pending) == [first.eventId] + Ids(rest);
    DistinctConcat([first.eventId], Ids(rest));
    if i == 0 {
      RemoveAbsent(rest, id);
    } else {
      assert Ids(pending)[0] != Ids(pending)[i];
      RemoveAt(rest, i - 1);
      ConsSplice(pending, i);
    }
  }

  lemma ConsSplice(pending: seq<HeyEvent>, i: nat)
    requires 0 < i < |pending|
    ensures [pending[0]] + (pending[1..][..i - 1] + pending[1..][i..]) == pending[..i] + pending[i + 1..]
  {
  }
}
