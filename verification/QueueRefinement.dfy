/**
 The queue file refines a simpler object: a log of completed identities in completion order,
 and a first-in first-out list of pending events.
 */
module QueueRefinement {
  import opened Wrappers
  import opened Sequences
  import opened Decimal
  import opened Events
  import opened QueueModel

  // ---------------------------------------------------------------- round trips

  lemma {:induction false} ParseEncoded(pending: seq<HeyEvent>)
    ensures AllValid(pending) ==> ParseAll(EncodePending(pending)) == Ok(pending)
    ensures !AllValid(pending) ==> ParseAll(EncodePending(pending)).Err?
  {
    if pending != [] {
      var e, rest := pending[0], pending[1..];
      ParseEncoded(rest);
      ParseEncodedItem(e);
      AllValidSplit(pending);
      ParseCons(Obj(ToDict(e)), EncodePending(rest));
      assert pending == [e] + rest;
    }
  }

  lemma AllValidSplit(pending: seq<HeyEvent>)
    requires pending != []
    ensures AllValid(pending) <==> pending[0].Valid() && AllValid(pending[1..])
  {
    var rest := pending[1..];
    assert forall i :: 0 <= i < |rest| ==> rest[i] == pending[i + 1];
  }

  lemma ParseCons(item: Json, items: seq<Json>)
    ensures ParsePersisted(item).Ok? && ParseAll(items).Ok? ==>
              ParseAll([item] + items) == Ok([ParsePersisted(item).value] + ParseAll(items).value)
    ensures ParsePersisted(item).Err? || ParseAll(items).Err? ==> ParseAll([item] + items).Err?
  {
    assert ([item] + items)[1..] == items;
  }

  lemma ParseEncodedItem(e: HeyEvent)
    ensures if e.Valid() then ParsePersisted(Obj(ToDict(e))) == Ok(e) else ParsePersisted(Obj(ToDict(e))).Err?
  {
    var item := Obj(ToDict(e));
    PersistedExact(item, e);
    if !e.Valid() && ParsePersisted(item).Ok? {
      var e' := ParsePersisted(item).value;
      PersistedExact(item, e');
      assert KindKey in EVENT_KEYS && KindKey in ToDict(e);
      ToDictInjective(e, e');
    }
  }

  predicate AllIdentities(seen: seq<string>) {
    forall i :: 0 <= i < |seen| ==> IsIdentity(seen[i])
  }

  lemma StringsOfEncoded(seen: seq<string>)
    ensures SeenReadable(EncodeSeen(seen)) <==> AllIdentities(seen)
    ensures SeenReadable(EncodeSeen(seen)) ==> Strings(EncodeSeen(seen)) == seen
  {
  }

  /** What makes a written state loadable again. */
  predicate Loadable(s: State, lim: Limits) {
    && AllIdentities(s.seen) && Distinct(s.seen)
    && AllValid(s.pending) && Distinct(Ids(s.pending)) && |s.pending| <= lim.maxPending
    && Within(Ids(s.pending), s.seen)
  }

  /** A written state is read back exactly, if it meets the reader's conditions; otherwise it is refused. */
  lemma LoadOfFile(s: State, lim: Limits)
    requires lim.sizeOf(Encode(s)) <= lim.maxBytes
    ensures Load(FileOf(s, lim), lim).Ok? <==> Loadable(s, lim)
    ensures Loadable(s, lim) ==> Load(FileOf(s, lim), lim) == Ok(s)
  {
    ParseEncoded(s.pending);
    StringsOfEncoded(s.seen);
    var seen, items := EncodeSeen(s.seen), EncodePending(s.pending);
    assert Load(FileOf(s, lim), lim) == LoadLists(seen, items, lim);
  }

  lemma StoredShape(seen: seq<string>, ids: seq<string>, cap: nat)
    requires Distinct(ids)
    ensures var window := Trimmed(Without(seen, set x | x in ids), cap);
            && StoredSeen(seen, ids, cap) == window + ids
            && Distinct(window + ids)
            && forall x :: x in window ==> x in seen && x !in ids
  {
    var drop := set x | x in ids;
    var rest := Without(seen, drop);
    var window := Trimmed(rest, cap);
    KeepLastDistinct(ids);
    KeepLastMembers(rest);
    WithoutMembers(seen, drop);
    forall x | x in window ensures x in seen && x !in ids {
      assert x in KeepLast(rest);
    }
    DistinctConcat(window, ids);
  }

  lemma PendingIdentities(pending: seq<HeyEvent>)
    requires AllValid(pending)
    ensures AllIdentities(Ids(pending))
  {
    forall i | 0 <= i < |pending| ensures IsIdentity(Ids(pending)[i]) {
      EventIdIsIdentity(pending[i].threadId, pending[i].entryId);
    }
  }

  /**
   Save, then load: whatever is saved from readable identities and valid events within the limits is
   read back as the very pair that was written, exactly when the pending identities are distinct.
   */
  lemma SaveLoad(disk: Disk, seen: seq<string>, pending: seq<HeyEvent>, lim: Limits)
    requires AllIdentities(seen)
    requires |pending| <= lim.maxPending
    requires Save(disk, seen, pending, Saved, lim).1.Ok?
    ensures var after := Load(Save(disk, seen, pending, Saved, lim).0, lim);
            && (after.Ok? <==> Distinct(Ids(pending)))
            && (after.Ok? ==> after.value == State(StoredSeen(seen, Ids(pending), lim.maxSeen), pending))
  {
    var stored := StoredSeen(seen, Ids(pending), lim.maxSeen);
    assert Save(disk, seen, pending, Saved, lim).0 == FileOf(State(stored, pending), lim);
    LoadOfFile(State(stored, pending), lim);
    if Distinct(Ids(pending)) {
      StoredLoadable(seen, pending, lim);
    }
  }

  lemma StoredLoadable(seen: seq<string>, pending: seq<HeyEvent>, lim: Limits)
    requires AllIdentities(seen) && AllValid(pending) && Distinct(Ids(pending)) && |pending| <= lim.maxPending
    ensures Loadable(State(StoredSeen(seen, Ids(pending), lim.maxSeen), pending), lim)
  {
    var ids := Ids(pending);
    var window := Trimmed(Without(seen, set x | x in ids), lim.maxSeen);
    StoredShape(seen, ids, lim.maxSeen);
    PendingIdentities(pending);
    IdentitiesConcat(seen, window, ids);
    WithinSuffix(window, ids);
  }

  lemma IdentitiesConcat(known: seq<string>, a: seq<string>, b: seq<string>)
    requires AllIdentities(known) && AllIdentities(b) && forall x :: x in a ==> x in known
    ensures AllIdentities(a + b)
  {
    forall i | 0 <= i < |a| ensures IsIdentity(a[i]) {
      assert a[i] in known;
    }
  }

  lemma WithinSuffix(a: seq<string>, ids: seq<string>)
    ensures Within(ids, a + ids)
  {
    forall i | 0 <= i < |ids| ensures ids[i] in a + ids {
      assert (a + ids)[|a| + i] == ids[i];
    }
  }

  /** What loading accepts is loadable: the reader and the writer agree on the well-formed states. */
  lemma LoadedIsLoadable(disk: Disk, lim: Limits)
    requires Load(disk, lim).Ok?
    ensures Loadable(Load(disk, lim).value, lim)
  {
    if disk.File? {
      var v := disk.content.value.fields;
      var seen, items := v[SeenKey].items, v[PendingKey].items;
      ParseAllValid(items);
      assert Load(disk, lim) == LoadLists(seen, items, lim);
    }
  }

  /** The item is the current form of the event, or the kindless form of a message. */
  predicate StoredAs(item: Json, e: HeyEvent) {
    item == Obj(ToDict(e)) || (e.kind == Message && item == Obj(ToDict(e) - {KindKey}))
  }

  /** A file's content is this state: the seen identities as strings, and each pending event in a stored form. */
  ghost predicate Contains(content: Json, s: State) {
    exists items: seq<Json> ::
      && content == Obj(map[SeenKey := Arr(EncodeSeen(s.seen)), PendingKey := Arr(items)])
      && |items| == |s.pending| && forall i :: 0 <= i < |items| ==> StoredAs(items[i], s.pending[i])
  }

  /**
   Which files load, and as what: no file at all as the empty state, and a file of at most `maxBytes` bytes
   as the loadable state it contains, with no other content accepted.
   */
  lemma LoadExact(disk: Disk, lim: Limits, s: State)
    ensures Load(disk, lim) == Ok(s) <==>
              match disk
              case Absent => s == State([], [])
              case File(size, content) =>
                size <= lim.maxBytes && content.Some? && Contains(content.value, s) && Loadable(s, lim)
  {
    if disk.File? && disk.content.Some? {
      if Load(disk, lim) == Ok(s) {
        LoadedIsLoadable(disk, lim);
        LoadedContains(disk.content.value, lim, s);
      }
      if Contains(disk.content.value, s) && Loadable(s, lim) {
        ContainedLoads(disk.content.value, lim, s);
      }
    }
  }

  lemma LoadedContains(content: Json, lim: Limits, s: State)
    requires LoadValue(content, lim) == Ok(s)
    ensures Contains(content, s)
  {
    var seen, items := content.fields[SeenKey].items, content.fields[PendingKey].items;
    assert EncodeSeen(Strings(seen)) == seen;
    ParsedForms(items);
    assert content.fields == map[SeenKey := Arr(seen), PendingKey := Arr(items)];
  }

  lemma ContainedLoads(content: Json, lim: Limits, s: State)
    requires Contains(content, s) && Loadable(s, lim)
    ensures LoadValue(content, lim) == Ok(s)
  {
    var items: seq<Json> :|
      && content == Obj(map[SeenKey := Arr(EncodeSeen(s.seen)), PendingKey := Arr(items)])
      && |items| == |s.pending| && forall i :: 0 <= i < |items| ==> StoredAs(items[i], s.pending[i]);
    ListsLoad(items, lim, s);
    assert content.fields.Keys == {SeenKey, PendingKey};
  }

  lemma ListsLoad(items: seq<Json>, lim: Limits, s: State)
    requires Loadable(s, lim) && |items| == |s.pending|
    requires forall i :: 0 <= i < |items| ==> StoredAs(items[i], s.pending[i])
    ensures LoadLists(EncodeSeen(s.seen), items, lim) == Ok(s)
  {
    StringsOfEncoded(s.seen);
    FormsParse(items, s.pending);
  }

  lemma {:induction false} ParsedForms(items: seq<Json>)
    requires ParseAll(items).Ok?
    ensures var pending := ParseAll(items).value;
            |pending| == |items| && forall i :: 0 <= i < |items| ==> StoredAs(items[i], pending[i])
  {
    if items != [] {
      ParsedForms(items[1..]);
      PersistedExact(items[0], ParsePersisted(items[0]).value);
    }
  }

  lemma {:induction false} FormsParse(items: seq<Json>, pending: seq<HeyEvent>)
    requires |items| == |pending| && AllValid(pending)
    requires forall i :: 0 <= i < |items| ==> StoredAs(items[i], pending[i])
    ensures ParseAll(items) == Ok(pending)
  {
    if items != [] {
      AllValidSplit(pending);
      FormsParse(items[1..], pending[1..]);
      PersistedExact(items[0], pending[0]);
      assert pending == [pending[0]] + pending[1..];
    }
  }

  lemma {:induction false} ParseAllValid(items: seq<Json>)
    requires ParseAll(items).Ok?
    ensures AllValid(ParseAll(items).value) && |ParseAll(items).value| == |items|
  {
    if items != [] {
      ParseAllValid(items[1..]);
      PersistedExact(items[0], ParsePersisted(items[0]).value);
    }
  }

  /** What saving does to a canonical list: a window of completed identities followed by `ids`. */
  lemma StoredCanonical(window: seq<string>, ids: seq<string>, cap: nat)
    requires Distinct(window + ids)
    ensures StoredSeen(window + ids, ids, cap) == Last(window, cap) + ids
  {
    var drop := set x | x in ids;
    DistinctConcat(window, ids);
    WithoutConcat(window, ids, drop);
    WithoutNone(window, drop);
    WithoutAll(ids, drop);
    KeepLastDistinct(window);
    KeepLastDistinct(ids);
    assert window + [] == window;
  }

  /** Saving what was loaded, twice, writes the same file as saving it once. */
  lemma ResaveFixedPoint(disk: Disk, lim: Limits)
    requires lim.Clamped() && Load(disk, lim).Ok?
    ensures var s := Load(disk, lim).value;
            var once := StoredSeen(s.seen, Ids(s.pending), lim.maxSeen);
            StoredSeen(once, Ids(s.pending), lim.maxSeen) == once
  {
    LoadedIsLoadable(disk, lim);
    var s := Load(disk, lim).value;
    var ids := Ids(s.pending);
    var window := Trimmed(Without(s.seen, set x | x in ids), lim.maxSeen);
    StoredShape(s.seen, ids, lim.maxSeen);
    StoredCanonical(window, ids, lim.maxSeen);
  }

  /** An item stored before kinds existed loads as the message it was. */
  lemma LegacyLoadsAsMessage(seen: seq<Json>, before: seq<Json>, e: HeyEvent, after: seq<Json>, lim: Limits)
    requires e.kind == Message && e.Valid()
    ensures var legacy := before + [Obj(ToDict(e) - {KindKey})] + after;
            var current := before + [Obj(ToDict(e))] + after;
            LoadLists(seen, legacy, lim) == LoadLists(seen, current, lim)
  {
    PersistedExact(Obj(ToDict(e) - {KindKey}), e);
    PersistedExact(Obj(ToDict(e)), e);
    ParseReplaced(before, Obj(ToDict(e) - {KindKey}), Obj(ToDict(e)), after);
  }

  /** Items that read alike are interchangeable in a list. */
  lemma {:induction false} ParseReplaced(before: seq<Json>, a: Json, b: Json, after: seq<Json>)
    requires ParsePersisted(a) == ParsePersisted(b)
    ensures ParseAll(before + [a] + after) == ParseAll(before + [b] + after)
  {
    var first, second := before + [a] + after, before + [b] + after;
    if before == [] {
      assert first[1..] == after == second[1..];
    } else {
      ParseReplaced(before[1..], a, b, after);
      assert first[1..] == before[1..] + [a] + after;
      assert second[1..] == before[1..] + [b] + after;
    }
  }

  // ---------------------------------------------------------------- the log

  datatype Log = Log(completed: seq<string>, pending: seq<HeyEvent>)

  /** The completed identities still remembered. */
  function Window(l: Log, lim: Limits): seq<string> {
    Last(l.completed, lim.maxSeen)
  }

  /** The state a log stands for: the window on the completed identities, then the pending ones. */
  function View(l: Log, lim: Limits): State {
    State(Window(l, lim) + Ids(l.pending), l.pending)
  }

  ghost predicate LogOk(l: Log, lim: Limits) {
    && AllIdentities(Window(l, lim)) && Distinct(Window(l, lim) + Ids(l.pending))
    && AllValid(l.pending) && |l.pending| <= lim.maxPending
  }

  lemma LogLoadable(l: Log, lim: Limits)
    requires LogOk(l, lim)
    ensures Loadable(View(l, lim), lim)
  {
    var window, ids := Window(l, lim), Ids(l.pending);
    DistinctConcat(window, ids);
    PendingIdentities(l.pending);
    var seen := window + ids;
    assert forall i :: 0 <= i < |seen| ==> IsIdentity(seen[i]);
    forall i | 0 <= i < |ids| ensures ids[i] in seen {
      assert seen[|window| + i] == ids[i];
    }
  }

  /** A disk stands for a log when loading it gives the log's view. */
  ghost predicate Represents(disk: Disk, l: Log, lim: Limits) {
    LogOk(l, lim) && Load(disk, lim) == Ok(View(l, lim))
  }

  datatype Op = IngestOp(e: HeyEvent, authorized: bool) | CompleteOp(id: string)

  datatype Answer = Accepted | Refused | Completed | Failed(error: QueueError)

  function DiskStep(disk: Disk, op: Op, fault: SaveOutcome, lim: Limits): (Disk, Answer) {
    match op
    case IngestOp(e, authorized) =>
      var (disk', r) := Ingest(disk, e, authorized, fault, lim);
      (disk', if r.Err? then Failed(r.error) else if r.value then Accepted else Refused)
    case CompleteOp(id) =>
      var (disk', r) := Complete(disk, id, fault, lim);
      (disk', if r.Err? then Failed(r.error) else Completed)
  }

  /** The effect an operation has on the log when it is let through. */
  function Effect(l: Log, op: Op): Log {
    match op
    case IngestOp(e, _) => Log(l.completed, l.pending + [e])
    case CompleteOp(id) =>
      if id in Ids(l.pending) then Log(l.completed + [id], Remove(l.pending, id)) else l
  }

  function LogStep(l: Log, op: Op, fault: SaveOutcome, lim: Limits): (Log, Answer) {
    if op.IngestOp? && (!op.authorized || op.e.eventId in View(l, lim).seen) then (l, Refused)
    else if op.IngestOp? && |l.pending| >= lim.maxPending then (l, Failed(QueueFull))
    else
      var l' := Effect(l, op);
      if lim.sizeOf(Encode(View(l', lim))) > lim.maxBytes then (l, Failed(WriteOversized))
      else
        match fault
        case Saved => (l', if op.IngestOp? then Accepted else Completed)
        case FailedBefore => (l, Failed(SaveFailed))
        case FailedAfter => (l', Failed(SaveFailed))
  }

  lemma IngestStored(l: Log, e: HeyEvent, lim: Limits)
    requires LogOk(l, lim) && e.Valid() && e.eventId !in View(l, lim).seen
    requires |l.pending| < lim.maxPending
    ensures var l' := Effect(l, IngestOp(e, true));
            && StoredSeen(View(l, lim).seen + [e.eventId], Ids(l'.pending), lim.maxSeen) == View(l', lim).seen
            && LogOk(l', lim)
  {
    var window, ids, id := Window(l, lim), Ids(l.pending), e.eventId;
    IdsAppend(l.pending, e);
    Regroup(window, ids, [id]);
    DistinctConcat(window + ids, [id]);
    StoredCanonical(window, ids + [id], lim.maxSeen);
    assert Last(window, lim.maxSeen) == window;
  }

  lemma IdsAppend(pending: seq<HeyEvent>, e: HeyEvent)
    ensures Ids(pending + [e]) == Ids(pending) + [e.eventId]
    ensures AllValid(pending) && e.Valid() ==> AllValid(pending + [e])
  {
  }

  lemma Regroup(a: seq<string>, b: seq<string>, c: seq<string>)
    ensures a + b + c == a + (b + c)
  {
  }

  lemma CompletePendingSeen(window: seq<string>, ids: seq<string>, id: string, cap: nat)
    requires Distinct(window + ids) && id in ids
    ensures var ids' := Without(ids, {id});
            && StoredSeen(window + ids, ids', cap) == Last(window + [id], cap) + ids'
            && Distinct(Last(window + [id], cap) + ids')
  {
    var ids' := Without(ids, {id});
    var drop := set x | x in ids';
    DistinctConcat(window, ids);
    WithoutOne(ids, id);
    WithoutMembers(ids, {id});
    WithoutConcat(window, ids, drop);
    WithoutNone(window, drop);
    OneLeft(ids, id, drop);
    KeepLastDistinct(ids');
    DistinctConcat(window, [id]);
    KeepLastDistinct(window + [id]);
    LastDisjoint(window + [id], ids', cap);
  }

  lemma LastDisjoint(a: seq<string>, b: seq<string>, cap: nat)
    requires Distinct(a) && Distinct(b) && forall x :: x in a ==> x !in b
    ensures Distinct(Last(a, cap) + b)
  {
    assert forall x :: x in Last(a, cap) ==> x in a;
    DistinctConcat(Last(a, cap), b);
  }

  lemma OneLeft(ids: seq<string>, id: string, drop: set<string>)
    requires Distinct(ids) && id in ids && forall x :: x in drop <==> x in ids && x != id
    ensures Without(ids, drop) == [id]
  {
    var i :| 0 <= i < |ids| && ids[i] == id;
    assert ids == ids[..i] + ([id] + ids[i + 1..]);
    OneLeftOf(ids[..i], id, ids[i + 1..], drop);
  }

  lemma OneLeftOf(a: seq<string>, id: string, b: seq<string>, drop: set<string>)
    requires Distinct(a + ([id] + b))
    requires forall x :: x in drop <==> x in a + ([id] + b) && x != id
    ensures Without(a + ([id] + b), drop) == [id]
  {
    DistinctConcat(a, [id] + b);
    DistinctConcat([id], b);
    assert id in [id] + b && id in [id];
    WithoutConcat(a, [id] + b, drop);
    WithoutConcat([id], b, drop);
    WithoutAll(a, drop);
    WithoutAll(b, drop);
    WithoutNone([id], drop);
  }

  lemma CompleteStored(l: Log, id: string, lim: Limits)
    requires lim.Clamped() && LogOk(l, lim)
    ensures var l' := Effect(l, CompleteOp(id));
            && Remove(l.pending, id) == l'.pending
            && StoredSeen(View(l, lim).seen, Ids(l'.pending), lim.maxSeen) == View(l', lim).seen
            && LogOk(l', lim)
  {
    if id in Ids(l.pending) {
      CompletePendingSeen(Window(l, lim), Ids(l.pending), id, lim.maxSeen);
      LastAppend(l.completed, id, lim.maxSeen);
      RemoveMembers(l.pending, id);
      CompleteOk(l, id, lim);
    } else {
      RemoveAbsent(l.pending, id);
      StoredCanonical(Window(l, lim), Ids(l.pending), lim.maxSeen);
      assert Last(Window(l, lim), lim.maxSeen) == Window(l, lim);
    }
  }

  lemma CompleteOk(l: Log, id: string, lim: Limits)
    requires lim.Clamped() && LogOk(l, lim) && id in Ids(l.pending)
    ensures AllIdentities(Last(l.completed + [id], lim.maxSeen))
    ensures AllValid(Remove(l.pending, id))
  {
    RemoveValid(l.pending, id);
    PendingIdentities(l.pending);
    assert AllIdentities([id]);
    LastAppend(l.completed, id, lim.maxSeen);
    var window := Window(l, lim);
    IdentitiesConcat(window, window, [id]);
    IdentitiesConcat(window + [id], Last(window + [id], lim.maxSeen), []);
    assert Last(window + [id], lim.maxSeen) + [] == Last(window + [id], lim.maxSeen);
  }

  lemma RemoveValid(pending: seq<HeyEvent>, id: string)
    requires AllValid(pending)
    ensures AllValid(Remove(pending, id))
  {
    RemoveMembers(pending, id);
    var rest := Remove(pending, id);
    assert forall i :: 0 <= i < |rest| ==> rest[i] in pending;
  }

  /** One operation on the file is one operation on the log, with the same answer. */
  lemma StepRefines(disk: Disk, l: Log, op: Op, fault: SaveOutcome, lim: Limits)
    requires lim.Clamped() && Represents(disk, l, lim)
    requires op.IngestOp? ==> op.e.Valid()
    ensures var (disk', a) := DiskStep(disk, op, fault, lim);
            var (l', a') := LogStep(l, op, fault, lim);
            Represents(disk', l', lim) && a == a'
  {
    if op.CompleteOp? {
      CompleteRefines(disk, l, op.id, fault, lim);
    } else {
      IngestRefines(disk, l, op.e, op.authorized, fault, lim);
    }
  }

  lemma CompleteRefines(disk: Disk, l: Log, id: string, fault: SaveOutcome, lim: Limits)
    requires lim.Clamped() && Represents(disk, l, lim)
    ensures var (disk', a) := DiskStep(disk, CompleteOp(id), fault, lim);
            var (l', a') := LogStep(l, CompleteOp(id), fault, lim);
            Represents(disk', l', lim) && a == a'
  {
    var l' := Effect(l, CompleteOp(id));
    CompleteStored(l, id, lim);
    assert Complete(disk, id, fault, lim) == Save(disk, View(l, lim).seen, l'.pending, fault, lim);
    SaveRefines(disk, l', View(l, lim).seen, fault, lim);
  }

  lemma IngestRefines(disk: Disk, l: Log, e: HeyEvent, authorized: bool, fault: SaveOutcome, lim: Limits)
    requires lim.Clamped() && Represents(disk, l, lim) && e.Valid()
    ensures var (disk', a) := DiskStep(disk, IngestOp(e, authorized), fault, lim);
            var (l', a') := LogStep(l, IngestOp(e, authorized), fault, lim);
            Represents(disk', l', lim) && a == a'
  {
    var v := View(l, lim);
    if authorized && e.eventId !in v.seen && |l.pending| < lim.maxPending {
      AcceptRefines(disk, l, e, fault, lim);
    } else {
      assert Ingest(disk, e, authorized, fault, lim).0 == disk;
    }
  }

  lemma AcceptRefines(disk: Disk, l: Log, e: HeyEvent, fault: SaveOutcome, lim: Limits)
    requires lim.Clamped() && Represents(disk, l, lim) && e.Valid()
    requires e.eventId !in View(l, lim).seen && |l.pending| < lim.maxPending
    ensures var (disk', a) := DiskStep(disk, IngestOp(e, true), fault, lim);
            var (l', a') := LogStep(l, IngestOp(e, true), fault, lim);
            Represents(disk', l', lim) && a == a'
  {
    var seen := View(l, lim).seen + [e.eventId];
    var l' := Effect(l, IngestOp(e, true));
    IngestStored(l, e, lim);
    SaveRefines(disk, l', seen, fault, lim);
    IngestSaves(disk, l, e, fault, lim);
  }

  lemma IngestSaves(disk: Disk, l: Log, e: HeyEvent, fault: SaveOutcome, lim: Limits)
    requires Load(disk, lim) == Ok(View(l, lim)) && e.eventId !in View(l, lim).seen && |l.pending| < lim.maxPending
    ensures var saved := Save(disk, View(l, lim).seen + [e.eventId], l.pending + [e], fault, lim);
            DiskStep(disk, IngestOp(e, true), fault, lim) ==
              (saved.0, if saved.1.Ok? then Accepted else Failed(saved.1.error))
  {
  }

  lemma SaveRefines(disk: Disk, l': Log, seen: seq<string>, fault: SaveOutcome, lim: Limits)
    requires LogOk(l', lim)
    requires StoredSeen(seen, Ids(l'.pending), lim.maxSeen) == View(l', lim).seen
    ensures var (disk', r) := Save(disk, seen, l'.pending, fault, lim);
            if lim.sizeOf(Encode(View(l', lim))) > lim.maxBytes then (disk', r) == (disk, Err(WriteOversized))
            else if fault == FailedBefore then (disk', r) == (disk, Err(SaveFailed))
            else Represents(disk', l', lim) && r == if fault == Saved then Ok(()) else Err(SaveFailed)
  {
    if lim.sizeOf(Encode(View(l', lim))) <= lim.maxBytes {
      LogLoadable(l', lim);
      LoadOfFile(View(l', lim), lim);
    }
  }

  // ---------------------------------------------------------------- runs

  datatype Turn = Turn(op: Op, fault: SaveOutcome)

  ghost predicate ValidTurns(turns: seq<Turn>) {
    forall i :: 0 <= i < |turns| ==> turns[i].op.IngestOp? ==> turns[i].op.e.Valid()
  }

  function DiskRun(disk: Disk, turns: seq<Turn>, lim: Limits): Disk {
    if turns == [] then disk
    else DiskStep(DiskRun(disk, turns[..|turns| - 1], lim), turns[|turns| - 1].op, turns[|turns| - 1].fault, lim).0
  }

  function LogRun(l: Log, turns: seq<Turn>, lim: Limits): Log {
    if turns == [] then l
    else LogStep(LogRun(l, turns[..|turns| - 1], lim), turns[|turns| - 1].op, turns[|turns| - 1].fault, lim).0
  }

  /**
   From a file that stands for some log, after any run of operations and any save faults: the file holds the
   last `maxSeen` completed identities in completion order followed by the pending identities in ingestion
   order, without duplicates, and the pending events themselves.
   */
  lemma RunRefines(disk: Disk, l: Log, turns: seq<Turn>, lim: Limits)
    requires lim.Clamped() && Represents(disk, l, lim) && ValidTurns(turns)
    ensures var l' := LogRun(l, turns, lim);
            && Load(DiskRun(disk, turns, lim), lim) ==
               Ok(State(Last(l'.completed, lim.maxSeen) + Ids(l'.pending), l'.pending))
            && Distinct(Last(l'.completed, lim.maxSeen) + Ids(l'.pending))
  {
    RunRepresents(disk, l, turns, lim);
  }

  /** The log of what a save writes from these lists. */
  function SavedLog(seen: seq<string>, pending: seq<HeyEvent>, lim: Limits): Log {
    Log(Trimmed(Without(seen, set x | x in Ids(pending)), lim.maxSeen), pending)
  }

  lemma SavedLogView(seen: seq<string>, pending: seq<HeyEvent>, lim: Limits)
    requires lim.Clamped() && AllIdentities(seen) && AllValid(pending) && |pending| <= lim.maxPending
    requires Distinct(Ids(pending))
    ensures LogOk(SavedLog(seen, pending, lim), lim)
    ensures View(SavedLog(seen, pending, lim), lim) == State(StoredSeen(seen, Ids(pending), lim.maxSeen), pending)
  {
    var l := SavedLog(seen, pending, lim);
    StoredShape(seen, Ids(pending), lim.maxSeen);
    assert Window(l, lim) == l.completed;
    SomeIdentities(seen, l.completed);
  }

  lemma SomeIdentities(known: seq<string>, some: seq<string>)
    requires AllIdentities(known) && forall x :: x in some ==> x in known
    ensures AllIdentities(some)
  {
    forall i | 0 <= i < |some| ensures IsIdentity(some[i]) {
      assert some[i] in known;
    }
  }

  lemma SavedValid(disk: Disk, seen: seq<string>, pending: seq<HeyEvent>, lim: Limits)
    requires Save(disk, seen, pending, Saved, lim).1.Ok?
    ensures AllValid(pending)
  {
  }

  lemma AbsentRepresents(lim: Limits)
    ensures Represents(Absent, Log([], []), lim)
  {
    assert LogOk(Log([], []), lim) && View(Log([], []), lim) == State([], []);
  }

  /** Where such runs may start: any file that a save has written stands for the log of what it holds. */
  lemma SavedRepresents(disk: Disk, seen: seq<string>, pending: seq<HeyEvent>, lim: Limits, disk': Disk)
    requires lim.Clamped() && AllIdentities(seen) && |pending| <= lim.maxPending && Distinct(Ids(pending))
    requires Save(disk, seen, pending, Saved, lim).1.Ok? && disk' == Save(disk, seen, pending, Saved, lim).0
    ensures Represents(disk', SavedLog(seen, pending, lim), lim)
  {
    SaveLoad(disk, seen, pending, lim);
    SavedValid(disk, seen, pending, lim);
    SavedLogView(seen, pending, lim);
  }

  lemma {:induction false} RunRepresents(disk: Disk, l: Log, turns: seq<Turn>, lim: Limits)
    requires lim.Clamped() && Represents(disk, l, lim) && ValidTurns(turns)
    ensures Represents(DiskRun(disk, turns, lim), LogRun(l, turns, lim), lim)
  {
    if turns != [] {
      var init, last := turns[..|turns| - 1], turns[|turns| - 1];
      RunRepresents(disk, l, init, lim);
      StepRefines(DiskRun(disk, init, lim), LogRun(l, init, lim), last.op, last.fault, lim);
    }
  }

  lemma StepGrows(l: Log, op: Op, fault: SaveOutcome, lim: Limits)
    ensures l.completed <= LogStep(l, op, fault, lim).0.completed
  {
  }

  lemma PrefixTransitive(a: seq<string>, b: seq<string>, c: seq<string>)
    requires a <= b && b <= c
    ensures a <= c
  {
    assert forall i :: 0 <= i < |a| ==> a[i] == b[i] == c[i];
  }

  /** The completion log only grows, over any continuation of a run. */
  lemma {:induction false} CompletedGrows(l: Log, turns: seq<Turn>, k: nat, lim: Limits)
    requires k <= |turns|
    ensures LogRun(l, turns[..k], lim).completed <= LogRun(l, turns, lim).completed
  {
    if k == |turns| {
      assert turns[..k] == turns;
    } else {
      var init := turns[..|turns| - 1];
      CompletedGrows(l, init, k, lim);
      assert init[..k] == turns[..k];
      var last := turns[|turns| - 1];
      StepGrows(LogRun(l, init, lim), last.op, last.fault, lim);
      PrefixTransitive(LogRun(l, turns[..k], lim).completed, LogRun(l, init, lim).completed,
        LogRun(l, turns, lim).completed);
    }
  }

  /**
   The deduplication window: an identity completed at some point of a run is accepted again later
   only if at least `maxSeen` other completions came in between.
   */
  lemma ReacceptedAfterEviction(l: Log, turns: seq<Turn>, k: nat, n: nat, lim: Limits)
    requires lim.Clamped() && k < n < |turns|
    requires turns[k].op.CompleteOp? && turns[n].op.IngestOp? && turns[k].op.id == turns[n].op.e.eventId
    requires turns[k].op.id in Ids(LogRun(l, turns[..k], lim).pending)
    requires LogStep(LogRun(l, turns[..k], lim), turns[k].op, turns[k].fault, lim).1 == Completed
    requires LogStep(LogRun(l, turns[..n], lim), turns[n].op, turns[n].fault, lim).1 == Accepted
    ensures |LogRun(l, turns[..n], lim).completed| >= |LogRun(l, turns[..k + 1], lim).completed| + lim.maxSeen
  {
    var id := turns[k].op.id;
    assert turns[..k + 1][..k] == turns[..k] && turns[..n][..k + 1] == turns[..k + 1];
    var early, now := LogRun(l, turns[..k + 1], lim), LogRun(l, turns[..n], lim);
    CompletedGrows(l, turns[..n], k + 1, lim);
    var i := |early.completed| - 1;
    assert early.completed[i] == id;
    if |now.completed| - i <= lim.maxSeen {
      StillRemembered(now, i, lim);
    }
  }

  lemma StillRemembered(l: Log, i: nat, lim: Limits)
    requires i < |l.completed| && |l.completed| - i <= lim.maxSeen
    ensures l.completed[i] in View(l, lim).seen
  {
    var window := Window(l, lim);
    var j := i - (|l.completed| - |window|);
    assert window[j] == l.completed[i] && View(l, lim).seen[j] == window[j];
  }
}
