/** The watch engine: initialization, and the poll loop that emits, waits for the ack and advances cursors. */
module WatchEngines {
  import opened Wrappers
  import opened Sequences
  import opened Events
  import opened Hydration
  import opened PollPlan

  /** The cursor file: absent, not readable as cursors, or a cursor for each box. */
  datatype CursorFile = NoFile | Garbled | Stored(cursors: Cursors)

  /** One line of acknowledgement input, already split and decoded. */
  datatype AckLine = Ack(id: string) | Malformed

  /** What the environment does to one poll: each write, each wait, each save. */
  datatype Io = Io(emitOk: nat -> bool, cancelled: nat -> bool, interrupted: nat -> bool, save: nat -> SaveOutcome)

  datatype PollEnd = Done | GatherFailed(error: WatchError) | EmitFailed | AckFailed | SaveFailed

  predicate CursorsOk(cursors: Cursors) {
    forall b :: b in cursors ==> b > 0 && cursors[b].since != ""
  }

  /** `loadCursorState`: the cursors, nothing yet, or a refusal. */
  function LoadCursors(file: CursorFile): Result<Option<Cursors>, WatchError> {
    match file
    case NoFile => Ok(None)
    case Garbled => Err(BadCursorState)
    case Stored(cursors) => if CursorsOk(cursors) then Ok(Some(cursors)) else Err(BadCursorState)
  }

  /** The file is no cursor state, or one with a box number that is not positive, or with an empty cursor. */
  ghost predicate Unusable(file: CursorFile) {
    file.Garbled? || (file.Stored? && exists b :: b in file.cursors && (b <= 0 || file.cursors[b].since == ""))
  }

  /** The baseline a first start records: each unknown box at the cursor its listing names. */
  function Baseline(api: Api, boxes: seq<Box>, cursors: Cursors): Result<Cursors, WatchError> {
    if boxes == [] then Ok(cursors)
    else
      var box := boxes[0];
      if box.id <= 0 || box.changesUrl == "" then Err(BadBoxCursor)
      else if box.id in cursors then Baseline(api, boxes[1..], cursors)
      else
        var cursor := api.cursorOf(box.changesUrl);
        if cursor.None? || cursor.value.since == "" then Err(BadBoxCursor)
        else Baseline(api, boxes[1..], cursors[box.id := cursor.value])
  }

  /** A baseline never moves a known cursor, and is loadable again. */
  lemma {:induction false} BaselineKeeps(api: Api, boxes: seq<Box>, cursors: Cursors)
    requires Baseline(api, boxes, cursors).Ok?
    ensures forall b :: b in cursors ==>
              b in Baseline(api, boxes, cursors).value && Baseline(api, boxes, cursors).value[b] == cursors[b]
    ensures forall box :: box in boxes ==> box.id in Baseline(api, boxes, cursors).value
    ensures CursorsOk(cursors) ==> CursorsOk(Baseline(api, boxes, cursors).value)
  {
    if boxes != [] {
      var box := boxes[0];
      var next := if box.id in cursors then cursors else cursors[box.id := api.cursorOf(box.changesUrl).value];
      BaselineKeeps(api, boxes[1..], next);
    }
  }

  /**
   Of boxes listed once each: a baseline is made exactly when every box has a number and an address, and every
   unknown one an address that names a cursor; it covers the known boxes and the listed ones, and an unknown
   box stands at the cursor its own listing names.
   */
  lemma BaselineExact(api: Api, boxes: seq<Box>, cursors: Cursors)
    requires DistinctBoxes(boxes)
    ensures Baseline(api, boxes, cursors).Ok? <==> forall box :: box in boxes ==> Recordable(api, cursors, box)
    ensures Baseline(api, boxes, cursors).Ok? ==>
              var based := Baseline(api, boxes, cursors).value;
              && (forall b :: b in based <==> b in cursors || ListsBox(boxes, b))
              && (forall b :: b in cursors ==> based[b] == cursors[b])
              && (forall box :: box in boxes && box.id !in cursors ==>
                    api.cursorOf(box.changesUrl) == Some(based[box.id]))
  {
    BaselineMade(api, boxes, cursors);
    if Baseline(api, boxes, cursors).Ok? {
      BaselineKeeps(api, boxes, cursors);
      BaselineHolds(api, boxes, cursors);
    }
  }

  ghost predicate ListsBox(boxes: seq<Box>, b: int) {
    exists box :: box in boxes && box.id == b
  }

  lemma LaterBoxes(boxes: seq<Box>)
    requires DistinctBoxes(boxes) && boxes != []
    ensures DistinctBoxes(boxes[1..]) && forall x :: x in boxes[1..] ==> x.id != boxes[0].id
    ensures forall x :: x in boxes <==> x == boxes[0] || x in boxes[1..]
    ensures forall b :: ListsBox(boxes, b) <==> b == boxes[0].id || ListsBox(boxes[1..], b)
  {
    var rest := boxes[1..];
    forall x | x in rest ensures x.id != boxes[0].id {
      var i :| 0 <= i < |rest| && rest[i] == x;
      assert boxes[i + 1] == x;
    }
    assert boxes == [boxes[0]] + rest;
  }

  lemma {:induction false} BaselineMade(api: Api, boxes: seq<Box>, cursors: Cursors)
    requires DistinctBoxes(boxes)
    ensures Baseline(api, boxes, cursors).Ok? <==> forall box :: box in boxes ==> Recordable(api, cursors, box)
  {
    if boxes != [] {
      var box, rest := boxes[0], boxes[1..];
      LaterBoxes(boxes);
      if Recordable(api, cursors, box) {
        var next := if box.id in cursors then cursors else cursors[box.id := api.cursorOf(box.changesUrl).value];
        BaselineMade(api, rest, next);
        assert forall x :: x in rest ==> (Recordable(api, next, x) <==> Recordable(api, cursors, x));
      }
    }
  }

  lemma {:induction false} BaselineHolds(api: Api, boxes: seq<Box>, cursors: Cursors)
    requires DistinctBoxes(boxes) && Baseline(api, boxes, cursors).Ok?
    ensures var based := Baseline(api, boxes, cursors).value;
            && (forall b :: b in based <==> b in cursors || ListsBox(boxes, b))
            && (forall box :: box in boxes && box.id !in cursors ==>
                  box.id in based && api.cursorOf(box.changesUrl) == Some(based[box.id]))
  {
    if boxes != [] {
      var box, rest := boxes[0], boxes[1..];
      LaterBoxes(boxes);
      var next := if box.id in cursors then cursors else cursors[box.id := api.cursorOf(box.changesUrl).value];
      BaselineHolds(api, rest, next);
      BaselineKeeps(api, rest, next);
    }
  }

  /** The box can be in a baseline. */
  predicate Recordable(api: Api, cursors: Cursors, box: Box) {
    && box.id > 0 && box.changesUrl != ""
    && (box.id in cursors || (api.cursorOf(box.changesUrl).Some? && api.cursorOf(box.changesUrl).value.since != ""))
  }

  /** The frames of the first `k` items. */
  function Frames(items: seq<Item>): seq<map<Key, Json>> {
    if items == [] then [] else [EventFrame(items[0].event)] + Frames(items[1..])
  }

  lemma {:induction false} FramesSnoc(items: seq<Item>, k: nat)
    requires k < |items|
    ensures Frames(items[..k + 1]) == Frames(items[..k]) + [EventFrame(items[k].event)]
  {
    if k == 0 {
      assert items[..1][1..] == [];
    } else {
      FramesSnoc(items[1..], k - 1);
      assert items[..k + 1][1..] == items[1..][..k] && items[..k][1..] == items[1..][..k - 1];
    }
  }

  /** The cursors on disk while the ack of item `k - 1` (or the start, for `k` zero) is being saved. */
  ghost function BeforeSave(plan: Plan, base: Cursors, k: nat): Cursors {
    if k == 0 then base else AfterAcks(plan, base, k - 1)
  }

  /** What a crash would leave, at some moment of a poll after `acked` acknowledgements. */
  datatype Moment = Moment(acked: nat, file: CursorFile)

  ghost predicate Earned(moment: Moment, plan: Plan, base: Cursors) {
    || moment.file == Stored(AfterAcks(plan, base, moment.acked))
    || moment.file == Stored(BeforeSave(plan, base, moment.acked))
  }

  // ---------------------------------------------------------------- why a poll ends as it does

  /** A box moves at acknowledgement `k`, or at the start for 0: nothing is left of it, but something was before. */
  ghost predicate MovesAt(plan: Plan, k: nat, b: int) {
    && k <= |plan.items| && b in plan.nexts
    && (k > 0 ==> b in plan.items[k - 1].boxes)
    && forall i :: k <= i < |plan.items| ==> b !in plan.items[i].boxes
  }

  ghost predicate SavesAt(plan: Plan, k: nat) {
    exists b :: MovesAt(plan, k, b)
  }

  /** If some box moves there, so that the cursors are saved, the save returns. */
  ghost predicate SaveReturns(plan: Plan, io: Io, k: nat) {
    SavesAt(plan, k) ==> io.save(k) == Saved
  }

  /** The wait for item `k` is not cut short, and the next line acknowledges it. */
  ghost predicate AckArrives(plan: Plan, io: Io, lines: seq<AckLine>, k: nat)
    requires k < |plan.items|
  {
    !io.cancelled(k) && !io.interrupted(k) && k < |lines| && lines[k] == Ack(plan.items[k].event.eventId)
  }

  /** Item `k` is written and acknowledged, and the cursors it frees are saved. */
  ghost predicate GoesThrough(plan: Plan, io: Io, lines: seq<AckLine>, k: nat)
    requires k < |plan.items|
  {
    io.emitOk(k) && AckArrives(plan, io, lines, k) && SaveReturns(plan, io, k + 1)
  }

  /** The poll gets past its first `n` items. */
  ghost predicate Passes(plan: Plan, io: Io, lines: seq<AckLine>, n: nat)
    requires n <= |plan.items|
  {
    SaveReturns(plan, io, 0) && forall k :: 0 <= k < n ==> GoesThrough(plan, io, lines, k)
  }

  /** What must have happened for a poll to end this way, after so many acknowledgements and written events. */
  ghost predicate Caused(plan: Plan, io: Io, lines: seq<AckLine>, end: PollEnd, acked: nat, sent: nat) {
    && acked <= |plan.items|
    && match end
       case Done => sent == acked == |plan.items| && Passes(plan, io, lines, acked)
       case EmitFailed => sent == acked < |plan.items| && Passes(plan, io, lines, acked) && !io.emitOk(acked)
       case AckFailed =>
         && sent == acked + 1 <= |plan.items| && Passes(plan, io, lines, acked)
         && io.emitOk(acked) && !AckArrives(plan, io, lines, acked)
       case SaveFailed =>
         && sent == acked && !SaveReturns(plan, io, acked)
         && (acked > 0 ==>
               && Passes(plan, io, lines, acked - 1)
               && io.emitOk(acked - 1) && AckArrives(plan, io, lines, acked - 1))
       case GatherFailed(_) => false
  }

  /** What the environment does to a poll decides how it ends. */
  lemma CausedOnce(plan: Plan, io: Io, lines: seq<AckLine>, end: PollEnd, acked: nat, sent: nat,
          end': PollEnd, acked': nat, sent': nat)
    requires Caused(plan, io, lines, end, acked, sent) && Caused(plan, io, lines, end', acked', sent')
    ensures end == end' && acked == acked' && sent == sent'
  {
    assert acked > 0 && Passes(plan, io, lines, acked) ==> GoesThrough(plan, io, lines, acked - 1);
    if acked < acked' {
      GotPast(plan, io, lines, end', acked', sent', acked);
    } else if acked' < acked {
      GotPast(plan, io, lines, end, acked, sent, acked');
    }
  }

  /** A poll that ends after more acknowledgements did not end here. */
  lemma GotPast(plan: Plan, io: Io, lines: seq<AckLine>, end: PollEnd, acked: nat, sent: nat, m: nat)
    requires Caused(plan, io, lines, end, acked, sent) && m < acked
    ensures SaveReturns(plan, io, m) && m < |plan.items| && io.emitOk(m) && AckArrives(plan, io, lines, m)
  {
    var n := if end.SaveFailed? then acked - 1 else acked;
    assert Passes(plan, io, lines, n);
    assert m > 0 ==> GoesThrough(plan, io, lines, m - 1);
    assert m < n ==> GoesThrough(plan, io, lines, m);
  }

  /** How the turn of item `k` ends, with this much input left. */
  ghost function EndOf(plan: Plan, io: Io, rest: seq<AckLine>, k: nat): PollEnd
    requires k < |plan.items|
  {
    if !io.emitOk(k) then EmitFailed
    else if io.cancelled(k) || io.interrupted(k) || rest == [] || rest[0] != Ack(plan.items[k].event.eventId) then
      AckFailed
    else if SaveReturns(plan, io, k + 1) then Done
    else SaveFailed
  }

  lemma TurnEnds(plan: Plan, io: Io, lines: seq<AckLine>, k: nat)
    requires k < |plan.items| && k <= |lines| && Passes(plan, io, lines, k) && Acknowledged(plan.items, k, lines)
    ensures var end := EndOf(plan, io, lines[k..], k);
            match end
            case Done => Passes(plan, io, lines, k + 1) && Acknowledged(plan.items, k + 1, lines)
            case SaveFailed => Caused(plan, io, lines, end, k + 1, k + 1) && Acknowledged(plan.items, k + 1, lines)
            case AckFailed => Caused(plan, io, lines, end, k, k + 1)
            case _ => end == EmitFailed && Caused(plan, io, lines, end, k, k)
  {
    assert lines[k..] != [] ==> lines[k..][0] == lines[k];
  }

  /** What is left of the input: the lines of the acknowledged items are read, and one that is not theirs. */
  function Unread(io: Io, lines: seq<AckLine>, end: PollEnd, acked: nat): seq<AckLine>
    requires acked <= |lines|
  {
    if end.AckFailed? && !io.cancelled(acked) && acked < |lines| then lines[acked + 1..] else lines[acked..]
  }

  class WatchEngine {
    const ownEmail: string
    var file: CursorFile
    var out: seq<map<Key, Json>>
    var acks: seq<AckLine>

    constructor (ownEmail: string, file: CursorFile, acks: seq<AckLine>)
      ensures this.ownEmail == ownEmail && this.file == file && this.acks == acks && out == []
    {
      this.ownEmail, this.file, this.acks := ownEmail, file, acks;
      out := [];
    }

    /** `saveCursorState`, seen from the path it replaces. */
    method SaveCursors(cursors: Cursors, outcome: SaveOutcome) returns (ok: bool)
      modifies this`file
      ensures file == if outcome == FailedBefore then old(file) else Stored(cursors)
      ensures ok <==> outcome == Saved
    {
      if outcome == FailedBefore {
        return false;
      }
      file := Stored(cursors);
      ok := outcome == Saved;
    }

    method SaveIfChanged(cursors: Cursors, changed: bool, outcome: SaveOutcome) returns (ok: bool)
      requires !changed ==> file == Stored(cursors)
      modifies this`file
      ensures ok <==> !changed || outcome == Saved
      ensures file == if changed && outcome == FailedBefore then old(file) else Stored(cursors)
    {
      ok := true;
      if changed {
        ok := SaveCursors(cursors, outcome);
      }
    }

    /** `initialize`: baseline the unknown boxes, save if anything changed, announce readiness. */
    method Initialize(api: Api, boxes: Option<seq<Box>>, save: SaveOutcome, emitOk: bool) returns (ok: bool)
      modifies this`file, this`out
      ensures out == if ok then old(out) + [ReadyFrame()] else old(out)
      ensures Unusable(old(file)) || boxes.None? ==> !ok && file == old(file)
      ensures !Unusable(old(file)) && boxes.Some? ==>
                var known := if old(file).Stored? then old(file).cursors else map[];
                var based := Baseline(api, boxes.value, known);
                && (based.Err? ==> !ok && file == old(file))
                && (based.Ok? ==>
                      && (ok <==> (old(file) == Stored(based.value) || save == Saved) && emitOk)
                      && file == if save == FailedBefore then old(file) else Stored(based.value))
    {
      var loaded := LoadCursors(file);
      if loaded.Err? || boxes.None? {
        return false;
      }
      ghost var before := file;
      var cursors := if loaded.value.Some? then loaded.value.value else map[];
      ghost var known := cursors;
      var changed := loaded.value.None?;
      var i := 0;
      assert boxes.value[0..] == boxes.value;
      while i < |boxes.value|
        invariant 0 <= i <= |boxes.value|
        invariant Baseline(api, boxes.value, known) == Baseline(api, boxes.value[i..], cursors)
        invariant !changed ==> loaded.value == Some(cursors)
        invariant known.Keys <= cursors.Keys && (changed ==> loaded.value.None? || known.Keys != cursors.Keys)
      {
        var box := boxes.value[i];
        assert boxes.value[i..][1..] == boxes.value[i + 1..];
        if box.id <= 0 || box.changesUrl == "" {
          return false;
        }
        if box.id !in cursors {
          var cursor := api.cursorOf(box.changesUrl);
          if cursor.None? || cursor.value.since == "" {
            return false;
          }
          cursors := cursors[box.id := cursor.value];
          changed := true;
        }
        i := i + 1;
      }
      if changed {
        var saved := SaveCursors(cursors, save);
        if !saved {
          return false;
        }
      }
      assert file == Stored(cursors);
      if !emitOk {
        return false;
      }
      out := out + [ReadyFrame()];
      return true;
    }

    /** `waitForAck`: consume one line; it must acknowledge exactly this event. */
    method WaitForAck(eventId: string, cancelled: bool, interrupted: bool) returns (ok: bool)
      modifies this`acks
      ensures ok <==> !cancelled && !interrupted && |old(acks)| > 0 && old(acks)[0] == Ack(eventId)
      ensures acks == if cancelled || |old(acks)| == 0 then old(acks) else old(acks)[1..]
    {
      if cancelled || |acks| == 0 {
        return false;
      }
      var line := acks[0];
      acks := acks[1..];
      if interrupted {
        return false;
      }
      return line == Ack(eventId);
    }

    /**
     `poll`. A failed gathering has no effect. Otherwise the poll emits a prefix of its plan in order,
     each event after the ack of the one before, and whenever it stops, after any number of acks, the
     cursors on disk are exactly those earned by these acks, unless the last save failed before its rename.
     How it ends is decided by what the environment does (`Caused`): it emits everything exactly when every
     write succeeds, every wait yields the item's ack and every save returns. `history` lists what a crash
     would leave after each effect of the poll.
     */
    method Poll(api: Api, boxes: Option<seq<Box>>, io: Io)
      returns (end: PollEnd, acked: nat, ghost sent: nat, ghost history: seq<Moment>)
      requires boxes.Some? ==> DistinctBoxes(boxes.value)
      modifies this
      ensures end.GatherFailed? <==> PlanHere(old(file), api, boxes, ownEmail).Err?
      ensures end.GatherFailed? ==>
                end.error == PlanHere(old(file), api, boxes, ownEmail).error
                && file == old(file) && out == old(out) && acks == old(acks) && history == []
      ensures !end.GatherFailed? ==>
                var base := LoadCursors(old(file)).value.value;
                var plan := PlanHere(old(file), api, boxes, ownEmail).value;
                && PlanOk(plan, base)
                && Polled(plan, base, io, end, acked, sent, file, history)
                && out == old(out) + Frames(plan.items[..sent])
                && Acknowledged(plan.items, acked, old(acks)) && acks == Unread(io, old(acks), end, acked)
                && Caused(plan, io, old(acks), end, acked, sent)
                && (end.Done? <==> Passes(plan, io, old(acks), |plan.items|))
    {
      acked, sent, history := 0, 0, [];
      var loaded := LoadCursors(file);
      if loaded.Err? {
        return GatherFailed(loaded.error), 0, 0, [];
      }
      if loaded.value.None? {
        return GatherFailed(NotInitialized), 0, 0, [];
      }
      if boxes.None? {
        return GatherFailed(ListBoxesFailed), 0, 0, [];
      }
      var base := loaded.value.value;
      var sorted := SortBoxes(boxes.value);
      var incs := ReadAll(api, base, sorted);
      if incs.Err? {
        return GatherFailed(incs.error), 0, 0, [];
      }
      var m := GatherAll(api, ownEmail, incs.value);
      if m.Err? {
        return GatherFailed(m.error), 0, 0, [];
      }
      PendingKeys(api, ownEmail, incs.value, m.value);
      PlanItems(api, ownEmail, base, boxes.value);
      SortedReads(api, boxes.value, base);
      IncrementsKnown(api, base, sorted, incs.value);
      var items, counts := CountAndSort(m.value, incs.value);
      ghost var lines := acks;
      end, acked, sent, history := EmitAll(base, incs.value, items, counts, io);
      DoneExactly(Plan(Nexts(incs.value), items), io, lines, end, acked, sent);
    }

    /** Advance the idle boxes, then emit, await and advance, item by item. */
    method EmitAll(base: Cursors, incs: seq<Increment>, items: seq<Item>, counts: map<int, int>, io: Io)
      returns (end: PollEnd, acked: nat, ghost sent: nat, ghost history: seq<Moment>)
      requires file == Stored(base) && ItemsFit(items, Nexts(incs)) && OnceEach(items)
      requires KeysIncrease(incs) && Keys(incs) <= base.Keys
      requires Counted(counts, items, 0, Keys(incs))
      modifies this
      ensures !end.GatherFailed? && Polled(Plan(Nexts(incs), items), base, io, end, acked, sent, file, history)
      ensures out == old(out) + Frames(items[..sent])
      ensures Acknowledged(items, acked, old(acks)) && acks == Unread(io, old(acks), end, acked)
      ensures Caused(Plan(Nexts(incs), items), io, old(acks), end, acked, sent)
    {
      acked, sent, history := 0, 0, [];
      ghost var lines := acks;
      var nexts := Nexts(incs);
      ghost var plan := Plan(nexts, items);
      NextsWithin(incs);
      var saved, state := Start(plan, base, incs, counts, io);
      history := [Moment(0, file)];
      if !saved {
        return SaveFailed, 0, 0, history;
      }
      StartPasses(plan, base, io, lines, history);
      end, acked, sent, history := EmitItems(plan, base, nexts, items, Keys(incs), state, counts, io, history);
    }

    /** The items one after the other. */
    method EmitItems(ghost plan: Plan, base: Cursors, nexts: Cursors, items: seq<Item>, ghost keys: set<int>,
                     start: Cursors, counts: map<int, int>, io: Io, ghost earlier: seq<Moment>)
      returns (end: PollEnd, acked: nat, ghost sent: nat, ghost history: seq<Moment>)
      requires plan == Plan(nexts, items) && nexts.Keys <= base.Keys && ItemsFit(items, nexts) && OnceEach(items)
      requires nexts.Keys <= keys && start == AfterAcks(plan, base, 0) && file == Stored(start)
      requires Counted(counts, items, 0, keys) && AllEarned(earlier, plan, base, 0) && Passes(plan, io, acks, 0)
      modifies this
      ensures Polled(plan, base, io, end, acked, sent, file, history) && Caused(plan, io, old(acks), end, acked, sent)
      ensures out == old(out) + Frames(items[..sent])
      ensures Acknowledged(items, acked, old(acks)) && acks == Unread(io, old(acks), end, acked)
    {
      acked, sent, history := 0, 0, earlier;
      ghost var lines := acks;
      var state, pending := start, counts;
      while acked < |items|
        invariant acked == sent <= |items|
        invariant state == AfterAcks(plan, base, acked) && file == Stored(state)
        invariant Counted(pending, items, acked, keys)
        invariant AllEarned(history, plan, base, acked)
        invariant out == old(out) + Frames(items[..sent])
        invariant Acknowledged(items, acked, lines) && acks == lines[acked..]
        invariant Passes(plan, io, lines, acked)
      {
        ghost var seen;
        ghost var k := acked;
        FramesSnoc(items, k);
        end, state, pending, seen := EmitOne(plan, base, nexts, items, acked, keys, state, pending, io);
        EarnedMore(history, seen, plan, base, acked, if end.Done? || end.SaveFailed? then acked + 1 else acked);
        history := history + seen;
        sent := if end.EmitFailed? then acked else acked + 1;
        acked := if end.Done? || end.SaveFailed? then acked + 1 else acked;
        TurnEnds(plan, io, lines, k);
        if !end.Done? {
          TurnStops(plan, base, io, lines, k, end, file, history, acks);
          return end, acked, sent, history;
        }
      }
      assert items[..sent] == items;
      return Done, acked, sent, history;
    }

    /** Move the boxes with nothing pending, and save if any moved. */
    method Start(ghost plan: Plan, base: Cursors, incs: seq<Increment>, counts: map<int, int>, io: Io)
      returns (saved: bool, state: Cursors)
      requires file == Stored(base) && KeysIncrease(incs) && Keys(incs) <= base.Keys && plan.nexts == Nexts(incs)
      requires Counted(counts, plan.items, 0, Keys(incs))
      modifies this`file
      ensures state == AfterAcks(plan, base, 0)
      ensures saved <==> SaveReturns(plan, io, 0)
      ensures file == if !saved && io.save(0) == FailedBefore then Stored(base) else Stored(state)
    {
      var changed;
      state, changed := AdvanceIdle(plan, base, incs, counts);
      saved := SaveIfChanged(state, changed, io.save(0));
    }

    /** Emit item `k`, wait for its ack, advance its boxes, save. */
    method EmitOne(ghost plan: Plan, base: Cursors, nexts: Cursors, items: seq<Item>, k: nat, ghost keys: set<int>,
                   state: Cursors, pending: map<int, int>, io: Io)
      returns (end: PollEnd, state': Cursors, pending': map<int, int>, ghost history: seq<Moment>)
      requires plan == Plan(nexts, items) && nexts.Keys <= base.Keys && ItemsFit(items, nexts) && OnceEach(items)
      requires k < |items| && nexts.Keys <= keys
      requires state == AfterAcks(plan, base, k) && file == Stored(state) && Counted(pending, items, k, keys)
      modifies this
      ensures AllEarned(history, plan, base, if end.Done? || end.SaveFailed? then k + 1 else k)
      ensures out == if end.EmitFailed? then old(out) else old(out) + [EventFrame(items[k].event)]
      ensures end == EndOf(plan, io, old(acks), k)
      ensures acks == if end.EmitFailed? || io.cancelled(k) || |old(acks)| == 0 then old(acks) else old(acks)[1..]
      ensures end.EmitFailed? || end.AckFailed? ==> file == Stored(AfterAcks(plan, base, k))
      ensures end.SaveFailed? ==>
                file == Stored(AfterAcks(plan, base, if io.save(k + 1) == FailedBefore then k else k + 1))
      ensures end.Done? ==>
                state' == AfterAcks(plan, base, k + 1) && file == Stored(state')
                  && Counted(pending', items, k + 1, keys)
    {
      state', pending', history := state, pending, [];
      if !io.emitOk(k) {
        return EmitFailed, state, pending, [];
      }
      out := out + [EventFrame(items[k].event)];
      history := [Moment(k, file)];
      var ok := WaitForAck(items[k].event.eventId, io.cancelled(k), io.interrupted(k));
      if !ok {
        return AckFailed, state, pending, history;
      }
      history := history + [Moment(k + 1, file)];
      var saved;
      saved, state', pending' := Settle(plan, base, nexts, items, k, keys, state, pending, io);
      history := history + [Moment(k + 1, file)];
      end := if saved then Done else SaveFailed;
    }

    /** After the ack of item `k`: move its boxes that wait for nothing more, and save if any moved. */
    method Settle(ghost plan: Plan, base: Cursors, nexts: Cursors, items: seq<Item>, k: nat, ghost keys: set<int>,
                  state: Cursors, pending: map<int, int>, io: Io)
      returns (saved: bool, state': Cursors, pending': map<int, int>)
      requires plan == Plan(nexts, items) && nexts.Keys <= base.Keys && ItemsFit(items, nexts) && OnceEach(items)
      requires k < |items| && nexts.Keys <= keys
      requires state == AfterAcks(plan, base, k) && file == Stored(state) && Counted(pending, items, k, keys)
      modifies this`file
      ensures state' == AfterAcks(plan, base, k + 1) && Counted(pending', items, k + 1, keys)
      ensures saved <==> SaveReturns(plan, io, k + 1)
      ensures file == if !saved && io.save(k + 1) == FailedBefore then Stored(state) else Stored(state')
    {
      var changed;
      state', pending', changed := Advance(plan, base, nexts, items, k, keys, state, pending);
      saved := SaveIfChanged(state', changed, io.save(k + 1));
    }
  }

  lemma DoneExactly(plan: Plan, io: Io, lines: seq<AckLine>, end: PollEnd, acked: nat, sent: nat)
    requires Caused(plan, io, lines, end, acked, sent)
    ensures end.Done? <==> Passes(plan, io, lines, |plan.items|)
  {
    if Passes(plan, io, lines, |plan.items|) {
      CausedOnce(plan, io, lines, end, acked, sent, Done, |plan.items|, |plan.items|);
    }
  }

  lemma EarnedMore(a: seq<Moment>, b: seq<Moment>, plan: Plan, base: Cursors, k: nat, n: nat)
    requires AllEarned(a, plan, base, k) && AllEarned(b, plan, base, n) && k <= n
    ensures AllEarned(a + b, plan, base, n)
  {
  }

  ghost predicate AllEarned(history: seq<Moment>, plan: Plan, base: Cursors, acked: nat) {
    forall i :: 0 <= i < |history| ==> history[i].acked <= acked && Earned(history[i], plan, base)
  }

  lemma StartPasses(plan: Plan, base: Cursors, io: Io, lines: seq<AckLine>, history: seq<Moment>)
    requires SaveReturns(plan, io, 0) && history == [Moment(0, Stored(AfterAcks(plan, base, 0)))]
    ensures Passes(plan, io, lines, 0) && AllEarned(history, plan, base, 0)
  {
  }

  /** A poll that stops in the turn of item `k`. */
  lemma TurnStops(plan: Plan, base: Cursors, io: Io, lines: seq<AckLine>, k: nat, end: PollEnd, file: CursorFile,
          history: seq<Moment>, rest: seq<AckLine>)
    requires k < |plan.items| && k <= |lines| && Passes(plan, io, lines, k) && Acknowledged(plan.items, k, lines)
    requires end == EndOf(plan, io, lines[k..], k) && !end.Done?
    requires rest == if end.EmitFailed? || io.cancelled(k) || |lines[k..]| == 0 then lines[k..] else lines[k..][1..]
    requires !end.SaveFailed? ==> file == Stored(AfterAcks(plan, base, k))
    requires end.SaveFailed? ==>
               file == Stored(AfterAcks(plan, base, if io.save(k + 1) == FailedBefore then k else k + 1))
    requires AllEarned(history, plan, base, if end.SaveFailed? then k + 1 else k)
    ensures var acked, sent := if end.SaveFailed? then k + 1 else k, if end.EmitFailed? then k else k + 1;
            && Polled(plan, base, io, end, acked, sent, file, history)
            && Acknowledged(plan.items, acked, lines) && rest == Unread(io, lines, end, acked)
            && Caused(plan, io, lines, end, acked, sent)
  {
    TurnEnds(plan, io, lines, k);
    assert |lines[k..]| > 0 ==> lines[k..][1..] == lines[k + 1..];
  }

  /** The first `acked` lines of input acknowledge the first `acked` items, in order. */
  ghost predicate Acknowledged(items: seq<Item>, acked: nat, lines: seq<AckLine>) {
    acked <= |items| && acked <= |lines| && forall i :: 0 <= i < acked ==> lines[i] == Ack(items[i].event.eventId)
  }

  /** How a poll that gathered `plan` over `base` may have ended. */
  ghost predicate Polled(plan: Plan, base: Cursors, io: Io, end: PollEnd, acked: nat, sent: nat, file: CursorFile,
          history: seq<Moment>)
  {
    && acked <= sent <= acked + 1 && sent <= |plan.items|
    && (if end.SaveFailed? && io.save(acked) == FailedBefore then file == Stored(BeforeSave(plan, base, acked))
        else file == Stored(AfterAcks(plan, base, acked)))
    && AllEarned(history, plan, base, acked)
  }

  /** The plan a poll makes from what is on disk, or why it makes none. */
  ghost function PlanHere(file: CursorFile, api: Api, boxes: Option<seq<Box>>, own: string): Result<Plan, WatchError> {
    var loaded :- LoadCursors(file);
    if loaded.None? then Err(NotInitialized) else PlanOf(api, boxes, own, loaded.value)
  }

  // ---------------------------------------------------------------- sorting and gathering loops

  /** `sort.Slice`: some arrangement of the elements in rank order. */
  method SortSlice<T(!new)>(less: (T, T) -> bool, s: seq<T>) returns (r: seq<T>)
    requires Distinct(s) && StrictTotalOn(less, set x | x in s)
    ensures StrictlySorted(less, r) && forall x :: x in r <==> x in s
  {
    SortSpec(less, s, set x | x in s);
    r := SortBy(less, s);
  }

  method SortBoxes(boxes: seq<Box>) returns (r: seq<Box>)
    requires DistinctBoxes(boxes)
    ensures r == SortBy(BoxLess, boxes)
  {
    BoxesRanked(boxes);
    r := SortSlice(BoxLess, boxes);
    SortCanonical(BoxLess, boxes, r);
  }

  method ReadAll(api: Api, cursors: Cursors, boxes: seq<Box>) returns (r: Result<seq<Increment>, WatchError>)
    ensures r == ReadIncrements(api, cursors, boxes)
  {
    var incs: seq<Increment> := [];
    var i := 0;
    assert boxes[0..] == boxes;
    ghost var whole := ReadIncrements(api, cursors, boxes);
    assert whole.Ok? ==> [] + whole.value == whole.value;
    while i < |boxes|
      invariant 0 <= i <= |boxes|
      invariant ReadIncrements(api, cursors, boxes) ==
                (var rest := ReadIncrements(api, cursors, boxes[i..]); if rest.Ok? then Ok(incs + rest.value) else rest)
    {
      assert boxes[i..][1..] == boxes[i + 1..];
      var inc := ReadIncrement(api, cursors, boxes[i]);
      if inc.Err? {
        return Err(inc.error);
      }
      ghost var rest := ReadIncrements(api, cursors, boxes[i + 1..]);
      assert rest.Ok? ==> incs + ([inc.value] + rest.value) == incs + [inc.value] + rest.value;
      incs := incs + [inc.value];
      i := i + 1;
    }
    assert incs + [] == incs;
    return Ok(incs);
  }

  method GatherAll(api: Api, own: string, incs: seq<Increment>) returns (r: Result<PollPlan.Pending, WatchError>)
    ensures r == AddIncrements(api, own, incs, map[])
  {
    var m: PollPlan.Pending := map[];
    var i := 0;
    assert incs[0..] == incs;
    while i < |incs|
      invariant 0 <= i <= |incs|
      invariant AddIncrements(api, own, incs, map[]) == AddIncrements(api, own, incs[i..], m)
    {
      assert incs[i..][1..] == incs[i + 1..];
      var inc := incs[i];
      var j := 0;
      ghost var before := m;
      assert inc.postings[0..] == inc.postings;
      while j < |inc.postings|
        invariant 0 <= j <= |inc.postings|
        invariant AddPostings(api, own, inc, inc.postings, before) == AddPostings(api, own, inc, inc.postings[j..], m)
      {
        assert inc.postings[j..][1..] == inc.postings[j + 1..];
        var posting := inc.postings[j];
        j := j + 1;
        if Relevant(posting) {
          var events := HydratePostingSince(api, posting, inc.kind, inc.since);
          if events.Err? {
            return Err(events.error);
          }
          var added := GatherEvents(api, own, inc.key, events.value, m);
          if added.Err? {
            return Err(added.error);
          }
          m := added.value;
        }
      }
      i := i + 1;
    }
    return Ok(m);
  }

  method GatherEvents(api: Api, own: string, key: int, events: seq<HeyEvent>, m: PollPlan.Pending)
    returns (r: Result<PollPlan.Pending, WatchError>)
    ensures r == AddEvents(api, own, key, events, m)
  {
    var pending := m;
    var i := 0;
    assert events[0..] == events;
    while i < |events|
      invariant 0 <= i <= |events|
      invariant AddEvents(api, own, key, events, m) == AddEvents(api, own, key, events[i..], pending)
    {
      assert events[i..][1..] == events[i + 1..];
      var e := events[i];
      i := i + 1;
      if !api.sameAddress(e.senderEmail, own) {
        var next := AddEvent(api, key, e, pending);
        if next.Err? {
          return Err(next.error);
        }
        pending := next.value;
      }
    }
    return Ok(pending);
  }

  // ---------------------------------------------------------------- the counters

  /** The items of `s` that the box is waiting for. */
  ghost function Holding(s: seq<Item>, b: int): set<Item> {
    set x | x in s && b in x.boxes
  }

  /** `inc.pending` is the number of unacknowledged items containing the box. */
  ghost predicate Counted(counts: map<int, int>, items: seq<Item>, k: nat, keys: set<int>)
    requires k <= |items|
  {
    counts.Keys == keys && forall b :: b in keys ==> counts[b] == |Holding(items[k..], b)|
  }

  lemma WaitingNone(items: seq<Item>, k: nat, b: int)
    requires k <= |items|
    ensures |Holding(items[k..], b)| == 0 <==> Settled(items, k, b)
  {
    var rest := items[k..];
    if Holding(rest, b) == {} {
      forall i | k <= i < |items| ensures b !in items[i].boxes {
        assert rest[i - k] == items[i] && rest[i - k] in rest;
        assert items[i] !in Holding(rest, b);
      }
    }
    if Settled(items, k, b) {
      forall x | x in rest ensures b !in x.boxes {
        var i :| 0 <= i < |rest| && rest[i] == x;
        assert items[k + i] == x;
      }
      assert Holding(rest, b) == {};
    }
  }

  lemma WaitingStep(items: seq<Item>, k: nat, b: int)
    requires k < |items| && OnceEach(items)
    ensures |Holding(items[k..], b)| == |Holding(items[k + 1..], b)| + if b in items[k].boxes then 1 else 0
  {
    var rest := items[k + 1..];
    forall x | x in rest ensures x != items[k] {
      var i :| 0 <= i < |rest| && rest[i] == x;
      assert items[k + 1 + i] == x;
    }
    assert items[k..] == [items[k]] + rest;
    assert forall x :: x in items[k..] <==> x == items[k] || x in rest;
    HoldingOneMore(items[k..], rest, items[k], b);
  }

  lemma HoldingOneMore(s: seq<Item>, rest: seq<Item>, x: Item, b: int)
    requires x !in rest && forall y :: y in s <==> y == x || y in rest
    ensures |Holding(s, b)| == |Holding(rest, b)| + if b in x.boxes then 1 else 0
  {
    if b in x.boxes {
      assert Holding(s, b) == Holding(rest, b) + {x};
    } else {
      assert Holding(s, b) == Holding(rest, b);
    }
  }

  function Keys(incs: seq<Increment>): set<int> {
    set i | 0 <= i < |incs| :: incs[i].key
  }

  lemma IncrementsKnown(api: Api, cursors: Cursors, boxes: seq<Box>, incs: seq<Increment>)
    requires ReadIncrements(api, cursors, boxes) == Ok(incs)
    ensures Keys(incs) <= cursors.Keys
  {
    forall i | 0 <= i < |incs| ensures incs[i].key in cursors {
      assert incs[i] in incs;
      ReadsSpec(api, cursors, boxes, incs[i]);
    }
  }

  lemma NextsWithin(incs: seq<Increment>)
    requires KeysIncrease(incs)
    ensures Nexts(incs).Keys <= Keys(incs)
    ensures forall i :: 0 <= i < |incs| ==>
              if incs[i].next.Some? then incs[i].key in Nexts(incs) && Nexts(incs)[incs[i].key] == incs[i].next.value
              else incs[i].key !in Nexts(incs)
  {
    NextsSpec(incs);
    forall i | 0 <= i < |incs|
      ensures if incs[i].next.Some? then incs[i].key in Nexts(incs) && Nexts(incs)[incs[i].key] == incs[i].next.value
              else incs[i].key !in Nexts(incs)
    {
      assert incs[i] in incs;
      NextOfBox(incs, incs[i]);
    }
  }

  lemma PendingKeys(api: Api, own: string, incs: seq<Increment>, m: PollPlan.Pending)
    requires AddIncrements(api, own, incs, map[]) == Ok(m)
    ensures PendingOk(m) && forall id :: id in m ==> m[id].boxes <= Keys(incs)
  {
    AddIncrementsSpec(api, own, incs, map[]);
    forall id, b | id in m && b in m[id].boxes ensures b in Keys(incs) {
      assert Files(m, id, b);
      var inc :| inc in incs && inc.key == b && Due(api, own, inc, inc.postings, id);
    }
  }

  /** `listed` holds the items of `m` that are no longer in `rest`, each once. */
  ghost predicate ListedSoFar(m: PollPlan.Pending, rest: PollPlan.Pending, listed: seq<Item>) {
    && (forall id :: id in rest ==> id in m && rest[id] == m[id])
    && (forall x :: x in listed ==> x.event.eventId in m && m[x.event.eventId] == x && x.event.eventId !in rest)
    && (forall id :: id in m && id !in rest ==> m[id] in listed)
    && Distinct(listed)
  }

  lemma ListOne(m: PollPlan.Pending, rest: PollPlan.Pending, listed: seq<Item>, id: string)
    requires PendingOk(m) && ListedSoFar(m, rest, listed) && id in rest
    ensures m[id] !in listed && ListedSoFar(m, rest - {id}, listed + [m[id]])
  {
    var item, rest', listed' := m[id], rest - {id}, listed + [m[id]];
    assert item !in listed;
    DistinctConcat(listed, [item]);
    assert forall x :: x in listed' <==> x in listed || x == item;
    assert forall k :: k in rest' <==> k in rest && k != id;
  }

  /** List the pending map in whatever order it yields, counting each box's items. */
  method CountItems(m: PollPlan.Pending, keys: set<int>) returns (listed: seq<Item>, counts: map<int, int>)
    requires PendingOk(m) && forall id :: id in m ==> m[id].boxes <= keys
    ensures ListedSoFar(m, map[], listed)
    ensures counts.Keys == keys && forall b :: b in keys ==> counts[b] == |Holding(listed, b)|
  {
    counts := map b | b in keys :: 0;
    listed := [];
    var rest := m;
    NoneListed(m);
    while rest != map[]
      invariant ListedSoFar(m, rest, listed)
      invariant counts.Keys == keys && forall b :: b in keys ==> counts[b] == |Holding(listed, b)|
      decreases |rest|
    {
      var id :| id in rest;
      ListOne(m, rest, listed, id);
      counts := Tally(counts, m[id].boxes);
      TallySnoc(listed, m[id]);
      listed := listed + [m[id]];
      rest := rest - {id};
    }
  }

  lemma NoneListed(m: PollPlan.Pending)
    requires PendingOk(m)
    ensures ListedSoFar(m, m, []) && forall b :: |Holding([], b)| == 0
  {
    assert forall b :: Holding([], b) == {};
  }

  lemma TallySnoc(listed: seq<Item>, item: Item)
    requires item !in listed
    ensures forall b :: |Holding(listed + [item], b)| == |Holding(listed, b)| + if b in item.boxes then 1 else 0
  {
    forall b ensures |Holding(listed + [item], b)| == |Holding(listed, b)| + if b in item.boxes then 1 else 0 {
      HoldingOneMore(listed + [item], listed, item, b);
    }
  }

  /** Count, then sort: the result is the plan's order, whatever the map's own order was. */
  method CountAndSort(m: PollPlan.Pending, incs: seq<Increment>) returns (items: seq<Item>, counts: map<int, int>)
    requires PendingOk(m) && forall id :: id in m ==> m[id].boxes <= Keys(incs)
    ensures items == Arrange(m) && Counted(counts, items, 0, Keys(incs))
  {
    var listed;
    listed, counts := CountItems(m, Keys(incs));
    ItemsRanked(m, listed);
    items := SortSlice(ItemLess, listed);
    ArrangeCanonical(m, items);
    assert items[0..] == items;
    SameHolding(items, listed);
  }

  lemma SameHolding(a: seq<Item>, b: seq<Item>)
    requires forall x :: x in a <==> x in b
    ensures forall k :: Holding(a, k) == Holding(b, k)
  {
  }

  /** One more item for each of these boxes, taken in any order. */
  method Tally(counts: map<int, int>, boxes: set<int>) returns (r: map<int, int>)
    requires boxes <= counts.Keys
    ensures r.Keys == counts.Keys
    ensures forall b :: b in counts ==> r[b] == counts[b] + if b in boxes then 1 else 0
  {
    r := counts;
    var left := boxes;
    while left != {}
      invariant left <= boxes && r.Keys == counts.Keys
      invariant forall b :: b in counts ==> r[b] == counts[b] + if b in boxes - left then 1 else 0
      decreases |left|
    {
      Inhabited(left);
      var key :| key in left;
      r := r[key := r[key] + 1];
      left := left - {key};
    }
  }

  /** One box before the first event. */
  lemma IdleAt(plan: Plan, base: Cursors, incs: seq<Increment>, counts: map<int, int>, i: nat)
    requires KeysIncrease(incs) && Keys(incs) <= base.Keys && plan.nexts == Nexts(incs) && i < |incs|
    requires Counted(counts, plan.items, 0, Keys(incs))
    ensures var inc := incs[i];
            && inc.key in base && inc.key in counts
            && (inc.next.Some? && counts[inc.key] == 0 <==> MovesAt(plan, 0, inc.key))
            && AfterAcks(plan, base, 0)[inc.key] ==
               if inc.next.Some? && counts[inc.key] == 0 then inc.next.value else base[inc.key]
  {
    NextsWithin(incs);
    WaitingNone(plan.items, 0, incs[i].key);
  }

  /** All boxes before the first event. */
  lemma IdleAll(plan: Plan, base: Cursors, incs: seq<Increment>, state: Cursors, done: set<int>)
    requires plan.nexts == Nexts(incs) && KeysIncrease(incs)
    requires state.Keys == base.Keys && forall j :: 0 <= j < |incs| ==> incs[j].key in done
    requires forall b :: b in base ==> state[b] == if b in done then AfterAcks(plan, base, 0)[b] else base[b]
    ensures state == AfterAcks(plan, base, 0)
    ensures (forall j :: 0 <= j < |incs| ==> !MovesAt(plan, 0, incs[j].key)) ==> !SavesAt(plan, 0)
  {
    NextsWithin(incs);
    forall b | b in base ensures state[b] == AfterAcks(plan, base, 0)[b] {
      assert b in plan.nexts ==> b in Keys(incs);
    }
  }

  /** Before the first event: a box with nothing pending moves at once. */
  method AdvanceIdle(ghost plan: Plan, base: Cursors, incs: seq<Increment>, counts: map<int, int>)
    returns (state: Cursors, changed: bool)
    requires KeysIncrease(incs) && Keys(incs) <= base.Keys && plan.nexts == Nexts(incs)
    requires Counted(counts, plan.items, 0, Keys(incs))
    ensures state == AfterAcks(plan, base, 0) && (!changed ==> state == base)
    ensures changed <==> SavesAt(plan, 0)
  {
    state, changed := base, false;
    ghost var early := AfterAcks(plan, base, 0);
    ghost var done: set<int> := {};
    var i := 0;
    while i < |incs|
      invariant 0 <= i <= |incs| && state.Keys == base.Keys && (!changed ==> state == base)
      invariant changed ==> SavesAt(plan, 0)
      invariant !changed ==> forall j :: 0 <= j < i ==> !MovesAt(plan, 0, incs[j].key)
      invariant forall j :: 0 <= j < i ==> incs[j].key in done
      invariant forall b :: b in base ==> state[b] == if b in done then early[b] else base[b]
    {
      var inc := incs[i];
      IdleAt(plan, base, incs, counts, i);
      if inc.next.Some? && counts[inc.key] == 0 {
        state := state[inc.key := inc.next.value];
        changed := true;
      }
      done := done + {inc.key};
      i := i + 1;
    }
    IdleAll(plan, base, incs, state, done);
  }

  /** One item less for each of the boxes, in any order; a box that reaches zero moves to its next cursor. */
  method Release(boxes: set<int>, nexts: Cursors, state: Cursors, counts: map<int, int>)
    returns (state': Cursors, counts': map<int, int>, changed: bool)
    requires boxes <= nexts.Keys && boxes <= counts.Keys && boxes <= state.Keys
    ensures counts'.Keys == counts.Keys && state'.Keys == state.Keys && (!changed ==> state' == state)
    ensures forall b :: b in counts ==> counts'[b] == counts[b] - if b in boxes then 1 else 0
    ensures forall b :: b in state ==> state'[b] == if b in boxes && counts[b] == 1 then nexts[b] else state[b]
    ensures changed <==> exists b :: b in boxes && counts[b] == 1
  {
    state', counts', changed := state, counts, false;
    var left := boxes;
    while left != {}
      invariant left <= boxes && counts'.Keys == counts.Keys && state'.Keys == state.Keys
      invariant (!changed ==> state' == state)
      invariant forall b :: b in counts ==> counts'[b] == counts[b] - if b in boxes - left then 1 else 0
      invariant forall b :: b in state ==>
                  state'[b] == if b in boxes - left && counts[b] == 1 then nexts[b] else state[b]
      invariant changed <==> exists b :: b in boxes - left && counts[b] == 1
      decreases |left|
    {
      Inhabited(left);
      var key :| key in left;
      counts' := counts'[key := counts'[key] - 1];
      if counts'[key] == 0 && key in nexts {
        state' := state'[key := nexts[key]];
        changed := true;
      }
      left := left - {key};
    }
  }

  /** After the ack of item `k`: each of its boxes waits for one item less, and moves when it waits for none. */
  method Advance(ghost plan: Plan, base: Cursors, nexts: Cursors, items: seq<Item>, k: nat, ghost keys: set<int>,
                 state: Cursors, counts: map<int, int>)
    returns (state': Cursors, counts': map<int, int>, changed: bool)
    requires plan == Plan(nexts, items) && nexts.Keys <= base.Keys && ItemsFit(items, nexts) && OnceEach(items)
    requires k < |items| && nexts.Keys <= keys
    requires state == AfterAcks(plan, base, k) && Counted(counts, items, k, keys)
    ensures state' == AfterAcks(plan, base, k + 1) && Counted(counts', items, k + 1, keys)
    ensures (!changed ==> state' == state) && (changed <==> SavesAt(plan, k + 1))
  {
    state', counts', changed := Release(items[k].boxes, nexts, state, counts);
    ReleasedCounts(items, k, keys, counts, counts');
    ReleasedMoves(plan, k, keys, counts, changed);
    ReleasedState(plan, base, k, keys, counts, state, state');
  }

  lemma ReleasedCounts(items: seq<Item>, k: nat, keys: set<int>, counts: map<int, int>, counts': map<int, int>)
    requires k < |items| && OnceEach(items) && Counted(counts, items, k, keys) && counts'.Keys == counts.Keys
    requires forall b :: b in counts ==> counts'[b] == counts[b] - if b in items[k].boxes then 1 else 0
    ensures Counted(counts', items, k + 1, keys)
  {
    forall b | b in keys ensures counts'[b] == |Holding(items[k + 1..], b)| {
      WaitingStep(items, k, b);
    }
  }

  lemma ReleasedMoves(plan: Plan, k: nat, keys: set<int>, counts: map<int, int>, changed: bool)
    requires k < |plan.items| && ItemsFit(plan.items, plan.nexts) && OnceEach(plan.items) && plan.nexts.Keys <= keys
    requires Counted(counts, plan.items, k, keys)
    requires changed <==> exists b :: b in plan.items[k].boxes && counts[b] == 1
    ensures changed <==> SavesAt(plan, k + 1)
  {
    forall b ensures MovesAt(plan, k + 1, b) <==> b in plan.items[k].boxes && counts[b] == 1 {
      MovesNow(plan, k, b, counts, keys);
    }
  }

  lemma ReleasedState(plan: Plan, base: Cursors, k: nat, keys: set<int>, counts: map<int, int>,
          state: Cursors, state': Cursors)
    requires k < |plan.items| && ItemsFit(plan.items, plan.nexts) && OnceEach(plan.items)
    requires plan.nexts.Keys <= base.Keys && plan.nexts.Keys <= keys
    requires state == AfterAcks(plan, base, k) && Counted(counts, plan.items, k, keys) && state'.Keys == state.Keys
    requires forall b :: b in state ==>
               state'[b] == if b in plan.items[k].boxes && counts[b] == 1 then plan.nexts[b] else state[b]
    ensures state' == AfterAcks(plan, base, k + 1)
  {
    forall b | b in base ensures state'[b] == AfterAcks(plan, base, k + 1)[b] {
      SettledStep(plan.items, k, b);
      if b in plan.items[k].boxes {
        WaitingStep(plan.items, k, b);
        WaitingNone(plan.items, k + 1, b);
      }
    }
  }

  /** The box moves at this acknowledgement exactly when its counter stands at one and this is the event. */
  lemma MovesNow(plan: Plan, k: nat, b: int, counts: map<int, int>, keys: set<int>)
    requires k < |plan.items| && ItemsFit(plan.items, plan.nexts) && OnceEach(plan.items)
    requires plan.nexts.Keys <= keys && Counted(counts, plan.items, k, keys)
    ensures MovesAt(plan, k + 1, b) <==> b in plan.items[k].boxes && counts[b] == 1
  {
    if b in plan.items[k].boxes {
      assert b in plan.nexts;
      WaitingStep(plan.items, k, b);
      WaitingNone(plan.items, k + 1, b);
    }
  }

  lemma SettledStep(items: seq<Item>, k: nat, b: int)
    requires k < |items|
    ensures Settled(items, k, b) <==> b !in items[k].boxes && Settled(items, k + 1, b)
  {
  }
}
