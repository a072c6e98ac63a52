/**
 Progress: a connection can be made ready, and a poll whose events the host takes can run to its end, from
 whatever state earlier crashes and failures have left.
 */
module DeliveryProgress {
  import opened Wrappers
  import opened Sequences
  import opened Decimal
  import opened Events
  import opened Hydration
  import opened PollPlan
  import opened WatchEngines
  import opened QueueModel
  import opened QueueRefinement
  import opened Delivery
  import opened DeliverySafety

  /** Steps of the machine, one after the other. */
  ghost predicate Path(cfg: Config, states: seq<Pipeline>, acts: seq<Act>) {
    && |states| == |acts| + 1
    && forall i :: 0 <= i < |acts| ==>
         Enabled(cfg, states[i], acts[i]) && states[i + 1] == Next(cfg, states[i], acts[i])
  }

  lemma PathJoin(cfg: Config, first: seq<Pipeline>, acts: seq<Act>, second: seq<Pipeline>, acts': seq<Act>)
    requires Path(cfg, first, acts) && Path(cfg, second, acts') && first[|acts|] == second[0]
    ensures Path(cfg, first + second[1..], acts + acts')
    ensures (first + second[1..])[0] == first[0] && (first + second[1..])[|acts| + |acts'|] == second[|acts'|]
  {
    var states, all := first + second[1..], acts + acts';
    forall i | 0 <= i < |all| ensures Enabled(cfg, states[i], all[i]) && states[i + 1] == Next(cfg, states[i], all[i]) {
      if i >= |acts| {
        assert states[i] == second[i - |acts|] && states[i + 1] == second[i - |acts| + 1];
        assert all[i] == acts'[i - |acts|];
      }
    }
  }

  /** Between polls: the sidecar is idle, the host watches, and nothing is in flight. */
  predicate AtEase(s: Pipeline) {
    s.files != [] && s.logs != [] && s.sidecar == Idle && s.host == Watching && s.toHost == [] && s.toSidecar == []
  }

  /**
   Nothing is assumed of the environment: a save may end in any way, a sender be authorized or not, a process
   fail with or without a report, the connection stop and a queued event be completed at any time, and the
   machine go down to any content it may have on disk.
   */
  lemma EnvironmentFree(cfg: Config, s: Pipeline, api: Api, boxes: seq<Box>, outcome: SaveOutcome, announced: bool,
          authorized: bool, report: Option<string>, id: string, file: nat, log: nat)
    requires s.files != [] && s.logs != []
    ensures s.sidecar == Starting && LoadCursors(Latest(s.files)).Ok?
            && Baseline(api, boxes, CursorsIn(Latest(s.files))).Ok? ==>
              Enabled(cfg, s, Side(Initialise(api, boxes, outcome, announced)))
    ensures AtStage(s, Saving) ==> Enabled(cfg, s, Side(SaveState(outcome)))
    ensures s.host in {AwaitingReady, Watching} && s.toHost != [] ==>
              Enabled(cfg, s, OnHost(Receive(authorized, outcome)))
    ensures s.sidecar != Down ==> Enabled(cfg, s, Side(Die(report)))
    ensures Enabled(cfg, s, OnHost(Stop)) && Enabled(cfg, s, OnHost(Finish(id, outcome)))
    ensures file < |s.files| && log < |s.logs| ==> Enabled(cfg, s, PowerLoss(file, log))
  {
  }

  // ---------------------------------------------------------------- one event

  /** The latest poll is `poll`, it has `k` acknowledgements, and nothing is in flight. */
  ghost predicate Stands(s: Pipeline, poll: Poll, k: nat) {
    && s.files != [] && s.logs != [] && s.record.polls != [] && Latest(s.record.polls) == poll
    && s.sidecar == Polling(k, Saving) && s.host == Watching && s.toHost == [] && s.toSidecar == []
  }

  /** The host's queue takes the event, or refuses it without failing. */
  predicate Welcome(cfg: Config, log: Log, e: HeyEvent, authorized: HeyEvent -> bool) {
    && e.Valid() && e.accountId == cfg.account
    && !LogStep(log, IngestOp(e, authorized(e)), Saved, cfg.lim).1.Failed?
  }

  function TakenIn(cfg: Config, log: Log, e: HeyEvent, authorized: HeyEvent -> bool): Log {
    LogStep(log, IngestOp(e, authorized(e)), Saved, cfg.lim).0
  }

  /** The sidecar's two steps. */
  lemma EmitRuns(cfg: Config, s: Pipeline, poll: Poll, k: nat) returns (s2: Pipeline)
    requires Stands(s, poll, k) && k < |poll.plan.items|
    ensures var e := poll.plan.items[k].event;
            var s1 := s.(files := [Stored(AfterAcks(poll.plan, poll.base, k))], sidecar := Polling(k, Emitting));
            && s2 == s1.(toHost := [EventFrame(e)], sidecar := Polling(k, Awaiting))
            && Path(cfg, [s, s1, s2], [Side(SaveState(Saved)), Side(Emit)])
  {
    var s1 := s.(files := [Stored(AfterAcks(poll.plan, poll.base, k))], sidecar := Polling(k, Emitting));
    assert Enabled(cfg, s, Side(SaveState(Saved))) && Next(cfg, s, Side(SaveState(Saved))) == s1;
    assert s1.toHost + [EventFrame(poll.plan.items[k].event)] == [EventFrame(poll.plan.items[k].event)];
    s2 := Next(cfg, s1, Side(Emit));
  }

  /** The host takes an event's frame in. */
  lemma ReceiveRuns(cfg: Config, s: Pipeline, e: HeyEvent, authorized: HeyEvent -> bool) returns (s': Pipeline)
    requires s.logs != [] && s.host == Watching && s.toHost == [EventFrame(e)]
    requires Welcome(cfg, Current(s.logs), e, authorized)
    ensures var a := OnHost(Receive(authorized(e), Saved));
            Enabled(cfg, s, a) && s' == Next(cfg, s, a)
    ensures s'.logs != [] && Current(s'.logs) == TakenIn(cfg, Current(s.logs), e, authorized)
    ensures s'.host.Owes? && s'.host.receipt.id == e.eventId
    ensures s' == s.(toHost := [], logs := s'.logs, host := s'.host)
  {
    PostReadyExact(cfg.account, e);
    s' := Next(cfg, s, OnHost(Receive(authorized(e), Saved)));
    assert s.toHost[1..] == [];
  }

  /** The acknowledgement crosses back. */
  lemma AckRuns(cfg: Config, s: Pipeline, poll: Poll, k: nat) returns (s1: Pipeline, s2: Pipeline)
    requires s.files != [] && s.record.polls != [] && Latest(s.record.polls) == poll && s.logs != []
    requires k < |poll.plan.items| && s.sidecar == Polling(k, Awaiting) && s.toSidecar == []
    requires s.host.Owes? && s.host.receipt.id == poll.plan.items[k].event.eventId
    ensures Path(cfg, [s, s1, s2], [OnHost(SendAck), Side(TakeAck)])
    ensures s2 == s.(host := Watching, sidecar := Polling(k + 1, Saving),
                     record := s.record.(acked := s.record.acked + [s.host.receipt]))
  {
    s1 := Next(cfg, s, OnHost(SendAck));
    assert s1.toSidecar == [s.host.receipt.id];
    s2 := Next(cfg, s1, Side(TakeAck));
    assert s1.toSidecar[1..] == [];
  }

  /** One event's round. */
  lemma RoundRuns(cfg: Config, s: Pipeline, poll: Poll, k: nat, authorized: HeyEvent -> bool)
    returns (states: seq<Pipeline>, acts: seq<Act>)
    requires Stands(s, poll, k) && k < |poll.plan.items|
    requires Welcome(cfg, Current(s.logs), poll.plan.items[k].event, authorized)
    ensures Path(cfg, states, acts) && states[0] == s
    ensures var t, e := states[|acts|], poll.plan.items[k].event;
            && Stands(t, poll, k + 1)
            && Current(t.logs) == TakenIn(cfg, Current(s.logs), e, authorized)
            && |t.record.acked| == |s.record.acked| + 1 && s.record.acked <= t.record.acked
            && t.record.acked[|s.record.acked|].id == e.eventId
            && t.record == s.record.(acked := t.record.acked)
  {
    var e := poll.plan.items[k].event;
    var s2 := EmitRuns(cfg, s, poll, k);
    var s1 := s.(files := [Stored(AfterAcks(poll.plan, poll.base, k))], sidecar := Polling(k, Emitting));
    var s3 := ReceiveRuns(cfg, s2, e, authorized);
    var emit, receive := [Side(SaveState(Saved)), Side(Emit)], [OnHost(Receive(authorized(e), Saved))];
    assert Path(cfg, [s2, s3], receive);
    PathJoin(cfg, [s, s1, s2], emit, [s2, s3], receive);
    var s4, s5 := AckRuns(cfg, s3, poll, k);
    PathJoin(cfg, [s, s1, s2] + [s2, s3][1..], emit + receive, [s3, s4, s5], [OnHost(SendAck), Side(TakeAck)]);
    states := [s, s1, s2] + [s2, s3][1..] + [s3, s4, s5][1..];
    acts := emit + receive + [OnHost(SendAck), Side(TakeAck)];
  }

  // ---------------------------------------------------------------- all events of a plan

  /** The queue takes the items in, or refuses them, one after the other, without failing. */
  ghost predicate AllWelcome(cfg: Config, log: Log, items: seq<Item>, authorized: HeyEvent -> bool)
    decreases |items|
  {
    items != [] ==>
      && Welcome(cfg, log, items[0].event, authorized)
      && AllWelcome(cfg, TakenIn(cfg, log, items[0].event, authorized), items[1..], authorized)
  }

  ghost function AllTakenIn(cfg: Config, log: Log, items: seq<Item>, authorized: HeyEvent -> bool): Log
    decreases |items|
  {
    if items == [] then log
    else AllTakenIn(cfg, TakenIn(cfg, log, items[0].event, authorized), items[1..], authorized)
  }

  /** Events of the host's account are welcome as long as the queue has room for all of them. */
  lemma {:induction false} RoomWelcomes(cfg: Config, log: Log, items: seq<Item>, authorized: HeyEvent -> bool)
    requires forall i :: 0 <= i < |items| ==> items[i].event.Valid() && items[i].event.accountId == cfg.account
    requires |log.pending| + |items| <= cfg.lim.maxPending && forall j :: cfg.lim.sizeOf(j) <= cfg.lim.maxBytes
    ensures AllWelcome(cfg, log, items, authorized)
    decreases |items|
  {
    if items != [] {
      RoomWelcomes(cfg, TakenIn(cfg, log, items[0].event, authorized), items[1..], authorized);
    }
  }

  /** From `s` to `t` the items were acknowledged, in their order, and nothing else was. */
  ghost predicate Acknowledges(s: Pipeline, t: Pipeline, items: seq<Item>) {
    && |t.record.acked| == |s.record.acked| + |items| && s.record.acked <= t.record.acked
    && forall i :: 0 <= i < |items| ==> t.record.acked[|s.record.acked| + i].id == items[i].event.eventId
  }

  /** What the rounds from acknowledgement `k` on leave. */
  ghost predicate RoundsLeave(cfg: Config, s: Pipeline, poll: Poll, k: nat, authorized: HeyEvent -> bool, t: Pipeline) {
    && k <= |poll.plan.items| && s.logs != [] && Stands(t, poll, |poll.plan.items|)
    && Current(t.logs) == AllTakenIn(cfg, Current(s.logs), poll.plan.items[k..], authorized)
    && Acknowledges(s, t, poll.plan.items[k..])
    && t.record == s.record.(acked := t.record.acked)
  }

  lemma RoundsCompose(cfg: Config, s: Pipeline, poll: Poll, k: nat, authorized: HeyEvent -> bool, mid: Pipeline,
          t: Pipeline)
    requires k < |poll.plan.items| && s.logs != [] && mid.logs != []
    requires Current(mid.logs) == TakenIn(cfg, Current(s.logs), poll.plan.items[k].event, authorized)
    requires |mid.record.acked| == |s.record.acked| + 1 && s.record.acked <= mid.record.acked
    requires mid.record.acked[|s.record.acked|].id == poll.plan.items[k].event.eventId
    requires mid.record == s.record.(acked := mid.record.acked)
    requires RoundsLeave(cfg, mid, poll, k + 1, authorized, t)
    ensures RoundsLeave(cfg, s, poll, k, authorized, t)
  {
    var items := poll.plan.items;
    assert items[k..][1..] == items[k + 1..];
    forall i | 0 <= i < |items[k..]| ensures t.record.acked[|s.record.acked| + i].id == items[k..][i].event.eventId {
      if i > 0 {
        assert items[k..][i] == items[k + 1..][i - 1];
      } else {
        assert t.record.acked[|s.record.acked|] == mid.record.acked[|s.record.acked|];
      }
    }
  }

  lemma {:induction false} RoundsRun(cfg: Config, s: Pipeline, poll: Poll, k: nat, authorized: HeyEvent -> bool)
    returns (states: seq<Pipeline>, acts: seq<Act>)
    requires Stands(s, poll, k) && k <= |poll.plan.items|
    requires AllWelcome(cfg, Current(s.logs), poll.plan.items[k..], authorized)
    ensures Path(cfg, states, acts) && states[0] == s && RoundsLeave(cfg, s, poll, k, authorized, states[|acts|])
    decreases |poll.plan.items| - k
  {
    if k == |poll.plan.items| {
      states, acts := [s], [];
    } else {
      assert poll.plan.items[k..][1..] == poll.plan.items[k + 1..];
      states, acts := RoundRuns(cfg, s, poll, k, authorized);
      var mid := states[|acts|];
      var rest, acts' := RoundsRun(cfg, mid, poll, k + 1, authorized);
      RoundsCompose(cfg, s, poll, k, authorized, mid, rest[|acts'|]);
      PathJoin(cfg, states, acts, rest, acts');
      states, acts := states + rest[1..], acts + acts';
    }
  }

  /** Every box whose increment the poll read is at that increment's next cursor, every other where it was. */
  ghost predicate AllMoved(file: CursorFile, poll: Poll) {
    && file.Stored? && file.cursors.Keys == poll.base.Keys
    && forall b :: b in poll.base ==>
         file.cursors[b] == if b in poll.plan.nexts then poll.plan.nexts[b] else poll.base[b]
  }

  /** What a poll that ran to its end leaves. */
  ghost predicate PollLeaves(cfg: Config, s: Pipeline, poll: Poll, authorized: HeyEvent -> bool, t: Pipeline) {
    && AtEase(t) && s.logs != [] && |t.files| == 1 && AllMoved(t.files[0], poll)
    && Current(t.logs) == AllTakenIn(cfg, Current(s.logs), poll.plan.items, authorized)
    && Acknowledges(s, t, poll.plan.items)
    && t.record == s.record.(polls := s.record.polls + [poll], acked := t.record.acked)
  }

  lemma PollEnds(cfg: Config, s: Pipeline, poll: Poll) returns (t: Pipeline)
    requires Stands(s, poll, |poll.plan.items|)
    ensures exists mid :: Path(cfg, [s, mid, t], [Side(SaveState(Saved)), Side(EndPoll)])
    ensures AtEase(t) && t == s.(files := t.files, sidecar := Idle) && |t.files| == 1 && AllMoved(t.files[0], poll)
  {
    var n := |poll.plan.items|;
    var mid := s.(files := [Stored(AfterAcks(poll.plan, poll.base, n))], sidecar := Polling(n, Emitting));
    assert Next(cfg, s, Side(SaveState(Saved))) == mid;
    t := mid.(sidecar := Idle);
    assert Path(cfg, [s, mid, t], [Side(SaveState(Saved)), Side(EndPoll)]);
    assert forall b :: Settled(poll.plan.items, n, b);
  }

  /**
   From rest, any poll whose plan is readable and whose events the host takes has a run to its end: all its
   events are acknowledged in order, the queue has taken them in, and every box has moved.
   */
  lemma PollRuns(cfg: Config, s: Pipeline, api: Api, boxes: seq<Box>, plan: Plan, authorized: HeyEvent -> bool)
    returns (states: seq<Pipeline>, acts: seq<Act>)
    requires AtEase(s) && DistinctBoxes(boxes) && PlanHere(Latest(s.files), api, Some(boxes), cfg.own) == Ok(plan)
    requires AllWelcome(cfg, Current(s.logs), plan.items, authorized)
    ensures Path(cfg, states, acts) && states[0] == s
    ensures PollLeaves(cfg, s, Poll(api, boxes, CursorsIn(Latest(s.files)), plan), authorized, states[|acts|])
  {
    var poll := Poll(api, boxes, CursorsIn(Latest(s.files)), plan);
    var s1 := s.(sidecar := Polling(0, Saving), record := s.record.(polls := s.record.polls + [poll]));
    assert Enabled(cfg, s, Side(StartPoll(api, boxes))) && Next(cfg, s, Side(StartPoll(api, boxes))) == s1;
    assert Path(cfg, [s, s1], [Side(StartPoll(api, boxes))]);
    assert plan.items[0..] == plan.items;
    var rounds, acts1 := RoundsRun(cfg, s1, poll, 0, authorized);
    PathJoin(cfg, [s, s1], [Side(StartPoll(api, boxes))], rounds, acts1);
    states, acts := [s, s1] + rounds[1..], [Side(StartPoll(api, boxes))] + acts1;
    var before := states[|acts|];
    var t := PollEnds(cfg, before, poll);
    var mid :| Path(cfg, [before, mid, t], [Side(SaveState(Saved)), Side(EndPoll)]);
    PathJoin(cfg, states, acts, [before, mid, t], [Side(SaveState(Saved)), Side(EndPoll)]);
    states, acts := states + [before, mid, t][1..], acts + [Side(SaveState(Saved)), Side(EndPoll)];
  }

  // ---------------------------------------------------------------- what is saved before what

  /** While an event is to be written or awaited, readers see the cursors that the acks so far have earned. */
  ghost predicate SavedFirst(s: Pipeline) {
    s.files != [] && s.record.polls != []
    && (AtStage(s, Emitting) || AtStage(s, Awaiting) ==> Latest(s.files) == Stored(Earnings(s)))
  }

  ghost predicate SavedIfPolling(s: Pipeline) {
    s.sidecar.Polling? ==> SavedFirst(s)
  }

  lemma NextSavesFirst(cfg: Config, s: Pipeline, a: Act)
    requires Enabled(cfg, s, a) && SavedIfPolling(s)
    ensures SavedIfPolling(Next(cfg, s, a))
  {
    match a
    case Side(side) => SideSavesFirst(cfg, s, side);
    case OnHost(act) => HostSavesFirst(cfg, s, act);
    case PowerLoss(_, _) =>
  }

  lemma SideSavesFirst(cfg: Config, s: Pipeline, a: SidecarAct)
    requires SidecarEnabled(cfg, s, a) && SavedIfPolling(s)
    ensures SavedIfPolling(SidecarStep(cfg, s, a))
  {
  }

  lemma HostSavesFirst(cfg: Config, s: Pipeline, a: HostAct)
    requires HostEnabled(s, a) && SavedIfPolling(s)
    ensures SavedIfPolling(HostStep(cfg, s, a))
  {
  }

  lemma {:induction false} RunSavesFirst(cfg: Config, states: seq<Pipeline>, acts: seq<Act>, n: nat)
    requires Run(cfg, states, acts) && n <= |acts|
    ensures SavedIfPolling(states[n])
  {
    if n > 0 {
      RunSavesFirst(cfg, states, acts, n - 1);
      NextSavesFirst(cfg, states[n - 1], acts[n - 1]);
    }
  }

  /**
   In every run, with any crashes: an event is written only when readers see the cursors earned by the acks before
   it; and a poll ends only when all its events were acknowledged and readers see every box moved.
   */
  lemma SavedBeforeEmitted(cfg: Config, states: seq<Pipeline>, acts: seq<Act>, n: nat)
    requires Run(cfg, states, acts) && n < |acts| && acts[n] in {Side(Emit), Side(EndPoll)}
    ensures states[n].record.polls != [] && states[n].sidecar.Polling? && states[n].files != []
    ensures var s, poll := states[n], Latest(states[n].record.polls);
            && (acts[n] == Side(Emit) ==> Latest(s.files) == Stored(AfterAcks(poll.plan, poll.base, s.sidecar.acked)))
            && (acts[n] == Side(EndPoll) ==>
                  && AllMoved(Latest(s.files), poll)
                  && forall i :: 0 <= i < |poll.plan.items| ==> IsAcked(s.record, poll.plan.items[i].event.eventId))
  {
    RunSavesFirst(cfg, states, acts, n);
    RunInv(cfg, states, acts, n);
    var s, poll := states[n], Latest(states[n].record.polls);
    assert Enabled(cfg, s, acts[n]);
    assert forall b :: Settled(poll.plan.items, |poll.plan.items|, b);
  }

  // ---------------------------------------------------------------- errors

  /**
   A sidecar that ends with an error while nothing is in flight says so, and the host that hears it gives the
   connection up, whatever the reason given, with nothing taken in.
   */
  lemma ErrorHeard(cfg: Config, s: Pipeline, text: string, authorized: bool, outcome: SaveOutcome)
    returns (told: Pipeline)
    requires s.files != [] && s.logs != [] && s.sidecar != Down && s.toHost == []
    requires s.host in {AwaitingReady, Watching}
    ensures Path(cfg, [s, told, Halted(s)], [Side(Die(Some(text))), OnHost(Receive(authorized, outcome))])
  {
    told := Next(cfg, s, Side(Die(Some(text))));
    assert told.toHost == [FatalFrame(text)];
    ReadyFrameExact(FatalFrame(text));
    FatalFrameExact(FatalFrame(text));
    assert FatalFrame(text)[TypeKey] == Str("fatal");
  }

  // ---------------------------------------------------------------- readiness

  /**
   From any state at all the host can start over: a file that loads and boxes that can be listed bring the
   connection to rest, with a cursor for each box, and with the queue as it was.
   */
  lemma ReadyRuns(cfg: Config, s: Pipeline, api: Api, boxes: seq<Box>, based: Cursors)
    returns (states: seq<Pipeline>, acts: seq<Act>)
    requires s.files != [] && s.logs != [] && LoadCursors(Latest(s.files)).Ok?
    requires Baseline(api, boxes, CursorsIn(Latest(s.files))) == Ok(based)
    ensures Path(cfg, states, acts) && states[0] == s
    ensures var t := states[|acts|];
            && AtEase(t) && Latest(t.files) == Stored(based) && t.logs == s.logs
            && t.record == Announce(s.record, based)
  {
    var halted := Halted(s);
    var launched := halted.(host := AwaitingReady, sidecar := Starting);
    var a := Side(Initialise(api, boxes, Saved, true));
    var ready := Initialised(launched, based, Saved, true);
    var t := ready.(host := Watching, toHost := []);
    assert Next(cfg, s, OnHost(Stop)) == halted && Next(cfg, halted, OnHost(Launch)) == launched;
    assert Next(cfg, launched, a) == ready && ready.toHost == [ReadyFrame()];
    ReadyFrameExact(ReadyFrame());
    assert ready.toHost[1..] == [];
    assert Next(cfg, ready, OnHost(Receive(true, Saved))) == t;
    states := [s, halted, launched, ready, t];
    acts := [OnHost(Stop), OnHost(Launch), a, OnHost(Receive(true, Saved))];
  }

  /**
   Whatever a run has been through, crashes and failed saves included, it can be continued so that every event
   the boxes owe is delivered: readiness is announced, and then a poll runs to its end.
   */
  lemma DeliversAfterAll(cfg: Config, states: seq<Pipeline>, acts: seq<Act>, api: Api, boxes: seq<Box>,
          based: Cursors, plan: Plan, authorized: HeyEvent -> bool)
    returns (states': seq<Pipeline>, acts': seq<Act>)
    requires Run(cfg, states, acts)
    requires var s := states[|acts|];
             && s.files != [] && s.logs != [] && LoadCursors(Latest(s.files)).Ok?
             && Baseline(api, boxes, CursorsIn(Latest(s.files))) == Ok(based)
             && DistinctBoxes(boxes) && PlanHere(Stored(based), api, Some(boxes), cfg.own) == Ok(plan)
             && AllWelcome(cfg, Current(s.logs), plan.items, authorized)
    ensures Run(cfg, states', acts') && states <= states' && acts <= acts'
    ensures var t, poll := states'[|acts'|], Poll(api, boxes, based, plan);
            && AtEase(t) && AllMoved(Latest(t.files), poll)
            && Current(t.logs) == AllTakenIn(cfg, Current(states[|acts|].logs), plan.items, authorized)
            && Acknowledges(states[|acts|], t, plan.items)
  {
    var s := states[|acts|];
    var first, acts1 := ReadyRuns(cfg, s, api, boxes, based);
    var ready := first[|acts1|];
    var second, acts2 := PollRuns(cfg, ready, api, boxes, plan, authorized);
    PathJoin(cfg, states, acts, first, acts1);
    PathJoin(cfg, states + first[1..], acts + acts1, second, acts2);
    states', acts' := states + first[1..] + second[1..], acts + acts1 + acts2;
  }
}
