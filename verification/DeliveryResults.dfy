/** The promises of the pipeline, over every run of its processes and crashes. */
module DeliveryResults {
  import opened Wrappers
  import opened Sequences
  import opened Decimal
  import opened Events
  import opened Hydration
  import opened PollPlan
  import opened WatchEngines
  import opened QueueModel
  import opened QueueRefinement
  import opened Delivery
  import opened DeliverySafety
  import opened DeliveryBaselines
  import PF = PlanFacts

  // ---------------------------------------------------------------- no event is lost

  /** The API named this cursor as the box's next, and every event the box owed till then was acknowledged. */
  ghost predicate IncrementAcked(cfg: Config, r: Record, poll: Poll, box: Box, next: Cursor) {
    && box in poll.boxes && PF.Readable(poll.api, poll.base, box) && PF.NextOf(poll.api, poll.base, box) == Some(next)
    && forall p, e :: PF.Owes(poll.api, cfg.own, poll.base, box, p, e) ==> IsAcked(r, e.eventId)
  }

  /**
   The cursor is the box's last announced baseline, or the next cursor of an increment all of whose events
   were acknowledged and which was read from a cursor of the same kind.
   */
  ghost predicate Delivered(cfg: Config, r: Record, n: nat, b: int, c: Cursor)
    decreases n
  {
    IsBaseline(r, b, c)
    || exists i, box :: 0 <= i < n && AckedAt(cfg, r, i, box, b, c) && Delivered(cfg, r, i, b, r.polls[i].base[b])
  }

  ghost predicate AckedAt(cfg: Config, r: Record, i: nat, box: Box, b: int, c: Cursor) {
    i < |r.polls| && box.id == b && b in r.polls[i].base && IncrementAcked(cfg, r, r.polls[i], box, c)
  }

  /** A cursor a plan names belongs to a box that was listed. */
  lemma NextHasBox(api: Api, boxes: seq<Box>, own: string, base: Cursors, b: int) returns (box: Box)
    requires DistinctBoxes(boxes) && PlanOf(api, Some(boxes), own, base).Ok?
    requires b in PlanOf(api, Some(boxes), own, base).value.nexts
    ensures box in boxes && box.id == b
  {
    var sorted := SortBy(BoxLess, boxes);
    var incs := ReadIncrements(api, base, sorted).value;
    SortedIds(boxes);
    SortedReads(api, boxes, base);
    ReadIncrementsSpec(api, base, sorted);
    NextsSpec(incs);
    var inc :| inc in incs && inc.key == b && inc.next.Some?;
    var i :| 0 <= i < |incs| && incs[i] == inc;
    assert Reads(api, base, sorted[i], incs[i]);
    box := sorted[i];
    assert box in sorted;
  }

  /** What acknowledging everything a poll emits for a box means for the increment it read. */
  lemma AllAckedMeans(cfg: Config, r: Record, poll: Poll, b: int) returns (box: Box)
    requires Planned(cfg, poll) && b in poll.plan.nexts && AllAcked(r, poll, b)
    ensures box.id == b && IncrementAcked(cfg, r, poll, box, poll.plan.nexts[b])
  {
    box := NextHasBox(poll.api, poll.boxes, cfg.own, poll.base, b);
    PF.PlanExact(poll.api, poll.boxes, cfg.own, poll.base);
    assert NextIs(poll.plan, box.id, PF.NextOf(poll.api, poll.base, box));
    forall p, e | PF.Owes(poll.api, cfg.own, poll.base, box, p, e) ensures IsAcked(r, e.eventId) {
      assert PF.OwesId(poll.api, cfg.own, poll.base, box, e.eventId);
      assert Emits(poll.plan, e.eventId, box.id);
    }
  }

  lemma {:induction false} ChainDelivered(cfg: Config, r: Record, n: nat, b: int, c: Cursor)
    requires PollsOk(cfg, r) && Chained(r, n, b, c)
    ensures Delivered(cfg, r, n, b, c)
    decreases n
  {
    if !IsBaseline(r, b, c) {
      var i :| 0 <= i < n && LinkOf(r, i, b, c) && Chained(r, i, b, r.polls[i].base[b]);
      ChainDelivered(cfg, r, i, b, r.polls[i].base[b]);
      var box := AllAckedMeans(cfg, r, r.polls[i], b);
      assert AckedAt(cfg, r, i, box, b, c);
    }
  }

  /**
   No loss, in every run with any crashes of the sidecar, the host and the machine. A cursor that is, or after
   a power loss may be, on disk was reached from the box's baseline through increments all of whose events (but
   the owner's own) were acknowledged, if readiness was announced since the box came into the file; that is the
   baseline of the first readiness exactly if no power loss since brought back a file without the box. And each
   acknowledgement was for an event whose sender is not authorized, or for one that is completed or pending in
   every content the queue may have on disk, or for one that was exposed when it was refused as seen.
   */
  lemma NoLoss(cfg: Config, states: seq<Pipeline>, acts: seq<Act>, n: nat, j: nat, b: int)
    requires Run(cfg, states, acts) && n <= |acts|
    requires j < |states[n].files| && b in CursorsIn(states[n].files[j])
    ensures var r := states[n].record;
            && (b in r.inForce ==> Delivered(cfg, r, |r.polls|, b, CursorsIn(states[n].files[j])[b]))
            && (b in r.baselines ==> (FirstInForce(r, b) <==> !Dropped(states, acts, n, b)))
            && (b !in r.inForce ==> b !in r.baselines || Dropped(states, acts, n, b))
    ensures forall ack :: ack in states[n].record.acked && ack.why.Held() ==> Secure(states[n].logs, ack.id)
  {
    RunInv(cfg, states, acts, n);
    var s := states[n];
    assert CursorsChained(s.record, |s.record.polls|, CursorsIn(s.files[j]));
    if b in s.record.inForce {
      ChainDelivered(cfg, s.record, |s.record.polls|, b, CursorsIn(s.files[j])[b]);
    }
    FirstBaselineExactly(cfg, states, acts, n, b);
    forall ack | ack in s.record.acked && ack.why.Held() ensures Secure(s.logs, ack.id) {
      assert AccountedFor(s, ack);
    }
  }

  // ---------------------------------------------------------------- exactly when an acknowledgement is exposed

  function OutcomeOf(a: Act): SaveOutcome {
    match a
    case OnHost(Receive(_, outcome)) => outcome
    case OnHost(Finish(_, outcome)) => outcome
    case _ => Saved
  }

  /** The queue operation a step performs, if it performs one. */
  ghost function OpOf(cfg: Config, s: Pipeline, a: Act): Option<Op> {
    match a
    case OnHost(Receive(authorized, _)) =>
      if s.host == Watching && s.toHost != [] && PostReady(cfg.account, s.toHost[0]).Some?
      then Some(IngestOp(PostReady(cfg.account, s.toHost[0]).value, authorized)) else None
    case OnHost(Finish(id, _)) => Some(CompleteOp(id))
    case _ => None
  }

  /** The operation's save returned. */
  predicate Returned(answer: Answer) {
    answer == Accepted || answer == Completed
  }

  /** After the step only one content is possible: a save of the queue returned, or the machine came up again. */
  ghost predicate Syncs(cfg: Config, s: Pipeline, a: Act) {
    || a.PowerLoss?
    || (&& s.logs != [] && OpOf(cfg, s, a).Some?
        && Returned(LogStep(Current(s.logs), OpOf(cfg, s, a).value, OutcomeOf(a), cfg.lim).1))
  }

  /** The step takes the identity into the queue by a save that fails after its rename. */
  ghost predicate TakesUnsynced(s: Pipeline, a: Act, s': Pipeline, id: string) {
    && s.logs != [] && s'.logs != [] && OutcomeOf(a) == FailedAfter
    && !TookIn(Current(s.logs), id) && TookIn(Current(s'.logs), id)
  }

  /** The identity was taken in by such a save, and none has returned and the machine has not gone down since. */
  ghost predicate Unsynced(cfg: Config, states: seq<Pipeline>, acts: seq<Act>, n: nat, id: string)
    requires n <= |acts| < |states|
  {
    exists i: nat :: i < n && TakenAt(states, acts, i, id) && NoneSyncs(cfg, states, acts, i, n)
  }

  ghost predicate TakenAt(states: seq<Pipeline>, acts: seq<Act>, i: nat, id: string)
    requires i < |acts| < |states|
  {
    TakesUnsynced(states[i], acts[i], states[i + 1], id)
  }

  ghost predicate NoneSyncs(cfg: Config, states: seq<Pipeline>, acts: seq<Act>, i: nat, n: nat)
    requires n <= |acts| < |states|
  {
    forall k :: i < k < n ==> !Syncs(cfg, states[k], acts[k])
  }

  /** What a step does to the contents the queue may have on disk. */
  ghost predicate QueueStep(cfg: Config, s: Pipeline, a: Act, s': Pipeline) {
    && s.logs != [] && s'.logs != []
    && (Syncs(cfg, s, a) ==> |s'.logs| == 1 && (!a.PowerLoss? ==> OutcomeOf(a) == Saved))
    && (!Syncs(cfg, s, a) ==>
          s'.logs == s.logs || (OutcomeOf(a) == FailedAfter && s'.logs == s.logs + [Current(s'.logs)]))
    && (a.PowerLoss? || forall id :: TookIn(Current(s.logs), id) ==> TookIn(Current(s'.logs), id))
  }

  lemma LogEffect(cfg: Config, s: Pipeline, a: Act)
    requires Enabled(cfg, s, a) && s.logs != []
    ensures QueueStep(cfg, s, a, Next(cfg, s, a))
  {
    match a
    case OnHost(Receive(authorized, outcome)) => ReceiveEffect(cfg, s, authorized, outcome);
    case OnHost(Finish(done, outcome)) => FinishEffect(cfg, s, done, outcome);
    case OnHost(_) =>
    case Side(side) => SidecarLeaves(cfg, s, side);
    case PowerLoss(_, _) =>
  }

  lemma ReceiveEffect(cfg: Config, s: Pipeline, authorized: bool, outcome: SaveOutcome)
    requires s.logs != [] && HostEnabled(s, Receive(authorized, outcome))
    ensures QueueStep(cfg, s, OnHost(Receive(authorized, outcome)), HostStep(cfg, s, Receive(authorized, outcome)))
  {
    var a := OnHost(Receive(authorized, outcome));
    if OpOf(cfg, s, a).Some? {
      forall id
        ensures TookIn(Current(s.logs), id) ==>
                  TookIn(LogStep(Current(s.logs), OpOf(cfg, s, a).value, outcome, cfg.lim).0, id)
      {
        StepTakes(Current(s.logs), OpOf(cfg, s, a).value, outcome, cfg.lim, id);
      }
    }
  }

  lemma FinishEffect(cfg: Config, s: Pipeline, done: string, outcome: SaveOutcome)
    requires s.logs != []
    ensures QueueStep(cfg, s, OnHost(Finish(done, outcome)), HostStep(cfg, s, Finish(done, outcome)))
  {
    forall id
      ensures TookIn(Current(s.logs), id) ==>
                TookIn(LogStep(Current(s.logs), CompleteOp(done), outcome, cfg.lim).0, id)
    {
      StepTakes(Current(s.logs), CompleteOp(done), outcome, cfg.lim, id);
    }
  }

  /**
   Over every run: an identity the queue shows is missing from some content a power loss may bring back if
   and only if it was taken in by a save that failed after its rename, and since then no save of the queue
   has returned and the machine has not gone down. All of this the host has seen.
   */
  lemma {:induction false} NotSecureExactly(cfg: Config, states: seq<Pipeline>, acts: seq<Act>, n: nat, id: string)
    requires Run(cfg, states, acts) && n <= |acts|
    requires states[n].logs != [] && TookIn(Current(states[n].logs), id)
    ensures !Secure(states[n].logs, id) <==> Unsynced(cfg, states, acts, n, id)
  {
    if n > 0 {
      QueueStepAt(cfg, states, acts, n - 1);
      UnsyncedGrows(cfg, states, acts, n - 1, id);
      SecureStep(cfg, states[n - 1], acts[n - 1], states[n], id);
      if !Syncs(cfg, states[n - 1], acts[n - 1]) && TookIn(Current(states[n - 1].logs), id) {
        NotSecureExactly(cfg, states, acts, n - 1, id);
      }
    }
  }

  lemma QueueStepAt(cfg: Config, states: seq<Pipeline>, acts: seq<Act>, n: nat)
    requires Run(cfg, states, acts) && n < |acts|
    ensures QueueStep(cfg, states[n], acts[n], states[n + 1])
  {
    RunInv(cfg, states, acts, n);
    LogEffect(cfg, states[n], acts[n]);
  }

  lemma SecureStep(cfg: Config, s: Pipeline, a: Act, s': Pipeline, id: string)
    requires QueueStep(cfg, s, a, s') && TookIn(Current(s'.logs), id)
    ensures Syncs(cfg, s, a) ==> Secure(s'.logs, id) && !TakesUnsynced(s, a, s', id)
    ensures !Syncs(cfg, s, a) && TookIn(Current(s.logs), id) ==> (Secure(s'.logs, id) <==> Secure(s.logs, id))
    ensures !Syncs(cfg, s, a) && !TookIn(Current(s.logs), id) ==>
              !Secure(s'.logs, id) && TakesUnsynced(s, a, s', id)
  {
    if Syncs(cfg, s, a) {
      assert s'.logs[0] == Current(s'.logs);
    } else {
      assert forall i :: 0 <= i < |s.logs| ==> s'.logs[i] == s.logs[i];
      assert s'.logs[|s.logs| - 1] == Current(s.logs);
    }
  }

  lemma UnsyncedGrows(cfg: Config, states: seq<Pipeline>, acts: seq<Act>, n: nat, id: string)
    requires n < |acts| < |states|
    ensures Unsynced(cfg, states, acts, n + 1, id) <==>
              || TakenAt(states, acts, n, id)
              || (Unsynced(cfg, states, acts, n, id) && !Syncs(cfg, states[n], acts[n]))
  {
    if TakenAt(states, acts, n, id) {
      assert NoneSyncs(cfg, states, acts, n, n + 1);
    } else if Unsynced(cfg, states, acts, n, id) && !Syncs(cfg, states[n], acts[n]) {
      var i: nat :| i < n && TakenAt(states, acts, i, id) && NoneSyncs(cfg, states, acts, i, n);
      NoneMore(cfg, states, acts, i, n);
    } else if Unsynced(cfg, states, acts, n + 1, id) {
      var i: nat :| i < n + 1 && TakenAt(states, acts, i, id) && NoneSyncs(cfg, states, acts, i, n + 1);
      NoneMore(cfg, states, acts, i, n);
    }
  }

  lemma NoneMore(cfg: Config, states: seq<Pipeline>, acts: seq<Act>, i: nat, n: nat)
    requires i < n < |acts| < |states|
    ensures NoneSyncs(cfg, states, acts, i, n + 1) <==>
              NoneSyncs(cfg, states, acts, i, n) && !Syncs(cfg, states[n], acts[n])
  {
  }

  /**
   Which acknowledgement a received event earns, over every run: turned away if and only if its sender is
   not authorized; exposed if and only if it is authorized, was seen before, and was taken in by a save
   that failed after its rename with none returned and no power loss since; held otherwise, and then it is
   in every content the queue may have on disk.
   */
  lemma EarnedExactly(cfg: Config, states: seq<Pipeline>, acts: seq<Act>, n: nat, authorized: bool,
          outcome: SaveOutcome)
    requires Run(cfg, states, acts) && n < |acts| && acts[n] == OnHost(Receive(authorized, outcome))
    requires states[n].host == Watching && states[n + 1].host.Owes?
    ensures states[n].logs != []
    ensures var ack := states[n + 1].host.receipt;
            && (ack.why == TurnedAway <==> !authorized)
            && (ack.why == Exposed <==>
                  authorized && ack.id in View(Current(states[n].logs), cfg.lim).seen
                    && Unsynced(cfg, states, acts, n, ack.id))
            && (ack.why.Held() ==> Secure(states[n + 1].logs, ack.id))
  {
    RunInv(cfg, states, acts, n);
    var s := states[n];
    var e := PostReady(cfg.account, s.toHost[0]).value;
    if authorized {
      IngestSecures(s.logs, e, outcome, cfg.lim);
      if e.eventId in View(Current(s.logs), cfg.lim).seen {
        StepTakes(Current(s.logs), IngestOp(e, true), outcome, cfg.lim, e.eventId);
        NotSecureExactly(cfg, states, acts, n, e.eventId);
      }
    }
  }

  /** A run without a save that failed after its rename exposes nothing. */
  lemma {:induction false} ExposedOnlyAfterFailedSync(cfg: Config, states: seq<Pipeline>, acts: seq<Act>, n: nat)
    requires Run(cfg, states, acts) && n <= |acts|
    requires forall i :: 0 <= i < n ==> OutcomeOf(acts[i]) != FailedAfter
    ensures |states[n].logs| == 1 && NoneExposed(states[n])
  {
    if n > 0 {
      ExposedOnlyAfterFailedSync(cfg, states, acts, n - 1);
      QueueStepAt(cfg, states, acts, n - 1);
      NextExposes(cfg, states[n - 1], acts[n - 1]);
    }
  }

  ghost predicate NoneExposed(s: Pipeline) {
    (forall ack :: ack in s.record.acked ==> ack.why != Exposed) && (s.host.Owes? ==> s.host.receipt.why != Exposed)
  }

  lemma NextExposes(cfg: Config, s: Pipeline, a: Act)
    requires Enabled(cfg, s, a) && |s.logs| == 1 && NoneExposed(s)
    ensures NoneExposed(Next(cfg, s, a))
  {
    match a
    case OnHost(Receive(authorized, outcome)) =>
      if OpOf(cfg, s, a).Some? {
        IngestExposes(cfg, s.(toHost := s.toHost[1..]), PostReady(cfg.account, s.toHost[0]).value, authorized, outcome);
      }
    case OnHost(_) =>
    case Side(side) => SidecarLeaves(cfg, s, side);
    case PowerLoss(_, _) =>
  }

  lemma IngestExposes(cfg: Config, s: Pipeline, e: HeyEvent, authorized: bool, outcome: SaveOutcome)
    requires |s.logs| == 1 && NoneExposed(s)
    ensures NoneExposed(Ingested(cfg, s, e, authorized, outcome))
  {
    StepTakes(s.logs[0], IngestOp(e, authorized), outcome, cfg.lim, e.eventId);
  }

  // ---------------------------------------------------------------- process crashes alone

  /** Read while the machine stays up, every acknowledged event whose sender is authorized was taken in. */
  ghost predicate AcksNow(s: Pipeline) {
    && s.logs != []
    && (forall ack :: ack in s.record.acked ==> AccountedNow(s, ack))
    && (s.host.Owes? ==> AccountedNow(s, s.host.receipt))
  }

  ghost predicate AccountedNow(s: Pipeline, ack: Receipt)
    requires s.logs != []
  {
    ack.why != TurnedAway ==> TookIn(Current(s.logs), ack.id)
  }

  lemma NowGrows(s: Pipeline, s': Pipeline, op: Op, outcome: SaveOutcome, lim: Limits)
    requires s.logs != [] && s'.logs == Kept(s.logs, op, outcome, lim)
    ensures s'.logs != [] && forall ack :: AccountedNow(s, ack) ==> AccountedNow(s', ack)
  {
    KeptCurrent(s.logs, op, outcome, lim);
    forall ack | AccountedNow(s, ack) ensures AccountedNow(s', ack) {
      StepTakes(Current(s.logs), op, outcome, lim, ack.id);
    }
  }

  lemma IngestNow(cfg: Config, s: Pipeline, e: HeyEvent, authorized: bool, outcome: SaveOutcome)
    requires AcksNow(s)
    ensures AcksNow(Ingested(cfg, s, e, authorized, outcome))
  {
    var op := IngestOp(e, authorized);
    var s' := Ingested(cfg, s, e, authorized, outcome);
    NowGrows(s, s', op, outcome, cfg.lim);
    if authorized && s'.host != s.host && s'.host.Owes? {
      IngestSecures(s.logs, e, outcome, cfg.lim);
    }
  }

  lemma HostNow(cfg: Config, s: Pipeline, a: HostAct)
    requires AcksNow(s) && HostEnabled(s, a)
    ensures AcksNow(HostStep(cfg, s, a))
  {
    var s' := HostStep(cfg, s, a);
    match a
    case Receive(authorized, outcome) =>
      if s.host == Watching && PostReady(cfg.account, s.toHost[0]).Some? {
        IngestNow(cfg, s.(toHost := s.toHost[1..]), PostReady(cfg.account, s.toHost[0]).value, authorized, outcome);
      }
    case Finish(id, outcome) => NowGrows(s, s', CompleteOp(id), outcome, cfg.lim);
    case _ => assert s'.logs == s.logs && forall ack :: AccountedNow(s, ack) ==> AccountedNow(s', ack);
  }

  /**
   While the machine stays up, whatever the processes do: every acknowledgement of an event whose sender
   was found authorized is for one that is completed or pending in the queue that readers see.
   */
  lemma {:induction false} NoLossWhileUp(cfg: Config, states: seq<Pipeline>, acts: seq<Act>, n: nat)
    requires Run(cfg, states, acts) && n <= |acts| && forall i :: 0 <= i < n ==> !acts[i].PowerLoss?
    ensures AcksNow(states[n])
  {
    if n > 0 {
      NoLossWhileUp(cfg, states, acts, n - 1);
      match acts[n - 1]
      case OnHost(a) => HostNow(cfg, states[n - 1], a);
      case Side(a) =>
        SidecarLeaves(cfg, states[n - 1], a);
        assert forall ack :: AccountedNow(states[n - 1], ack) ==> AccountedNow(states[n], ack);
    }
  }

  /** The sidecar touches neither the queue nor the host's account of it. */
  lemma SidecarLeaves(cfg: Config, s: Pipeline, a: SidecarAct)
    requires SidecarEnabled(cfg, s, a)
    ensures var s' := SidecarStep(cfg, s, a);
            && s'.logs == s.logs && s'.host == s.host
            && s'.record.acked == s.record.acked && s.record.polls <= s'.record.polls
  {
  }

  // ---------------------------------------------------------------- lockstep

  /** The sidecar never reads an acknowledgement other than the one it waits for, and never two. */
  lemma AckNeverMismatches(cfg: Config, states: seq<Pipeline>, acts: seq<Act>, n: nat)
    requires Run(cfg, states, acts) && n < |acts| && acts[n] == Side(TakeAck)
    ensures var s := states[n];
            && s.record.polls != [] && s.sidecar.Polling? && s.sidecar.acked < |Items(s)|
            && s.toSidecar == [Items(s)[s.sidecar.acked].event.eventId]
            && states[n + 1].sidecar == Polling(s.sidecar.acked + 1, Saving)
  {
    RunInv(cfg, states, acts, n);
    TakeAckKeeps(cfg, states[n]);
  }

  /**
   With a live sidecar, what the host ingests is the one event the sidecar waits on, exactly as the plan
   has it, and the pipe holds nothing else in either direction.
   */
  lemma IngestsTheAwaitedEvent(cfg: Config, states: seq<Pipeline>, acts: seq<Act>, n: nat, authorized: bool,
          outcome: SaveOutcome)
    requires Run(cfg, states, acts) && n < |acts| && acts[n] == OnHost(Receive(authorized, outcome))
    requires states[n].host == Watching && states[n].sidecar != Down
    ensures var s := states[n];
            && s.record.polls != [] && s.sidecar.Polling? && s.sidecar.acked < |Items(s)|
            && |s.toHost| == 1 && s.toSidecar == []
            && (PostReady(cfg.account, s.toHost[0]).Some? ==>
                  PostReady(cfg.account, s.toHost[0]).value == Items(s)[s.sidecar.acked].event)
  {
    RunInv(cfg, states, acts, n);
    FrameFromPlan(cfg, states[n]);
  }

  // ---------------------------------------------------------------- sessions

  /** The step accepts the ready frame of a new connection. */
  ghost predicate AcceptsReady(s: Pipeline, a: Act) {
    a.OnHost? && a.act.Receive? && s.host == AwaitingReady && s.toHost != [] && ReadyAccepted(s.toHost[0])
  }

  /**
   The step neither begins nor ends a connection, and if it handles a frame, that is an event the queue does not
   fail on.
   */
  ghost predicate Continues(cfg: Config, s: Pipeline, a: Act) {
    && !a.PowerLoss? && a != OnHost(Launch) && a != OnHost(Stop)
    && (a.OnHost? && a.act.Receive? ==>
          && s.host == Watching && s.logs != [] && OpOf(cfg, s, a).Some?
          && !LogStep(Current(s.logs), OpOf(cfg, s, a).value, a.act.outcome, cfg.lim).1.Failed?)
  }

  /** Step `m` accepted a ready frame, and every step since continues that connection. */
  ghost predicate SessionSince(cfg: Config, states: seq<Pipeline>, acts: seq<Act>, m: nat, n: nat)
    requires |states| == |acts| + 1 && n <= |acts|
  {
    m < n && AcceptsReady(states[m], acts[m]) && forall k :: m < k < n ==> Continues(cfg, states[k], acts[k])
  }

  lemma HostMoves(cfg: Config, s: Pipeline, a: Act)
    requires Enabled(cfg, s, a) && (Next(cfg, s, a).host == Watching || Next(cfg, s, a).host.Owes?)
    ensures AcceptsReady(s, a) || (Continues(cfg, s, a) && (s.host == Watching || s.host.Owes?))
  {
    match a
    case Side(side) => SidecarLeaves(cfg, s, side);
    case _ =>
  }

  lemma HostMovesAt(cfg: Config, states: seq<Pipeline>, acts: seq<Act>, n: nat)
    requires Run(cfg, states, acts) && n < |acts| && (states[n + 1].host == Watching || states[n + 1].host.Owes?)
    ensures || AcceptsReady(states[n], acts[n])
            || (Continues(cfg, states[n], acts[n]) && (states[n].host == Watching || states[n].host.Owes?))
  {
    HostMoves(cfg, states[n], acts[n]);
  }

  lemma {:induction false} InSession(cfg: Config, states: seq<Pipeline>, acts: seq<Act>, n: nat) returns (m: nat)
    requires Run(cfg, states, acts) && n <= |acts| && (states[n].host == Watching || states[n].host.Owes?)
    ensures SessionSince(cfg, states, acts, m, n)
  {
    assert n > 0;
    HostMovesAt(cfg, states, acts, n - 1);
    if AcceptsReady(states[n - 1], acts[n - 1]) {
      m := n - 1;
    } else {
      m := InSession(cfg, states, acts, n - 1);
      SessionGrows(cfg, states, acts, m, n - 1);
    }
  }

  lemma SessionGrows(cfg: Config, states: seq<Pipeline>, acts: seq<Act>, m: nat, n: nat)
    requires |states| == |acts| + 1 && n < |acts| && SessionSince(cfg, states, acts, m, n)
    requires Continues(cfg, states[n], acts[n])
    ensures SessionSince(cfg, states, acts, m, n + 1)
  {
  }

  /** The step sends an acknowledgement, or handles a frame as an event for the queue. */
  ghost predicate ActsOnEvent(cfg: Config, s: Pipeline, a: Act) {
    a == OnHost(SendAck) || (a.OnHost? && a.act.Receive? && OpOf(cfg, s, a).Some?)
  }

  /**
   Nothing is ingested or acknowledged before a valid ready frame or after an invalid frame: in every run, a
   step that does either comes after a step that accepted the ready frame of the same connection, with
   nothing but good event frames handled in between; and no other step acknowledges or takes anything in.
   */
  lemma NothingBeforeReady(cfg: Config, states: seq<Pipeline>, acts: seq<Act>, n: nat)
    requires Run(cfg, states, acts) && n < |acts|
    ensures ActsOnEvent(cfg, states[n], acts[n]) ==> exists m: nat :: SessionSince(cfg, states, acts, m, n)
    ensures states[n + 1].record.acked != states[n].record.acked ==> acts[n] == OnHost(SendAck)
    ensures states[n].logs != [] && states[n + 1].logs != []
    ensures forall id :: !TookIn(Current(states[n].logs), id) && TookIn(Current(states[n + 1].logs), id) ==>
              acts[n].PowerLoss? || ActsOnEvent(cfg, states[n], acts[n])
  {
    QueueStepAt(cfg, states, acts, n);
    if ActsOnEvent(cfg, states[n], acts[n]) {
      OnEventWatches(cfg, states, acts, n);
      var m := InSession(cfg, states, acts, n);
      AcksOnly(cfg, states, acts, n);
    } else {
      QuietStepAt(cfg, states, acts, n);
    }
  }

  lemma OnEventWatches(cfg: Config, states: seq<Pipeline>, acts: seq<Act>, n: nat)
    requires Run(cfg, states, acts) && n < |acts| && ActsOnEvent(cfg, states[n], acts[n])
    ensures states[n].host == Watching || states[n].host.Owes?
  {
  }

  lemma AcksOnly(cfg: Config, states: seq<Pipeline>, acts: seq<Act>, n: nat)
    requires Run(cfg, states, acts) && n < |acts| && acts[n].OnHost?
    ensures states[n + 1].record.acked != states[n].record.acked ==> acts[n] == OnHost(SendAck)
  {
  }

  lemma QuietStepAt(cfg: Config, states: seq<Pipeline>, acts: seq<Act>, n: nat)
    requires Run(cfg, states, acts) && n < |acts| && states[n].logs != [] && !ActsOnEvent(cfg, states[n], acts[n])
    ensures states[n + 1].record.acked == states[n].record.acked && states[n + 1].logs != []
    ensures acts[n].PowerLoss?
            || forall id :: TookIn(Current(states[n + 1].logs), id) ==> TookIn(Current(states[n].logs), id)
  {
    QuietStep(cfg, states[n], acts[n]);
  }

  lemma QuietStep(cfg: Config, s: Pipeline, a: Act)
    requires Enabled(cfg, s, a) && s.logs != [] && !ActsOnEvent(cfg, s, a)
    ensures var s' := Next(cfg, s, a);
            && s'.record.acked == s.record.acked && s'.logs != []
            && (a.PowerLoss? || forall id :: TookIn(Current(s'.logs), id) ==> TookIn(Current(s.logs), id))
  {
    match a
    case OnHost(Finish(done, outcome)) =>
      KeptCurrent(s.logs, CompleteOp(done), outcome, cfg.lim);
      forall id
        ensures TookIn(LogStep(Current(s.logs), CompleteOp(done), outcome, cfg.lim).0, id) ==>
                  TookIn(Current(s.logs), id)
      {
        CompleteTakesNothing(Current(s.logs), done, outcome, cfg.lim, id);
      }
    case OnHost(_) =>
    case Side(side) => SidecarLeaves(cfg, s, side);
    case PowerLoss(_, _) =>
  }

  lemma CompleteTakesNothing(l: Log, done: string, outcome: SaveOutcome, lim: Limits, id: string)
    ensures TookIn(LogStep(l, CompleteOp(done), outcome, lim).0, id) ==> TookIn(l, id)
  {
    RemoveMembers(l.pending, done);
    WithoutMembers(Ids(l.pending), {done});
  }

  // ---------------------------------------------------------------- refused events

  /** Some poll planned an event under this identity that the host's reader accepts. */
  ghost predicate Readable(cfg: Config, r: Record, id: string) {
    exists e: HeyEvent :: Planted(r, e) && e.eventId == id && e.Valid() && e.accountId == cfg.account
  }

  ghost predicate AcksReadable(cfg: Config, s: Pipeline) {
    && (forall ack :: ack in s.record.acked ==> Readable(cfg, s.record, ack.id))
    && (s.host.Owes? ==> Readable(cfg, s.record, s.host.receipt.id))
  }

  lemma ReadableGrows(cfg: Config, r: Record, r': Record, id: string)
    requires Readable(cfg, r, id) && r.polls <= r'.polls
    ensures Readable(cfg, r', id)
  {
    var e: HeyEvent :| Planted(r, e) && e.eventId == id && e.Valid() && e.accountId == cfg.account;
    PlantedGrows(r, r', e);
  }

  lemma AcksReadableGrow(cfg: Config, s: Pipeline, s': Pipeline)
    requires AcksReadable(cfg, s) && s.record.polls <= s'.record.polls && s'.record.acked == s.record.acked
    requires s'.host.Owes? ==> s'.host == s.host || Readable(cfg, s'.record, s'.host.receipt.id)
    ensures AcksReadable(cfg, s')
  {
    forall id | Readable(cfg, s.record, id) ensures Readable(cfg, s'.record, id) {
      ReadableGrows(cfg, s.record, s'.record, id);
    }
  }

  /** A frame the host takes for an event names a readable one. */
  lemma FrameReadable(cfg: Config, s: Pipeline)
    requires Genuine(s) && s.toHost != [] && PostReady(cfg.account, s.toHost[0]).Some?
    ensures Readable(cfg, s.record, PostReady(cfg.account, s.toHost[0]).value.eventId)
  {
    var frame, e := s.toHost[0], PostReady(cfg.account, s.toHost[0]).value;
    assert frame in s.toHost;
    FromDictExact(frame[EventKey].fields, e);
  }

  lemma HostReadable(cfg: Config, s: Pipeline, a: HostAct)
    requires Genuine(s) && AcksReadable(cfg, s) && HostEnabled(s, a)
    ensures AcksReadable(cfg, HostStep(cfg, s, a))
  {
    match a
    case Receive(authorized, outcome) =>
      if s.host == Watching && PostReady(cfg.account, s.toHost[0]).Some? {
        FrameReadable(cfg, s);
        ReceiveLeaves(cfg, s, authorized, outcome);
      }
      AcksReadableGrow(cfg, s, HostStep(cfg, s, a));
    case SendAck =>
      forall id | Readable(cfg, s.record, id) ensures Readable(cfg, HostStep(cfg, s, a).record, id) {
        ReadableGrows(cfg, s.record, HostStep(cfg, s, a).record, id);
      }
    case _ => AcksReadableGrow(cfg, s, HostStep(cfg, s, a));
  }

  lemma ReceiveLeaves(cfg: Config, s: Pipeline, authorized: bool, outcome: SaveOutcome)
    requires HostEnabled(s, Receive(authorized, outcome)) && s.host == Watching
    requires PostReady(cfg.account, s.toHost[0]).Some?
    ensures var e, s' := PostReady(cfg.account, s.toHost[0]).value, HostStep(cfg, s, Receive(authorized, outcome));
            && s'.record.polls == s.record.polls && s'.record.acked == s.record.acked
            && (s'.host.Owes? ==> s'.host.receipt.id == e.eventId)
            && (Readable(cfg, s.record, e.eventId) ==> Readable(cfg, s'.record, e.eventId))
  {
    var e, s' := PostReady(cfg.account, s.toHost[0]).value, HostStep(cfg, s, Receive(authorized, outcome));
    if Readable(cfg, s.record, e.eventId) {
      ReadableGrows(cfg, s.record, s'.record, e.eventId);
    }
  }

  /**
   In every run an identity is acknowledged only if some poll planned a readable event under it; so no
   cursor moves past an event that the host's reader refuses whenever it is hydrated.
   */
  lemma {:induction false} AckedWereReadable(cfg: Config, states: seq<Pipeline>, acts: seq<Act>, n: nat)
    requires Run(cfg, states, acts) && n <= |acts|
    ensures AcksReadable(cfg, states[n])
  {
    if n > 0 {
      AckedWereReadable(cfg, states, acts, n - 1);
      RunInv(cfg, states, acts, n - 1);
      match acts[n - 1]
      case OnHost(a) => HostReadable(cfg, states[n - 1], a);
      case Side(a) =>
        SidecarLeaves(cfg, states[n - 1], a);
        AcksReadableGrow(cfg, states[n - 1], states[n]);
      case PowerLoss(_, _) => AcksReadableGrow(cfg, states[n - 1], states[n]);
    }
  }

  // ---------------------------------------------------------------- kinds

  /** The event was hydrated from an entry of its thread, of its kind. */
  ghost predicate FromEntry(api: Api, e: HeyEvent) {
    && e.Identified() && api.entries(e.threadId).Some?
    && exists k :: 0 <= k < |api.entries(e.threadId).value|
         && api.entries(e.threadId).value[k].id == e.entryId
         && api.entries(e.threadId).value[k].kind == KindText(e.kind)
  }

  ghost predicate AllFromEntries(api: Api, m: PollPlan.Pending) {
    forall id :: id in m ==> FromEntry(api, m[id].event)
  }

  lemma {:induction false} AddEventsFrom(api: Api, own: string, key: int, events: seq<HeyEvent>, m: PollPlan.Pending)
    requires AllFromEntries(api, m) && (forall e :: e in events ==> FromEntry(api, e))
    requires AddEvents(api, own, key, events, m).Ok?
    ensures AllFromEntries(api, AddEvents(api, own, key, events, m).value)
  {
    if events != [] {
      if api.sameAddress(events[0].senderEmail, own) {
        AddEventsFrom(api, own, key, events[1..], m);
      } else {
        AddEventsFrom(api, own, key, events[1..], AddEvent(api, key, events[0], m).value);
      }
    }
  }

  lemma {:induction false} AddPostingsFrom(api: Api, own: string, inc: Increment, postings: seq<Posting>,
          m: PollPlan.Pending)
    requires AllFromEntries(api, m) && AddPostings(api, own, inc, postings, m).Ok?
    ensures AllFromEntries(api, AddPostings(api, own, inc, postings, m).value)
  {
    if postings != [] {
      if !Relevant(postings[0]) {
        AddPostingsFrom(api, own, inc, postings[1..], m);
      } else {
        var events := EventsSince(api, postings[0], inc.kind, inc.since).value;
        forall e | e in events ensures FromEntry(api, e) {
          EventsWellBuilt(api, postings[0], inc.kind, inc.since, e);
        }
        AddEventsFrom(api, own, inc.key, events, m);
        AddPostingsFrom(api, own, inc, postings[1..], AddEvents(api, own, inc.key, events, m).value);
      }
    }
  }

  lemma {:induction false} AddIncrementsFrom(api: Api, own: string, incs: seq<Increment>, m: PollPlan.Pending)
    requires AllFromEntries(api, m) && AddIncrements(api, own, incs, m).Ok?
    ensures AllFromEntries(api, AddIncrements(api, own, incs, m).value)
  {
    if incs != [] {
      AddPostingsFrom(api, own, incs[0], incs[0].postings, m);
      AddIncrementsFrom(api, own, incs[1..], AddPostings(api, own, incs[0], incs[0].postings, m).value);
    }
  }

  lemma PlannedFromEntries(cfg: Config, poll: Poll, k: nat)
    requires Planned(cfg, poll) && k < |poll.plan.items|
    ensures FromEntry(poll.api, poll.plan.items[k].event)
  {
    var incs := ReadIncrements(poll.api, poll.base, SortBy(BoxLess, poll.boxes)).value;
    var m := AddIncrements(poll.api, cfg.own, incs, map[]).value;
    AddIncrementsFrom(poll.api, cfg.own, incs, map[]);
    AddIncrementsSpec(poll.api, cfg.own, incs, map[]);
    ArrangeSpec(m);
    assert poll.plan.items[k] in Arrange(m);
  }

  /**
   Kinds survive the whole way: in every run, an event pending in the queue was pending, as it is, when the
   run began, or is a comment exactly when it was hydrated from a comment entry of its thread, by some poll.
   */
  lemma KindPreserved(cfg: Config, states: seq<Pipeline>, acts: seq<Act>, n: nat, j: nat, e: HeyEvent)
    requires Run(cfg, states, acts) && n <= |acts| && j < |states[n].logs| && e in states[n].logs[j].pending
    ensures e in states[0].record.start.pending || Hydrated(states[n].record, e)
  {
    RunInv(cfg, states, acts, n);
    StartStays(cfg, states, acts, n);
    var r := states[n].record;
    assert Sourced(r, e);
    if e !in r.start.pending {
      PlantedHydrated(cfg, r, e);
    }
  }

  /** Some poll of the run hydrated the event from an entry of its thread, of its kind. */
  ghost predicate Hydrated(r: Record, e: HeyEvent) {
    exists i :: 0 <= i < |r.polls| && FromEntry(r.polls[i].api, e)
  }

  lemma PlantedHydrated(cfg: Config, r: Record, e: HeyEvent)
    requires PollsOk(cfg, r) && Planted(r, e)
    ensures Hydrated(r, e)
  {
    var i, k :| 0 <= i < |r.polls| && 0 <= k < |r.polls[i].plan.items| && r.polls[i].plan.items[k].event == e;
    PlannedFromEntries(cfg, r.polls[i], k);
  }

  /** No step rewrites the queue the run began with. */
  lemma {:induction false} StartStays(cfg: Config, states: seq<Pipeline>, acts: seq<Act>, n: nat)
    requires Run(cfg, states, acts) && n <= |acts|
    ensures states[n].record.start == states[0].record.start
  {
    if n > 0 {
      StartStays(cfg, states, acts, n - 1);
      StartSame(cfg, states[n - 1], acts[n - 1]);
    }
  }

  lemma StartSame(cfg: Config, s: Pipeline, a: Act)
    requires Enabled(cfg, s, a)
    ensures Next(cfg, s, a).record.start == s.record.start
  {
    match a
    case Side(side) =>
    case OnHost(act) =>
    case PowerLoss(_, _) =>
  }
}
