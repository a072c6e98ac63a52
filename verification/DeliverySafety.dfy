/** What every run of the pipeline keeps: nothing acknowledged is lost, and one event at a time is in flight. */
module DeliverySafety {
  import opened Wrappers
  import opened Sequences
  import opened Decimal
  import opened Events
  import opened Hydration
  import opened PollPlan
  import opened WatchEngines
  import opened QueueModel
  import opened QueueRefinement
  import opened Delivery

  // ---------------------------------------------------------------- the queue

  /** A queue operation forgets no identity it ever took, and takes the one it accepts. */
  lemma StepTakes(l: Log, op: Op, outcome: SaveOutcome, lim: Limits, id: string)
    ensures TookIn(l, id) ==> TookIn(LogStep(l, op, outcome, lim).0, id)
    ensures op.IngestOp? && op.e.eventId == id && LogStep(l, op, outcome, lim).1 == Accepted ==>
              TookIn(LogStep(l, op, outcome, lim).0, id)
    ensures op.IngestOp? && op.authorized && op.e.eventId == id && LogStep(l, op, outcome, lim).1 == Refused ==>
              TookIn(l, id)
  {
    var l' := Effect(l, op);
    match op
    case IngestOp(e, _) =>
      assert Ids(l.pending + [e]) == Ids(l.pending) + [e.eventId];
    case CompleteOp(done) =>
      RemoveMembers(l.pending, done);
      WithoutMembers(Ids(l.pending), {done});
  }

  /** Whatever the outcome of an operation's save, what was secure stays secure. */
  lemma KeptSecure(logs: seq<Log>, op: Op, outcome: SaveOutcome, lim: Limits, id: string)
    requires logs != [] && Secure(logs, id)
    ensures Secure(Kept(logs, op, outcome, lim), id)
  {
    StepTakes(Current(logs), op, outcome, lim, id);
  }

  /** The last candidate is what the operation's readers see. */
  lemma KeptCurrent(logs: seq<Log>, op: Op, outcome: SaveOutcome, lim: Limits)
    requires logs != []
    ensures Kept(logs, op, outcome, lim) != []
    ensures Current(Kept(logs, op, outcome, lim)) == LogStep(Current(logs), op, outcome, lim).0
  {
  }

  /** An authorized ingest that returns holds its event in every possible content, or refuses it as seen. */
  lemma IngestSecures(logs: seq<Log>, e: HeyEvent, outcome: SaveOutcome, lim: Limits)
    requires logs != [] && !LogStep(Current(logs), IngestOp(e, true), outcome, lim).1.Failed?
    ensures var why := WhyOf(logs, e, true, LogStep(Current(logs), IngestOp(e, true), outcome, lim).1);
            && why != TurnedAway
            && (why.Held() <==> Secure(Kept(logs, IngestOp(e, true), outcome, lim), e.eventId))
            && (why == Exposed <==> e.eventId in View(Current(logs), lim).seen && !Secure(logs, e.eventId))
            && TookIn(Current(Kept(logs, IngestOp(e, true), outcome, lim)), e.eventId)
  {
    StepTakes(Current(logs), IngestOp(e, true), outcome, lim, e.eventId);
  }

  lemma NotSeen(l: Log, id: string, lim: Limits)
    requires !TookIn(l, id)
    ensures id !in View(l, lim).seen
  {
    var window := Window(l, lim);
    forall i | 0 <= i < |window| ensures window[i] in l.completed {
    }
  }

  lemma SeenOnceTaken(l: Log, e: HeyEvent, lim: Limits)
    ensures e.eventId in View(Effect(l, IngestOp(e, true)), lim).seen
  {
    assert Ids(l.pending + [e])[|l.pending|] == e.eventId;
  }

  /**
   The exception happens: an ingest whose save fails after the rename raises, so its event is not
   acknowledged; offered again it is refused as seen, which is acknowledged, yet a power loss may
   bring back the queue without it.
   */
  lemma RetriedIngestNotDurable(l: Log, e: HeyEvent, lim: Limits)
    requires !TookIn(l, e.eventId) && |l.pending| < lim.maxPending
    requires lim.sizeOf(Encode(View(Effect(l, IngestOp(e, true)), lim))) <= lim.maxBytes
    ensures var op := IngestOp(e, true);
            var logs := Kept([l], op, FailedAfter, lim);
            && LogStep(l, op, FailedAfter, lim).1 == Failed(QueueError.SaveFailed)
            && LogStep(Current(logs), op, Saved, lim).1 == Refused
            && Kept(logs, op, Saved, lim) == logs && !Secure(logs, e.eventId)
  {
    NotSeen(l, e.eventId, lim);
    SeenOnceTaken(l, e, lim);
    var logs := Kept([l], IngestOp(e, true), FailedAfter, lim);
    assert Current(logs) == Effect(l, IngestOp(e, true));
    assert !TookIn(logs[0], e.eventId);
  }

  // ---------------------------------------------------------------- cursor chains

  /** `r` grew into `r'`, and announced nothing. */
  ghost predicate Grows(r: Record, r': Record) {
    && r.polls <= r'.polls && r.acked <= r'.acked
    && r'.baselines == r.baselines && r'.inForce == r.inForce && r'.start == r.start
  }

  /** `r` grew into `r'`, and announced nothing for the box. */
  ghost predicate GrowsFor(r: Record, r': Record, b: int) {
    r.polls <= r'.polls && r.acked <= r'.acked && Announced(r', b) == Announced(r, b)
  }

  lemma {:induction false} ChainGrows(r: Record, r': Record, n: nat, n': nat, b: int, c: Cursor)
    requires GrowsFor(r, r', b) && n <= n' && Chained(r, n, b, c)
    ensures Chained(r', n', b, c)
    decreases n
  {
    if !IsBaseline(r, b, c) {
      var i :| 0 <= i < n && LinkOf(r, i, b, c) && Chained(r, i, b, r.polls[i].base[b]);
      ChainGrows(r, r', i, i, b, r.polls[i].base[b]);
      assert LinkOf(r', i, b, c);
    }
  }

  lemma CursorsGrow(r: Record, r': Record, n: nat, n': nat, cursors: Cursors)
    requires Grows(r, r') && n <= n' && CursorsChained(r, n, cursors)
    ensures CursorsChained(r', n', cursors)
  {
    forall b | b in cursors && b in r.inForce ensures Chained(r', n', b, cursors[b]) {
      ChainGrows(r, r', n, n', b, cursors[b]);
    }
  }

  /** A poll's cursors after `k` acks are chained when its base and its first `k` items are. */
  lemma EarningsChained(r: Record, k: nat)
    requires r.polls != [] && k <= |Latest(r.polls).plan.items|
    requires CursorsChained(r, |r.polls| - 1, Latest(r.polls).base)
    requires forall i :: 0 <= i < k ==> IsAcked(r, Latest(r.polls).plan.items[i].event.eventId)
    ensures CursorsChained(r, |r.polls|, AfterAcks(Latest(r.polls).plan, Latest(r.polls).base, k))
  {
    var n := |r.polls| - 1;
    var poll := r.polls[n];
    var earned := AfterAcks(poll.plan, poll.base, k);
    forall b | b in earned && b in r.inForce ensures Chained(r, n + 1, b, earned[b]) {
      if b in poll.plan.nexts && Settled(poll.plan.items, k, b) {
        assert AllAcked(r, poll, b);
        assert LinkOf(r, n, b, earned[b]) && Chained(r, n, b, poll.base[b]);
      } else {
        ChainGrows(r, r, n, n + 1, b, poll.base[b]);
      }
    }
  }

  // ---------------------------------------------------------------- frame conditions

  /** Cursor files, sidecar and record as they were, up to growth of the record. */
  lemma FilesGrow(s: Pipeline, s': Pipeline)
    requires FilesOk(s) && s'.files == s.files && Grows(s.record, s'.record) && s'.record.polls == s.record.polls
    requires s'.sidecar == s.sidecar || s'.sidecar == Down
    ensures FilesOk(s')
  {
    FileListGrows(s.record, s'.record, s.files);
    if s'.sidecar.Polling? {
      CursorsGrow(s.record, s'.record, |s.record.polls| - 1, |s.record.polls| - 1, Latest(s.record.polls).base);
    }
  }

  lemma FileListGrows(r: Record, r': Record, files: seq<CursorFile>)
    requires files != [] && FileListOk(r, files) && Grows(r, r')
    ensures FileListOk(r', files)
  {
    forall j | 0 <= j < |files|
      ensures CursorsChained(r', |r'.polls|, CursorsIn(files[j]))
      ensures Awaits(r', CursorsIn(files[j]), CursorsIn(Latest(files)))
    {
      CursorsGrow(r, r', |r.polls|, |r'.polls|, CursorsIn(files[j]));
    }
  }

  lemma AcksSame(s: Pipeline, s': Pipeline)
    requires AcksOk(s) && s'.logs == s.logs
    requires s'.record.acked == s.record.acked
    requires s'.host.Owes? ==> s'.host == s.host
    ensures AcksOk(s')
  {
    forall ack | AccountedFor(s, ack) ensures AccountedFor(s', ack) {
    }
  }

  lemma PlantedGrows(r: Record, r': Record, e: HeyEvent)
    requires Planted(r, e) && r.polls <= r'.polls
    ensures Planted(r', e)
  {
    var i, k :| 0 <= i < |r.polls| && 0 <= k < |r.polls[i].plan.items| && r.polls[i].plan.items[k].event == e;
    assert r'.polls[i].plan.items[k].event == e;
  }

  lemma SourcedGrows(r: Record, r': Record, e: HeyEvent)
    requires Sourced(r, e) && r.polls <= r'.polls && r'.start == r.start
    ensures Sourced(r', e)
  {
    if e !in r.start.pending {
      PlantedGrows(r, r', e);
    }
  }

  lemma LogsGenuineGrow(r: Record, r': Record, logs: seq<Log>)
    requires LogsGenuine(r, logs) && r.polls <= r'.polls && r'.start == r.start
    ensures LogsGenuine(r', logs)
  {
    forall j, e | 0 <= j < |logs| && e in logs[j].pending ensures Sourced(r', e) {
      SourcedGrows(r, r', e);
    }
  }

  lemma FramesGenuineGrow(r: Record, r': Record, frames: seq<map<Key, Json>>)
    requires FramesGenuine(r, frames) && r.polls <= r'.polls
    ensures FramesGenuine(r', frames)
  {
    forall f | f in frames && ParseEventFrame(f).Ok? ensures Planted(r', ParseEventFrame(f).value) {
      PlantedGrows(r, r', ParseEventFrame(f).value);
    }
  }

  lemma ControlFrames(text: string)
    ensures ReadyAccepted(ReadyFrame()) && ParseEventFrame(ReadyFrame()).Err? && ParseEventFrame(FatalFrame(text)).Err?
  {
    assert ReadyFrame().Keys == {TypeKey, ProtocolVersionKey};
    assert FatalFrame(text).Keys == {TypeKey, ErrorKey};
    assert EventKey !in ReadyFrame() && EventKey !in FatalFrame(text);
    assert "ready"[0] != "fatal"[0];
  }

  // ---------------------------------------------------------------- the sidecar's steps

  lemma SaveKeeps(cfg: Config, s: Pipeline, outcome: SaveOutcome)
    requires Inv(cfg, s) && SidecarEnabled(cfg, s, SaveState(outcome))
    ensures Inv(cfg, SidecarStep(cfg, s, SaveState(outcome)))
  {
    var s' := SidecarStep(cfg, s, SaveState(outcome));
    AcksSame(s, s');
    EarningsChained(s.record, s.sidecar.acked);
    assert Earnings(s).Keys == CursorsIn(Latest(s.files)).Keys;
  }

  lemma NothingToSaveKeeps(cfg: Config, s: Pipeline)
    requires Inv(cfg, s) && SidecarEnabled(cfg, s, NothingToSave)
    ensures Inv(cfg, SidecarStep(cfg, s, NothingToSave))
  {
    AcksSame(s, SidecarStep(cfg, s, NothingToSave));
  }

  lemma EmitKeeps(cfg: Config, s: Pipeline)
    requires Inv(cfg, s) && SidecarEnabled(cfg, s, Emit)
    ensures Inv(cfg, SidecarStep(cfg, s, Emit))
  {
    var s' := SidecarStep(cfg, s, Emit);
    var n, k := |s.record.polls| - 1, s.sidecar.acked;
    var e := Items(s)[k].event;
    AcksSame(s, s');
    assert s.record.polls[n].plan.items[k].event == e;
    EmitGenuine(s.record, s.toHost, e);
  }

  lemma EmitGenuine(r: Record, frames: seq<map<Key, Json>>, e: HeyEvent)
    requires FramesGenuine(r, frames) && Planted(r, e)
    ensures FramesGenuine(r, frames + [EventFrame(e)])
  {
    EventFrameAccepted(e);
  }

  lemma TakeAckKeeps(cfg: Config, s: Pipeline)
    requires Inv(cfg, s) && SidecarEnabled(cfg, s, TakeAck)
    ensures s.toSidecar == [Items(s)[s.sidecar.acked].event.eventId]
    ensures Inv(cfg, SidecarStep(cfg, s, TakeAck))
  {
    AckMatches(s);
    var s' := s.(toSidecar := [], sidecar := Polling(s.sidecar.acked + 1, Saving));
    AcksSame(s, s');
    AckedFiles(s);
    assert SidecarStep(cfg, s, TakeAck) == s';
  }

  /** One more item of the poll is acknowledged. */
  lemma AckedFiles(s: Pipeline)
    requires FilesOk(s) && AtStage(s, Awaiting) && s.sidecar.acked < |Items(s)|
    requires IsAcked(s.record, Items(s)[s.sidecar.acked].event.eventId)
    ensures FilesOk(s.(toSidecar := [], sidecar := Polling(s.sidecar.acked + 1, Saving)))
  {
  }

  /** An ack in the pipe is the one the sidecar waits for, and the last thing in flight. */
  lemma AckMatches(s: Pipeline)
    requires Lockstep(s) && AtStage(s, Awaiting) && s.toSidecar != []
    ensures s.sidecar.acked < |Items(s)| && s.host == Watching && s.toHost == []
    ensures s.toSidecar == [Items(s)[s.sidecar.acked].event.eventId] && IsAcked(s.record, s.toSidecar[0])
  {
  }

  lemma EndPollKeeps(cfg: Config, s: Pipeline)
    requires Inv(cfg, s) && SidecarEnabled(cfg, s, EndPoll)
    ensures Inv(cfg, SidecarStep(cfg, s, EndPoll))
  {
    AcksSame(s, SidecarStep(cfg, s, EndPoll));
  }

  lemma DieKeeps(cfg: Config, s: Pipeline, report: Option<string>)
    requires Inv(cfg, s) && SidecarEnabled(cfg, s, Die(report))
    ensures Inv(cfg, SidecarStep(cfg, s, Die(report)))
  {
    var s' := SidecarStep(cfg, s, Die(report));
    AcksSame(s, s');
    if report.Some? {
      ControlFrames(report.value);
    }
  }

  lemma StartPollKeeps(cfg: Config, s: Pipeline, api: Api, boxes: seq<Box>)
    requires Inv(cfg, s) && SidecarEnabled(cfg, s, StartPoll(api, boxes))
    ensures Inv(cfg, SidecarStep(cfg, s, StartPoll(api, boxes)))
  {
    var s' := SidecarStep(cfg, s, StartPoll(api, boxes));
    AcksSame(s, s');
    FileListGrows(s.record, s'.record, s.files);
    LogsGenuineGrow(s.record, s'.record, s.logs);
    FramesGenuineGrow(s.record, s'.record, s.toHost);
    var base := CursorsIn(Latest(s.files));
    CursorsGrow(s.record, s'.record, |s.record.polls|, |s.record.polls|, base);
  }

  /** The file with a baseline added to what it knows goes to the candidates. */
  lemma BasedFiles(r: Record, files: seq<CursorFile>, based: Cursors, outcome: SaveOutcome)
    requires files != [] && FileListOk(r, files)
    requires forall b :: b in CursorsIn(Latest(files)) ==> b in based && based[b] == CursorsIn(Latest(files))[b]
    requires forall b :: b in r.inForce ==> b in CursorsIn(Latest(files))
    ensures FileListOk(r, AfterSave(files, Stored(based), outcome))
  {
    var files' := AfterSave(files, Stored(based), outcome);
    var known := CursorsIn(files[|files| - 1]);
    assert CursorsChained(r, |r.polls|, known);
    assert CursorsChained(r, |r.polls|, based);
    if outcome != FailedBefore {
      forall j | 0 <= j < |files'|
        ensures CursorsChained(r, |r.polls|, CursorsIn(files'[j])) && Awaits(r, CursorsIn(files'[j]), based)
      {
        if outcome == FailedAfter && j < |files| {
          assert Awaits(r, CursorsIn(files[j]), known);
        }
      }
    }
  }

  /** Readiness is announced with the visible cursors: those not in force before are now the baselines. */
  lemma AnnounceKeeps(r: Record, files: seq<CursorFile>)
    requires files != [] && FileListOk(r, files)
    requires forall b :: b in r.inForce ==> Announced(r, b) != []
    ensures FileListOk(Announce(r, CursorsIn(Latest(files))), files)
    ensures forall b :: b in Announce(r, CursorsIn(Latest(files))).inForce ==>
              Announced(Announce(r, CursorsIn(Latest(files))), b) != []
  {
    var now := CursorsIn(Latest(files));
    var r' := Announce(r, now);
    forall j | 0 <= j < |files|
      ensures CursorsChained(r', |r'.polls|, CursorsIn(files[j])) && Awaits(r', CursorsIn(files[j]), now)
    {
      var cursors := CursorsIn(files[j]);
      assert CursorsChained(r, |r.polls|, cursors) && Awaits(r, cursors, now);
      forall b | b in cursors && b in r'.inForce ensures Chained(r', |r'.polls|, b, cursors[b]) {
        if b in r.inForce {
          ChainGrows(r, r', |r.polls|, |r'.polls|, b, cursors[b]);
        }
      }
    }
  }

  lemma InitialiseKeeps(cfg: Config, s: Pipeline, api: Api, boxes: seq<Box>, outcome: SaveOutcome, announced: bool)
    requires Inv(cfg, s) && SidecarEnabled(cfg, s, Initialise(api, boxes, outcome, announced))
    ensures Inv(cfg, SidecarStep(cfg, s, Initialise(api, boxes, outcome, announced)))
  {
    var s' := SidecarStep(cfg, s, Initialise(api, boxes, outcome, announced));
    AcksSame(s, s');
    LogsGenuineGrow(s.record, s'.record, s.logs);
    FramesGenuineGrow(s.record, s'.record, s.toHost);
    ControlFrames("");
    InitialiseFiles(s, api, boxes, outcome, announced);
  }

  lemma InitialiseFiles(s: Pipeline, api: Api, boxes: seq<Box>, outcome: SaveOutcome, announced: bool)
    requires FilesOk(s) && LoadCursors(Latest(s.files)).Ok? && Baseline(api, boxes, CursorsIn(Latest(s.files))).Ok?
    ensures FilesOk(Initialised(s, Baseline(api, boxes, CursorsIn(Latest(s.files))).value, outcome, announced))
  {
    var known := CursorsIn(Latest(s.files));
    var based := Baseline(api, boxes, known).value;
    var s' := Initialised(s, based, outcome, announced);
    BaselineKeeps(api, boxes, known);
    BasedFiles(s.record, s.files, based, outcome);
    if s'.sidecar.Idle? {
      AnnounceKeeps(s.record, s'.files);
    }
  }

  // ---------------------------------------------------------------- the host's steps

  lemma HaltKeeps(cfg: Config, s: Pipeline)
    requires AcksOk(s) && FilesOk(s) && PollsOk(cfg, s.record) && LogsGenuine(s.record, s.logs)
    ensures Inv(cfg, Halted(s))
  {
    AcksSame(s, Halted(s));
  }

  lemma LaunchKeeps(cfg: Config, s: Pipeline)
    requires Inv(cfg, s) && HostEnabled(s, Launch)
    ensures Inv(cfg, HostStep(cfg, s, Launch))
  {
    AcksSame(s, HostStep(cfg, s, Launch));
  }

  lemma SendAckKeeps(cfg: Config, s: Pipeline)
    requires Inv(cfg, s) && HostEnabled(s, SendAck)
    ensures Inv(cfg, HostStep(cfg, s, SendAck))
  {
    var s' := HostStep(cfg, s, SendAck);
    assert AccountedFor(s, s.host.receipt);
    forall ack | AccountedFor(s, ack) ensures AccountedFor(s', ack) {
    }
    FilesGrow(s, s');
    LogsGenuineGrow(s.record, s'.record, s.logs);
    FramesGenuineGrow(s.record, s'.record, s.toHost);
  }

  /** New log candidates hold what the old ones held, and nothing foreign. */
  lemma KeptAcks(s: Pipeline, s': Pipeline, op: Op, outcome: SaveOutcome, lim: Limits)
    requires AcksOk(s) && s'.logs == Kept(s.logs, op, outcome, lim)
    requires s'.record.acked == s.record.acked
    requires s'.host.Owes? ==> s'.host == s.host || AccountedFor(s', s'.host.receipt)
    ensures AcksOk(s')
  {
    KeptCurrent(s.logs, op, outcome, lim);
    forall ack | AccountedFor(s, ack) ensures AccountedFor(s', ack) {
      if ack.why.Held() {
        KeptSecure(s.logs, op, outcome, lim, ack.id);
      }
    }
  }

  lemma KeptGenuine(r: Record, logs: seq<Log>, op: Op, outcome: SaveOutcome, lim: Limits)
    requires logs != [] && LogsGenuine(r, logs) && (op.IngestOp? ==> Planted(r, op.e))
    ensures LogsGenuine(r, Kept(logs, op, outcome, lim))
  {
    assert Current(logs) == logs[|logs| - 1];
    forall j, e | 0 <= j < |Kept(logs, op, outcome, lim)| && e in Kept(logs, op, outcome, lim)[j].pending
      ensures Sourced(r, e)
    {
      assert Kept(logs, op, outcome, lim)[j] in Kept(logs, op, outcome, lim);
      KeptFrom(logs, op, outcome, lim);
      StepPending(Current(logs), op, outcome, lim);
    }
  }

  /** What is pending after an operation was pending before, or is the event taken in. */
  lemma StepPending(l: Log, op: Op, outcome: SaveOutcome, lim: Limits)
    ensures forall e :: e in LogStep(l, op, outcome, lim).0.pending ==> e in l.pending || (op.IngestOp? && e == op.e)
  {
    if op.CompleteOp? {
      RemoveMembers(l.pending, op.id);
    }
  }

  /** Every candidate after an operation was one before, or is the operation's result. */
  lemma KeptFrom(logs: seq<Log>, op: Op, outcome: SaveOutcome, lim: Limits)
    requires logs != []
    ensures forall l :: l in Kept(logs, op, outcome, lim) ==>
              l in logs || l == LogStep(Current(logs), op, outcome, lim).0
  {
  }

  lemma FinishKeeps(cfg: Config, s: Pipeline, id: string, outcome: SaveOutcome)
    requires Inv(cfg, s) && HostEnabled(s, Finish(id, outcome))
    ensures Inv(cfg, HostStep(cfg, s, Finish(id, outcome)))
  {
    var s' := HostStep(cfg, s, Finish(id, outcome));
    KeptAcks(s, s', CompleteOp(id), outcome, cfg.lim);
    KeptGenuine(s.record, s.logs, CompleteOp(id), outcome, cfg.lim);
    FilesGrow(s, s');
  }

  /** What a well-behaved sidecar's next frame can be to a host that has seen the ready frame. */
  lemma FrameFromPlan(cfg: Config, s: Pipeline)
    requires Lockstep(s) && s.host == Watching && s.toHost != [] && s.sidecar != Down
    ensures s.sidecar.Polling? && s.sidecar.stage == Awaiting && s.record.polls != [] && s.sidecar.acked < |Items(s)|
    ensures s.toSidecar == [] && |s.toHost| == 1
    ensures PostReady(cfg.account, s.toHost[0]).Some? ==>
              PostReady(cfg.account, s.toHost[0]).value == Items(s)[s.sidecar.acked].event
  {
    EventFrameAccepted(Items(s)[s.sidecar.acked].event);
  }

  lemma ReadyKeeps(cfg: Config, s: Pipeline, authorized: bool, outcome: SaveOutcome)
    requires Inv(cfg, s) && HostEnabled(s, Receive(authorized, outcome)) && s.host == AwaitingReady
    ensures Inv(cfg, HostStep(cfg, s, Receive(authorized, outcome)))
  {
    if ReadyAccepted(s.toHost[0]) {
      var s' := HostStep(cfg, s, Receive(authorized, outcome));
      AcksSame(s, s');
      ControlFrames("");
    } else {
      HaltKeeps(cfg, s);
    }
  }

  lemma NotedAccounts(cfg: Config, s: Pipeline, e: HeyEvent, authorized: bool, outcome: SaveOutcome)
    requires AcksOk(s)
    requires !LogStep(Current(s.logs), IngestOp(e, authorized), outcome, cfg.lim).1.Failed?
    ensures var s' := Ingested(cfg, s, e, authorized, outcome); s'.host.Owes? && AccountedFor(s', s'.host.receipt)
  {
    if authorized {
      IngestSecures(s.logs, e, outcome, cfg.lim);
    }
  }

  lemma IngestedAcks(cfg: Config, s: Pipeline, e: HeyEvent, authorized: bool, outcome: SaveOutcome)
    requires AcksOk(s) && FilesOk(s) && PollsOk(cfg, s.record) && LogsGenuine(s.record, s.logs) && Planted(s.record, e)
    ensures var s' := Ingested(cfg, s, e, authorized, outcome);
            AcksOk(s') && FilesOk(s') && PollsOk(cfg, s'.record) && LogsGenuine(s'.record, s'.logs)
  {
    var s' := Ingested(cfg, s, e, authorized, outcome);
    if s'.host.Owes? {
      NotedAccounts(cfg, s, e, authorized, outcome);
    }
    KeptAcks(s, s', IngestOp(e, authorized), outcome, cfg.lim);
    KeptGenuine(s.record, s.logs, IngestOp(e, authorized), outcome, cfg.lim);
    LogsGenuineGrow(s.record, s'.record, s'.logs);
    FilesGrow(s, s');
  }

  lemma EventKeeps(cfg: Config, s: Pipeline, e: HeyEvent, authorized: bool, outcome: SaveOutcome)
    requires Inv(cfg, s) && s.host == Watching && s.toHost != [] && PostReady(cfg.account, s.toHost[0]) == Some(e)
    ensures Inv(cfg, Ingested(cfg, s.(toHost := s.toHost[1..]), e, authorized, outcome))
  {
    var s1 := s.(toHost := s.toHost[1..]);
    var s' := Ingested(cfg, s1, e, authorized, outcome);
    AcksSame(s, s1);
    assert s.toHost[0] in s.toHost;
    IngestedAcks(cfg, s1, e, authorized, outcome);
    FramesGenuineGrow(s.record, s'.record, s1.toHost);
    if s.sidecar != Down {
      FrameFromPlan(cfg, s);
    }
  }

  lemma ReceiveKeeps(cfg: Config, s: Pipeline, authorized: bool, outcome: SaveOutcome)
    requires Inv(cfg, s) && HostEnabled(s, Receive(authorized, outcome))
    ensures Inv(cfg, HostStep(cfg, s, Receive(authorized, outcome)))
  {
    if s.host == AwaitingReady {
      ReadyKeeps(cfg, s, authorized, outcome);
    } else if PostReady(cfg.account, s.toHost[0]).None? {
      HaltKeeps(cfg, s);
    } else {
      EventKeeps(cfg, s, PostReady(cfg.account, s.toHost[0]).value, authorized, outcome);
    }
  }

  /** What comes back: boxes it lacks have no baseline in force any more. */
  lemma LossFiles(r: Record, files: seq<CursorFile>, file: nat)
    requires files != [] && FileListOk(r, files) && file < |files|
    ensures FileListOk(r.(inForce := r.inForce * CursorsIn(files[file]).Keys), [files[file]])
  {
    var r', cursors := r.(inForce := r.inForce * CursorsIn(files[file]).Keys), CursorsIn(files[file]);
    assert CursorsChained(r, |r.polls|, cursors);
    forall b | b in cursors && b in r'.inForce ensures Chained(r', |r'.polls|, b, cursors[b]) {
      ChainGrows(r, r', |r.polls|, |r'.polls|, b, cursors[b]);
    }
  }

  lemma PowerLossKeeps(cfg: Config, s: Pipeline, file: nat, log: nat)
    requires Inv(cfg, s) && file < |s.files| && log < |s.logs|
    ensures Inv(cfg, Next(cfg, s, PowerLoss(file, log)))
  {
    var s' := Next(cfg, s, PowerLoss(file, log));
    forall ack | AccountedFor(s, ack) ensures AccountedFor(s', ack) {
    }
    LossFiles(s.record, s.files, file);
    LogsGenuineGrow(s.record, s'.record, s'.logs);
  }

  // ---------------------------------------------------------------- runs

  lemma SidecarKeeps(cfg: Config, s: Pipeline, a: SidecarAct)
    requires Inv(cfg, s) && SidecarEnabled(cfg, s, a)
    ensures Inv(cfg, SidecarStep(cfg, s, a))
  {
    match a
    case Initialise(api, boxes, outcome, announced) => InitialiseKeeps(cfg, s, api, boxes, outcome, announced);
    case StartPoll(api, boxes) => StartPollKeeps(cfg, s, api, boxes);
    case SaveState(outcome) => SaveKeeps(cfg, s, outcome);
    case NothingToSave => NothingToSaveKeeps(cfg, s);
    case Emit => EmitKeeps(cfg, s);
    case TakeAck => TakeAckKeeps(cfg, s);
    case EndPoll => EndPollKeeps(cfg, s);
    case Die(report) => DieKeeps(cfg, s, report);
  }

  lemma HostKeeps(cfg: Config, s: Pipeline, a: HostAct)
    requires Inv(cfg, s) && HostEnabled(s, a)
    ensures Inv(cfg, HostStep(cfg, s, a))
  {
    match a
    case Launch => LaunchKeeps(cfg, s);
    case Receive(authorized, outcome) => ReceiveKeeps(cfg, s, authorized, outcome);
    case SendAck => SendAckKeeps(cfg, s);
    case Stop => HaltKeeps(cfg, s);
    case Finish(id, outcome) => FinishKeeps(cfg, s, id, outcome);
  }

  lemma NextKeeps(cfg: Config, s: Pipeline, a: Act)
    requires Inv(cfg, s) && Enabled(cfg, s, a)
    ensures Inv(cfg, Next(cfg, s, a))
  {
    match a
    case Side(side) => SidecarKeeps(cfg, s, side);
    case OnHost(act) => HostKeeps(cfg, s, act);
    case PowerLoss(file, log) => PowerLossKeeps(cfg, s, file, log);
  }

  lemma BeginInv(cfg: Config, s: Pipeline)
    requires Begins(cfg, s)
    ensures Inv(cfg, s)
  {
  }

  lemma {:induction false} RunInv(cfg: Config, states: seq<Pipeline>, acts: seq<Act>, n: nat)
    requires Run(cfg, states, acts) && n <= |acts|
    ensures Inv(cfg, states[n])
  {
    if n > 0 {
      RunInv(cfg, states, acts, n - 1);
      NextKeeps(cfg, states[n - 1], acts[n - 1]);
    } else {
      BeginInv(cfg, states[0]);
    }
  }

  /** A run goes on with any step that may be taken. */
  lemma RunSnoc(cfg: Config, states: seq<Pipeline>, acts: seq<Act>, a: Act, s': Pipeline)
    returns (states': seq<Pipeline>, acts': seq<Act>)
    requires Run(cfg, states, acts) && Enabled(cfg, states[|acts|], a) && s' == Next(cfg, states[|acts|], a)
    ensures Run(cfg, states', acts') && states'[0] == states[0] && states'[|acts'|] == s'
    ensures states' == states + [s'] && acts' == acts + [a]
  {
    states', acts' := states + [s'], acts + [a];
    forall i | 0 <= i < |acts'|
      ensures Enabled(cfg, states'[i], acts'[i]) && states'[i + 1] == Next(cfg, states'[i], acts'[i])
    {
      if i < |acts| {
        assert states'[i] == states[i] && states'[i + 1] == states[i + 1] && acts'[i] == acts[i];
      }
    }
  }
}
