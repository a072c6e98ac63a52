/** What every run of the whole bridge keeps, and what that says of the mutations it makes. */
module BridgeSafety {
  import opened Wrappers
  import opened Sequences
  import opened Decimal
  import opened Events
  import opened QueueModel
  import opened QueueRefinement
  import opened Bridge
  import opened BridgeCounts
  import A = Adapters
  import AS = AdapterSafety
  import D = Delivery
  import DS = DeliverySafety
  import DR = DeliveryResults

  // ---------------------------------------------------------------- the queue

  lemma LogStepOk(l: Log, op: Op, outcome: SaveOutcome, lim: Limits)
    requires lim.Clamped() && LogOk(l, lim) && (op.IngestOp? ==> op.e.Valid())
    ensures LogOk(LogStep(l, op, outcome, lim).0, lim)
  {
    match op
    case IngestOp(e, authorized) =>
      if authorized && e.eventId !in View(l, lim).seen && |l.pending| < lim.maxPending {
        IngestStored(l, e, lim);
      }
    case CompleteOp(id) => CompleteStored(l, id, lim);
  }

  lemma KeptOk(cfg: D.Config, logs: seq<Log>, op: Op, outcome: SaveOutcome)
    requires cfg.lim.Clamped() && logs != [] && LogsOk(cfg, logs) && (op.IngestOp? ==> op.e.Valid())
    ensures LogsOk(cfg, D.Kept(logs, op, outcome, cfg.lim))
  {
    DS.KeptFrom(logs, op, outcome, cfg.lim);
    LogStepOk(D.Current(logs), op, outcome, cfg.lim);
  }

  lemma PostReadyValid(account: int, frame: map<Key, Json>)
    ensures PostReady(account, frame).Some? ==> PostReady(account, frame).value.Valid()
  {
    if PostReady(account, frame).Some? {
      FromDictExact(frame[EventKey].fields, PostReady(account, frame).value);
    }
  }

  /** What ingesting an event does to the queue, and what the host then owes. */
  ghost predicate Ingests(cfg: D.Config, s: D.Pipeline, s': D.Pipeline, e: HeyEvent, authorized: bool,
          outcome: SaveOutcome)
  {
    && s.logs != [] && e.Valid() && s'.logs == D.Kept(s.logs, IngestOp(e, authorized), outcome, cfg.lim)
    && s'.record == s.record && !s.host.Owes?
    && (s'.host.Owes? && s'.host.receipt.why.New? ==>
          && s'.host.receipt.id == e.eventId && authorized
          && LogStep(D.Current(s.logs), IngestOp(e, authorized), outcome, cfg.lim).1 == Accepted)
  }

  /** The queue is as it was, and the account of what was taken in at most shrinks. */
  ghost predicate Quiet(s: D.Pipeline, s': D.Pipeline) {
    && s'.logs == s.logs && s'.record.start == s.record.start
    && forall id ::
         TakenCount(s'.record.acked, id) + OwedCount(s'.host, id)
         <= TakenCount(s.record.acked, id) + OwedCount(s.host, id)
  }

  /** A step of the connection or the sidecar leaves the queue as it is, or ingests a valid event. */
  lemma PipeQueue(cfg: D.Config, s: D.Pipeline, a: D.Act)
    requires D.Enabled(cfg, s, a) && s.logs != [] && !a.PowerLoss? && !(a.OnHost? && a.act.Finish?)
    ensures var s' := D.Next(cfg, s, a);
            Quiet(s, s') || exists e, authorized, outcome :: Ingests(cfg, s, s', e, authorized, outcome)
  {
    match a
    case Side(side) => SidecarQuiet(cfg, s, side);
    case OnHost(Receive(authorized, outcome)) =>
      if s.host == D.Watching && PostReady(cfg.account, s.toHost[0]).Some? {
        PostReadyValid(cfg.account, s.toHost[0]);
        assert Ingests(cfg, s, D.Next(cfg, s, a), PostReady(cfg.account, s.toHost[0]).value, authorized, outcome);
      }
    case OnHost(SendAck) =>
      forall id
        ensures TakenCount(s.record.acked + [s.host.receipt], id)
                == TakenCount(s.record.acked, id) + OwedCount(s.host, id)
      {
        TakenSnoc(s.record.acked, s.host.receipt, id);
      }
    case OnHost(_) =>
  }

  lemma SidecarQuiet(cfg: D.Config, s: D.Pipeline, a: D.SidecarAct)
    requires D.SidecarEnabled(cfg, s, a)
    ensures Quiet(s, D.SidecarStep(cfg, s, a))
  {
    DR.SidecarLeaves(cfg, s, a);
    DR.StartSame(cfg, s, D.Side(a));
  }

  /** An ingest leaves what is pending as it is, or appends the event, which was not pending before. */
  lemma IngestPending(cfg: D.Config, logs: seq<Log>, e: HeyEvent, authorized: bool, outcome: SaveOutcome)
    requires logs != [] && e.Valid() && LogOk(D.Current(logs), cfg.lim)
    ensures var l' := D.Current(D.Kept(logs, IngestOp(e, authorized), outcome, cfg.lim));
            l'.pending == D.Current(logs).pending
            || (l'.pending == D.Current(logs).pending + [e] && e.eventId !in Ids(D.Current(logs).pending))
  {
    var l := D.Current(logs);
    DS.KeptCurrent(logs, IngestOp(e, authorized), outcome, cfg.lim);
    if e.eventId in Ids(l.pending) {
      SeenIfPending(l, e.eventId, cfg.lim);
    }
  }

  lemma SeenIfPending(l: Log, id: string, lim: Limits)
    requires id in Ids(l.pending)
    ensures id in View(l, lim).seen
  {
  }

  // ---------------------------------------------------------------- steps of the pipeline

  lemma BackedGrows(r: D.Record, r': D.Record, calls: seq<A.Call>)
    requires CallsBacked(r, calls) && r.polls <= r'.polls && r'.start == r.start
    ensures CallsBacked(r', calls)
  {
    forall c | c in calls ensures Backed(r', c) {
      var e: HeyEvent :| D.Sourced(r, e) && c == A.Call(e.threadId, e.eventId, e.kind);
      DS.SourcedGrows(r, r', e);
    }
  }

  lemma PipeGrows(cfg: D.Config, s: D.Pipeline, a: D.Act)
    requires D.Enabled(cfg, s, a)
    ensures s.record.polls <= D.Next(cfg, s, a).record.polls
  {
    match a
    case Side(side) => DR.SidecarLeaves(cfg, s, side);
    case OnHost(_) =>
    case PowerLoss(_, _) =>
  }

  lemma PipingKeeps(cfg: D.Config, w: Whole, p: D.Act, w': Whole)
    requires cfg.lim.Clamped() && Inv(cfg, w) && Next(cfg, w, Piping(p), w')
    ensures Inv(cfg, w')
  {
    DS.NextKeeps(cfg, w.pipe, p);
    PipeGrows(cfg, w.pipe, p);
    PipeQueue(cfg, w.pipe, p);
    PipingLinked(cfg, w, w');
  }

  lemma PipingLinked(cfg: D.Config, w: Whole, w': Whole)
    requires cfg.lim.Clamped() && A.Inv(w.host) && Linked(cfg, w)
    requires w.pipe.record.polls <= w'.pipe.record.polls && w'.pipe.logs != []
    requires Quiet(w.pipe, w'.pipe) || exists e, authorized, outcome ::
               Ingests(cfg, w.pipe, w'.pipe, e, authorized, outcome)
    requires Follows(w.host, D.Current(w.pipe.logs).pending, D.Current(w'.pipe.logs).pending, w'.host)
    ensures A.Inv(w'.host) && Linked(cfg, w')
  {
    if Quiet(w.pipe, w'.pipe) {
      BackedGrows(w.pipe.record, w'.pipe.record, w.host.calls);
      QuietEnters(w.pipe, w'.pipe);
    } else {
      var e, authorized, outcome :| Ingests(cfg, w.pipe, w'.pipe, e, authorized, outcome);
      IngestFollowed(cfg, w, w', e, authorized, outcome);
      KeptOk(cfg, w.pipe.logs, IngestOp(e, authorized), outcome);
      IngestDone(w.pipe.record.start, w.host, w.pipe.logs, e, authorized, outcome, cfg.lim);
      DoneGrows(w.pipe.record.start, w.host, w'.host, w'.pipe.logs);
      IngestEnters(cfg, w.pipe, w'.pipe, e, authorized, outcome);
    }
  }

  lemma IngestEnters(cfg: D.Config, s: D.Pipeline, s': D.Pipeline, e: HeyEvent, authorized: bool, outcome: SaveOutcome)
    requires LogsOk(cfg, s.logs) && AllEntered(s) && Ingests(cfg, s, s', e, authorized, outcome)
    ensures AllEntered(s')
  {
    if s'.host.Owes? && s'.host.receipt.why.New? {
      AcceptedEnters(s, s', e);
    } else {
      KeptEnters(cfg, s, s', IngestOp(e, authorized), outcome);
    }
  }

  lemma IngestFollowed(cfg: D.Config, w: Whole, w': Whole, e: HeyEvent, authorized: bool, outcome: SaveOutcome)
    requires A.Inv(w.host) && Linked(cfg, w) && Ingests(cfg, w.pipe, w'.pipe, e, authorized, outcome)
    requires w'.pipe.logs != []
    requires Follows(w.host, D.Current(w.pipe.logs).pending, D.Current(w'.pipe.logs).pending, w'.host)
    ensures A.Inv(w'.host) && w'.host.pending == D.Current(w'.pipe.logs).pending
    ensures w'.host.calls == w.host.calls && DoneGrew(w.host, w'.host)
  {
    assert LogOk(D.Current(w.pipe.logs), cfg.lim);
    IngestPending(cfg, w.pipe.logs, e, authorized, outcome);
    if w'.host != w.host {
      AS.StepKeepsInv(w.host, A.Accept(e));
    }
  }

  /** The adapters can always follow the pipeline: no step of its processes is excluded. */
  lemma PipelineUnhindered(cfg: D.Config, w: Whole, p: D.Act) returns (w': Whole)
    requires cfg.lim.Clamped() && Inv(cfg, w) && D.Enabled(cfg, w.pipe, p)
    requires !p.PowerLoss? && !(p.OnHost? && p.act.Finish?)
    ensures Next(cfg, w, Piping(p), w')
  {
    DS.NextKeeps(cfg, w.pipe, p);
    PipeQueue(cfg, w.pipe, p);
    var pipe' := D.Next(cfg, w.pipe, p);
    var before, after := D.Current(w.pipe.logs).pending, D.Current(pipe'.logs).pending;
    if after == before {
      w' := Whole(pipe', w.host);
    } else {
      var e, authorized, outcome :| Ingests(cfg, w.pipe, pipe', e, authorized, outcome);
      assert LogOk(D.Current(w.pipe.logs), cfg.lim);
      IngestPending(cfg, w.pipe.logs, e, authorized, outcome);
      w' := Whole(pipe', A.Step(w.host, A.Accept(e)));
    }
  }

  // ---------------------------------------------------------------- steps of the adapters

  /** Completing an identity does the same to both queues. */
  lemma CompletionAgrees(l: Log, id: string, outcome: SaveOutcome, lim: Limits)
    ensures var c, l' := CompletionOf(l, id, outcome, lim), LogStep(l, CompleteOp(id), outcome, lim).0;
            && l'.pending == (if c.Kept() then Remove(l.pending, id) else l.pending)
            && l'.completed == if c.Kept() && id in Ids(l.pending) then l.completed + [id] else l.completed
  {
    if id !in Ids(l.pending) {
      RemoveAbsent(l.pending, id);
    }
  }

  /** A step of an adapter changes its queue only by the completion it performs, which is an answer. */
  lemma WorkPending(s: A.System, a: A.Action)
    requires A.Inv(s) && A.Enabled(s, a) && !a.Accept? && !a.Restart?
    ensures var s' := A.Step(s, a);
            && DoneGrew(s, s')
            && (match Completes(s, a)
                case Some(c) =>
                  && s'.pending == (if c.1.Kept() then Remove(s.pending, c.0) else s.pending)
                  && (c.1.Kept() && c.0 in Ids(s.pending) ==> DoneOnce(s, s', c.0))
                case None => s'.pending == s.pending)
  {
    match a
    case DrainStep(d, verdict) => DrainPending(s, d, verdict);
    case Returns(j, outcome) => ReturnPending(s, j, outcome);
    case _ =>
  }

  lemma DrainPending(s: A.System, d: nat, verdict: A.Verdict)
    requires A.Enabled(s, A.DrainStep(d, verdict))
    ensures var s' := A.Step(s, A.DrainStep(d, verdict));
            && DoneGrew(s, s')
            && (match Completes(s, A.DrainStep(d, verdict))
                case Some(c) =>
                  && s'.pending == (if c.1.Kept() then Remove(s.pending, c.0) else s.pending)
                  && (c.1.Kept() && c.0 in Ids(s.pending) ==> DoneOnce(s, s', c.0))
                case None => s'.pending == s.pending)
  {
    if verdict.Unauthorized? {
      forall id ensures Times(s.dropped + [A.At(s, d).eventId], id) ==
                        Times(s.dropped, id) + if A.At(s, d).eventId == id then 1 else 0 {
        TimesSnoc(s.dropped, A.At(s, d).eventId, id);
      }
    }
  }

  lemma ReturnPending(s: A.System, j: nat, outcome: A.Outcome)
    requires A.Inv(s) && A.Enabled(s, A.Returns(j, outcome))
    ensures var s' := A.Step(s, A.Returns(j, outcome));
            && DoneGrew(s, s')
            && (match Completes(s, A.Returns(j, outcome))
                case Some(c) =>
                  && s'.pending == (if c.1.Kept() then Remove(s.pending, c.0) else s.pending)
                  && (c.1.Kept() ==> DoneOnce(s, s', c.0))
                case None => s'.pending == s.pending)
  {
    assert A.JobHolds(s, j);
    if outcome.Confirmed? {
      var s' := A.Step(s, A.Returns(j, outcome));
      var r := A.Reply(s.jobs[j].phase.event, outcome.completion.Kept());
      assert s'.replies == s.replies + [r] && s'.dropped == s.dropped;
      forall id ensures DoneCount(s', id) == DoneCount(s, id) + if r.recorded && r.event.eventId == id then 1 else 0 {
        RecordedSnoc(s.replies, r, id);
      }
    }
  }

  lemma CallsStayBacked(r: D.Record, s: A.System, a: A.Action)
    requires A.Inv(s) && A.Enabled(s, a) && CallsBacked(r, s.calls)
    requires forall e :: e in s.pending ==> D.Sourced(r, e)
    ensures CallsBacked(r, A.Step(s, a).calls)
  {
    var s' := A.Step(s, a);
    if s'.calls != s.calls {
      AS.OnlySendsCall(s, a);
      AS.CallIsClaimed(s, a.j);
      var e: HeyEvent :| e in s.pending && AS.CallFor(s, s', e);
      assert Backed(r, A.Call(e.threadId, e.eventId, e.kind));
    }
  }

  lemma WorkingKeeps(cfg: D.Config, w: Whole, a: A.Action, outcome: SaveOutcome, w': Whole)
    requires cfg.lim.Clamped() && Inv(cfg, w) && Next(cfg, w, Working(a, outcome), w')
    ensures Inv(cfg, w')
  {
    AS.StepKeepsInv(w.host, a);
    WorkPending(w.host, a);
    PendingSourced(cfg, w);
    CallsStayBacked(w.pipe.record, w.host, a);
    match Completes(w.host, a)
    case Some(c) =>
      DS.NextKeeps(cfg, w.pipe, D.OnHost(D.Finish(c.0, outcome)));
      CompletionKeeps(cfg, w, w', c.0, outcome);
    case None => DoneGrows(w.pipe.record.start, w.host, w'.host, w.pipe.logs);
  }

  lemma PendingSourced(cfg: D.Config, w: Whole)
    requires Inv(cfg, w)
    ensures forall e :: e in w.host.pending ==> D.Sourced(w.pipe.record, e)
  {
    assert w.pipe.logs[|w.pipe.logs| - 1] == D.Current(w.pipe.logs);
  }

  lemma CompletionKeeps(cfg: D.Config, w: Whole, w': Whole, id: string, outcome: SaveOutcome)
    requires cfg.lim.Clamped() && Linked(cfg, w)
    requires w'.pipe == w.pipe.(logs := D.Kept(w.pipe.logs, CompleteOp(id), outcome, cfg.lim))
    requires var c := CompletionOf(D.Current(w.pipe.logs), id, outcome, cfg.lim);
             && w'.host.pending == (if c.Kept() then Remove(w.host.pending, id) else w.host.pending)
             && DoneGrew(w.host, w'.host) && (c.Kept() && id in Ids(w.host.pending) ==> DoneOnce(w.host, w'.host, id))
    ensures w'.pipe.logs != [] && w'.host.pending == D.Current(w'.pipe.logs).pending
    ensures LogsOk(cfg, w'.pipe.logs) && AllDone(w'.pipe.record.start, w'.host, w'.pipe.logs) && AllEntered(w'.pipe)
  {
    var logs := w.pipe.logs;
    CompletionAgrees(D.Current(logs), id, outcome, cfg.lim);
    DS.KeptCurrent(logs, CompleteOp(id), outcome, cfg.lim);
    KeptOk(cfg, logs, CompleteOp(id), outcome);
    CompleteDone(w.pipe.record.start, w.host, w'.host, logs, id, outcome, cfg.lim);
    KeptEnters(cfg, w.pipe, w'.pipe, CompleteOp(id), outcome);
  }

  // ---------------------------------------------------------------- crashes

  lemma RestartKeeps(s: A.System, queue: seq<HeyEvent>)
    requires A.Enabled(s, A.Restart(queue))
    ensures A.Inv(A.Step(s, A.Restart(queue)))
  {
  }

  lemma CrashKeeps(cfg: D.Config, w: Whole, a: Act, w': Whole)
    requires Inv(cfg, w) && Next(cfg, w, a, w') && (a.HostDies? || a.PowerLoss?)
    ensures Inv(cfg, w')
  {
    if a.HostDies? {
      DS.NextKeeps(cfg, w.pipe, D.OnHost(D.Stop));
      RestartKeeps(w.host, w.host.pending);
      RestartLinked(cfg, w, w', w.host.pending);
    } else {
      DS.NextKeeps(cfg, w.pipe, D.PowerLoss(a.file, a.log));
      RestartKeeps(w.host, w.pipe.logs[a.log].pending);
      assert w.pipe.logs[a.log] in w.pipe.logs;
      RestartLinked(cfg, w, w', w.pipe.logs[a.log].pending);
    }
  }

  lemma RestartLinked(cfg: D.Config, w: Whole, w': Whole, queue: seq<HeyEvent>)
    requires Linked(cfg, w) && w'.host == w.host.(pending := queue, claims := map[], drains := map[], jobs := map[])
    requires w'.pipe.logs != [] && (forall l :: l in w'.pipe.logs ==> l in w.pipe.logs)
    requires D.Current(w'.pipe.logs).pending == queue
    requires w'.pipe.record.start == w.pipe.record.start
    requires w'.pipe.record.polls == w.pipe.record.polls && w'.pipe.record.acked == w.pipe.record.acked
    requires !w'.pipe.host.Owes?
    ensures Linked(cfg, w')
  {
    BackedGrows(w.pipe.record, w'.pipe.record, w.host.calls);
    DoneGrows(w.pipe.record.start, w.host, w'.host, w.pipe.logs);
    QuietEnters(w.pipe, w'.pipe);
  }

  /** Nor is any step of an adapter, however a save in it ends. */
  lemma AdaptersUnhindered(cfg: D.Config, w: Whole, work: A.Action, outcome: SaveOutcome) returns (w': Whole)
    requires Inv(cfg, w) && A.Enabled(w.host, work) && !work.Accept? && !work.Restart?
    requires var c := Completes(w.host, work);
             c.Some? ==> c.value.1 == CompletionOf(D.Current(w.pipe.logs), c.value.0, outcome, cfg.lim)
    ensures Next(cfg, w, Working(work, outcome), w')
  {
    var pipe' := match Completes(w.host, work)
                 case Some(c) => D.Next(cfg, w.pipe, D.OnHost(D.Finish(c.0, outcome)))
                 case None => w.pipe;
    w' := Whole(pipe', A.Step(w.host, work));
  }

  /** Nor a crash of the host at any time, nor a power loss to any content. */
  lemma CrashUnhindered(cfg: D.Config, w: Whole, a: Act) returns (w': Whole)
    requires Inv(cfg, w)
    requires a.HostDies? || (a.PowerLoss? && a.file < |w.pipe.files| && a.log < |w.pipe.logs|)
    ensures Next(cfg, w, a, w')
  {
    if a.HostDies? {
      w' := Whole(D.Next(cfg, w.pipe, D.OnHost(D.Stop)), A.Step(w.host, A.Restart(w.host.pending)));
    } else {
      var l := w.pipe.logs[a.log];
      assert l in w.pipe.logs && LogOk(l, cfg.lim);
      DistinctConcat(Window(l, cfg.lim), Ids(l.pending));
      w' := Whole(D.Next(cfg, w.pipe, D.PowerLoss(a.file, a.log)), A.Step(w.host, A.Restart(l.pending)));
    }
  }

  // ---------------------------------------------------------------- runs

  lemma NextKeeps(cfg: D.Config, w: Whole, a: Act, w': Whole)
    requires cfg.lim.Clamped() && Inv(cfg, w) && Next(cfg, w, a, w')
    ensures Inv(cfg, w')
  {
    match a
    case Piping(p) => PipingKeeps(cfg, w, p, w');
    case Working(work, outcome) => WorkingKeeps(cfg, w, work, outcome, w');
    case _ => CrashKeeps(cfg, w, a, w');
  }

  lemma {:induction false} RunInv(cfg: D.Config, states: seq<Whole>, acts: seq<Act>, n: nat)
    requires Run(cfg, states, acts) && n <= |acts|
    ensures Inv(cfg, states[n])
  {
    if n > 0 {
      RunInv(cfg, states, acts, n - 1);
      NextKeeps(cfg, states[n - 1], acts[n - 1], states[n]);
    } else {
      BeginInv(cfg, states[0]);
    }
  }

  lemma BeginInv(cfg: D.Config, w: Whole)
    requires Begins(cfg, w)
    ensures Inv(cfg, w)
  {
    DS.BeginInv(cfg, w.pipe);
    PendingDistinct(D.Current(w.pipe.logs), cfg.lim);
  }

  // ---------------------------------------------------------------- results

  /** The call is for an entry that some poll of the run listed in its thread, and of the entry's kind. */
  ghost predicate ForEntry(r: D.Record, c: A.Call) {
    exists i, k :: 0 <= i < |r.polls| && ListedAt(r.polls[i], c, k)
  }

  ghost predicate ListedAt(poll: D.Poll, c: A.Call, k: int) {
    && c.thread > 0 && poll.api.entries(c.thread).Some? && 0 <= k < |poll.api.entries(c.thread).value|
    && var entry := poll.api.entries(c.thread).value[k];
       entry.id > 0 && c.id == EventId(c.thread, entry.id) && (c.kind == Comment <==> entry.kind == "comment")
  }

  /** The call is for an event of this queue. */
  ghost predicate ForPending(queue: seq<HeyEvent>, c: A.Call) {
    exists e :: e in queue && c == A.Call(e.threadId, e.eventId, e.kind)
  }

  /**
   Kinds, from the mailbox to the mutation: in every run of the whole bridge, every mutation invoked is on the
   thread and entry that some poll listed, and it is a comment exactly when that entry is a comment; or it is
   for an event that was pending when the run began, and of that event's kind.
   */
  lemma MutationsMatchEntries(cfg: D.Config, states: seq<Whole>, acts: seq<Act>, n: nat, c: A.Call)
    requires Run(cfg, states, acts) && n <= |acts| && c in states[n].host.calls
    ensures ForEntry(states[n].pipe.record, c) || ForPending(states[0].host.pending, c)
  {
    RunInv(cfg, states, acts, n);
    StartStays(cfg, states, acts, n);
    var r := states[n].pipe.record;
    assert Backed(r, c);
    var e: HeyEvent :| D.Sourced(r, e) && c == A.Call(e.threadId, e.eventId, e.kind);
    if e !in r.start.pending {
      PlantedListed(cfg, r, e, c);
    }
  }

  lemma PlantedListed(cfg: D.Config, r: D.Record, e: HeyEvent, c: A.Call)
    requires D.PollsOk(cfg, r) && D.Planted(r, e) && c == A.Call(e.threadId, e.eventId, e.kind)
    ensures ForEntry(r, c)
  {
    DR.PlantedHydrated(cfg, r, e);
    var i :| 0 <= i < |r.polls| && DR.FromEntry(r.polls[i].api, e);
    EntryListed(r.polls[i], e);
    var m :| ListedAt(r.polls[i], c, m);
  }

  /** The record keeps the queue the run began with. */
  lemma StartStays(cfg: D.Config, states: seq<Whole>, acts: seq<Act>, n: nat)
    requires Run(cfg, states, acts) && n <= |acts|
    ensures states[n].pipe.record.start == states[0].pipe.record.start
    ensures states[0].pipe.record.start.pending == states[0].host.pending
  {
    var pipes, steps := PipeIsRun(cfg, states, acts, n);
    DR.StartStays(cfg, pipes, steps, |steps|);
  }

  lemma EntryListed(poll: D.Poll, e: HeyEvent)
    requires DR.FromEntry(poll.api, e)
    ensures exists m :: ListedAt(poll, A.Call(e.threadId, e.eventId, e.kind), m)
  {
    var m :| 0 <= m < |poll.api.entries(e.threadId).value|
             && poll.api.entries(e.threadId).value[m].id == e.entryId
             && poll.api.entries(e.threadId).value[m].kind == KindText(e.kind);
    assert "comment"[0] != "message"[0];
    assert ListedAt(poll, A.Call(e.threadId, e.eventId, e.kind), m);
  }

  /**
   Conservation, in every run with any crashes, and for every content the queue may have on disk: an identity
   that was pending when the run began, and each further time an event was acknowledged under it as newly taken
   in, is matched by its being pending, or by a recorded reply or a drop for lack of authorization of its own.
   So an event accepted again after its identity was forgotten is pending until it is answered again.
   */
  lemma EachTakenUntilDone(cfg: D.Config, states: seq<Whole>, acts: seq<Act>, n: nat, id: string, l: Log)
    requires Run(cfg, states, acts) && n <= |acts| && l in states[n].pipe.logs
    ensures Times(Ids(states[0].host.pending), id) + TakenCount(states[n].pipe.record.acked, id)
            <= (if id in Ids(l.pending) then 1 else 0) + DoneCount(states[n].host, id)
  {
    RunInv(cfg, states, acts, n);
    StartStays(cfg, states, acts, n);
    var w := states[n];
    assert LogOk(l, cfg.lim) && DoneIn(w.pipe.record.start, w.host, l) && EnteredIn(w.pipe.record, w.pipe.host, l);
    PendingDistinct(l, cfg.lim);
    TimesDistinct(Ids(l.pending), id);
  }

  /**
   From the acknowledgement to the reply, in every run with any crashes: an event acknowledged as held is, in
   every content the queue may have on disk, pending, unless it was replied to or dropped because its sender
   was not authorized, or completed before the run began.
   */
  lemma AckedUntilDone(cfg: D.Config, states: seq<Whole>, acts: seq<Act>, n: nat, ack: D.Receipt, l: Log)
    requires Run(cfg, states, acts) && n <= |acts| && l in states[n].pipe.logs
    requires ack in states[n].pipe.record.acked && ack.why.Held()
    ensures || ack.id in Ids(l.pending) || DoneWith(states[n].host, ack.id)
            || ack.id in states[n].pipe.record.start.completed
  {
    RunInv(cfg, states, acts, n);
    var w := states[n];
    assert D.AccountedFor(w.pipe, ack);
    var i :| 0 <= i < |w.pipe.logs| && w.pipe.logs[i] == l;
    assert D.TookIn(w.pipe.logs[i], ack.id);
    if ack.id in l.completed {
      CompletedIsDone(cfg, w, l, ack.id);
    }
  }

  lemma CompletedIsDone(cfg: D.Config, w: Whole, l: Log, id: string)
    requires Inv(cfg, w) && l in w.pipe.logs && id in l.completed
    ensures DoneWith(w.host, id) || id in w.pipe.record.start.completed
  {
    assert DoneIn(w.pipe.record.start, w.host, l);
    assert Times(l.completed, id) > 0;
    if Recorded(w.host.replies, id) > 0 {
      RecordedWitness(w.host.replies, id);
    }
  }

  lemma {:induction false} RecordedWitness(replies: seq<A.Reply>, id: string)
    requires Recorded(replies, id) > 0
    ensures exists r :: r in replies && r.event.eventId == id
  {
    var last := replies[|replies| - 1];
    if last.event.eventId != id {
      RecordedWitness(replies[..|replies| - 1], id);
      var r :| r in replies[..|replies| - 1] && r.event.eventId == id;
      assert r in replies;
    }
  }

  ghost predicate NoPowerLoss(steps: seq<D.Act>) {
    forall i :: 0 <= i < |steps| ==> !steps[i].PowerLoss?
  }

  /**
   While the machine stays up, of every acknowledgement for an authorized sender: its event is pending in the
   queue that readers see, unless it was replied to or dropped, or completed before the run began.
   */
  lemma AckedUntilDoneWhileUp(cfg: D.Config, states: seq<Whole>, acts: seq<Act>, n: nat, ack: D.Receipt)
    requires Run(cfg, states, acts) && n <= |acts| && forall i :: 0 <= i < n ==> !acts[i].PowerLoss?
    requires ack in states[n].pipe.record.acked && ack.why != D.TurnedAway
    ensures || ack.id in Ids(states[n].host.pending) || DoneWith(states[n].host, ack.id)
            || ack.id in states[n].pipe.record.start.completed
  {
    RunInv(cfg, states, acts, n);
    var pipes, steps := PipeIsRun(cfg, states, acts, n);
    DR.NoLossWhileUp(cfg, pipes, steps, |steps|);
    var now := D.Current(states[n].pipe.logs);
    assert DR.AccountedNow(states[n].pipe, ack) && now in states[n].pipe.logs;
    if ack.id in now.completed {
      CompletedIsDone(cfg, states[n], now, ack.id);
    }
  }

  /** The pipeline of a run of the bridge is a run of the pipeline. */
  lemma {:induction false} PipeIsRun(cfg: D.Config, states: seq<Whole>, acts: seq<Act>, n: nat)
    returns (pipes: seq<D.Pipeline>, steps: seq<D.Act>)
    requires Run(cfg, states, acts) && n <= |acts|
    ensures D.Run(cfg, pipes, steps) && pipes[0] == states[0].pipe && pipes[|steps|] == states[n].pipe
    ensures (forall i :: 0 <= i < n ==> !acts[i].PowerLoss?) ==> NoPowerLoss(steps)
  {
    if n == 0 {
      pipes, steps := [states[0].pipe], [];
    } else {
      pipes, steps := PipeIsRun(cfg, states, acts, n - 1);
      var w, a, w' := states[n - 1], acts[n - 1], states[n];
      var step := PipeStep(cfg, w, a, w');
      if step.Some? {
        pipes, steps := PipeSnoc(cfg, pipes, steps, step.value, w'.pipe);
      }
    }
  }

  lemma PipeStep(cfg: D.Config, w: Whole, a: Act, w': Whole) returns (step: Option<D.Act>)
    requires Next(cfg, w, a, w')
    ensures if step.Some? then D.Enabled(cfg, w.pipe, step.value) && w'.pipe == D.Next(cfg, w.pipe, step.value)
            else w'.pipe == w.pipe
    ensures step.Some? && step.value.PowerLoss? ==> a.PowerLoss?
  {
    match a
    case Piping(p) => step := Some(p);
    case Working(work, outcome) =>
      var c := Completes(w.host, work);
      step := if c.Some? then Some(D.OnHost(D.Finish(c.value.0, outcome))) else None;
    case HostDies => step := Some(D.OnHost(D.Stop));
    case PowerLoss(file, log) => step := Some(D.PowerLoss(file, log));
  }

  lemma PipeSnoc(cfg: D.Config, pipes: seq<D.Pipeline>, steps: seq<D.Act>, step: D.Act, pipe': D.Pipeline)
    returns (pipes': seq<D.Pipeline>, steps': seq<D.Act>)
    requires D.Run(cfg, pipes, steps) && D.Enabled(cfg, pipes[|steps|], step)
    requires pipe' == D.Next(cfg, pipes[|steps|], step)
    ensures D.Run(cfg, pipes', steps') && pipes'[0] == pipes[0] && pipes'[|steps'|] == pipe'
    ensures NoPowerLoss(steps) && !step.PowerLoss? ==> NoPowerLoss(steps')
  {
    pipes', steps' := DS.RunSnoc(cfg, pipes, steps, step, pipe');
  }

  /** The adapters of a run of the bridge make a run of the adapters, which begins by finding the queue. */
  lemma {:induction false} HostIsRun(cfg: D.Config, states: seq<Whole>, acts: seq<Act>, n: nat)
    returns (hosts: seq<A.System>, steps: seq<A.Action>)
    requires Run(cfg, states, acts) && n <= |acts|
    ensures AS.Run(hosts, steps) && hosts[|steps|] == states[n].host
  {
    if n == 0 {
      BeginInv(cfg, states[0]);
      hosts, steps := HostSnoc([A.Empty()], [], A.Restart(states[0].host.pending), states[0].host);
    } else {
      hosts, steps := HostIsRun(cfg, states, acts, n - 1);
      var w, a, w' := states[n - 1], acts[n - 1], states[n];
      var step := HostStep(cfg, w, a, w');
      if step.Some? {
        hosts, steps := HostSnoc(hosts, steps, step.value, w'.host);
      }
    }
  }

  lemma HostSnoc(hosts: seq<A.System>, steps: seq<A.Action>, step: A.Action, host': A.System)
    returns (hosts': seq<A.System>, steps': seq<A.Action>)
    requires AS.Run(hosts, steps) && A.Enabled(hosts[|steps|], step) && host' == A.Step(hosts[|steps|], step)
    ensures AS.Run(hosts', steps') && hosts'[|steps'|] == host'
  {
    hosts', steps' := hosts + [host'], steps + [step];
  }

  lemma FollowStep(host: A.System, before: seq<HeyEvent>, after: seq<HeyEvent>, host': A.System)
    returns (step: Option<A.Action>)
    requires Follows(host, before, after, host')
    ensures if step.Some? then A.Enabled(host, step.value) && host' == A.Step(host, step.value) else host' == host
  {
    step := if after == before then None else Some(A.Accept(after[|after| - 1]));
  }

  lemma HostStep(cfg: D.Config, w: Whole, a: Act, w': Whole) returns (step: Option<A.Action>)
    requires Next(cfg, w, a, w')
    ensures if step.Some? then A.Enabled(w.host, step.value) && w'.host == A.Step(w.host, step.value)
            else w'.host == w.host
  {
    match a
    case Piping(p) =>
      step := FollowStep(w.host, D.Current(w.pipe.logs).pending, D.Current(w'.pipe.logs).pending, w'.host);
    case Working(work, outcome) => step := Some(work);
    case HostDies => step := Some(A.Restart(w.host.pending));
    case PowerLoss(file, log) => step := Some(A.Restart(w.pipe.logs[log].pending));
  }
}
