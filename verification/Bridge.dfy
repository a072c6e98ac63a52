/**
 The whole bridge: the pipeline of Delivery and the adapters of Adapters over one queue. What the pipeline
 takes in, the adapters find pending; what they complete, they complete in the pipeline's queue.
 */
module Bridge {
  import opened Wrappers
  import opened Sequences
  import opened Decimal
  import opened Events
  import opened QueueModel
  import opened QueueRefinement
  import A = Adapters
  import D = Delivery

  datatype Whole = Whole(pipe: D.Pipeline, host: A.System)

  datatype Act =
    | Piping(pipe: D.Act)                             // a step of the sidecar, or of the host's connection
    | Working(work: A.Action, outcome: SaveOutcome)   // a step of an adapter, and how its save ends if it has one
    | HostDies                                        // the host process ends: the connection and every adapter
    | PowerLoss(file: nat, log: nat)

  /** How completing the identity in this queue ends for the caller. */
  function CompletionOf(l: Log, id: string, outcome: SaveOutcome, lim: Limits): A.Completion {
    var answer := LogStep(l, CompleteOp(id), outcome, lim).1;
    if answer == Answer.Completed then A.Returned
    else if answer == Failed(QueueError.SaveFailed) && outcome == FailedAfter then A.RaisedKept
    else A.RaisedLost
  }

  /** The completion an adapter's step performs, if it performs one. */
  ghost function Completes(s: A.System, a: A.Action): Option<(string, A.Completion)> {
    match a
    case DrainStep(d, verdict) =>
      if A.Current(s, d) && verdict.Unauthorized? then Some((A.At(s, d).eventId, verdict.completion)) else None
    case Returns(j, outcome) =>
      if j in s.jobs && outcome.Confirmed? && s.jobs[j].event.threadId in s.claims
      then Some((s.claims[s.jobs[j].event.threadId], outcome.completion)) else None
    case _ => None
  }

  ghost predicate Enabled(cfg: D.Config, w: Whole, a: Act) {
    w.pipe.logs != [] &&
    match a
    case Piping(p) => D.Enabled(cfg, w.pipe, p) && !p.PowerLoss? && !(p.OnHost? && p.act.Finish?)
    case Working(work, outcome) =>
      && A.Enabled(w.host, work) && !work.Accept? && !work.Restart?
      && var c := Completes(w.host, work);
         c.Some? ==> c.value.1 == CompletionOf(D.Current(w.pipe.logs), c.value.0, outcome, cfg.lim)
    case HostDies => true
    case PowerLoss(file, log) => file < |w.pipe.files| && log < |w.pipe.logs|
  }

  /** The adapters' queue follows the pipeline's: nothing new, or one event more. */
  ghost predicate Follows(host: A.System, before: seq<HeyEvent>, after: seq<HeyEvent>, host': A.System) {
    if after == before then host' == host
    else
      && after != [] && A.Enabled(host, A.Accept(after[|after| - 1]))
      && host' == A.Step(host, A.Accept(after[|after| - 1]))
  }

  ghost predicate Next(cfg: D.Config, w: Whole, a: Act, w': Whole) {
    && Enabled(cfg, w, a)
    && match a
       case Piping(p) =>
         && w'.pipe == D.Next(cfg, w.pipe, p) && w'.pipe.logs != []
         && Follows(w.host, D.Current(w.pipe.logs).pending, D.Current(w'.pipe.logs).pending, w'.host)
       case Working(work, outcome) =>
         && w'.host == A.Step(w.host, work)
         && w'.pipe == (match Completes(w.host, work)
                        case Some(c) => D.Next(cfg, w.pipe, D.OnHost(D.Finish(c.0, outcome)))
                        case None => w.pipe)
       case HostDies =>
         && w'.pipe == D.Next(cfg, w.pipe, D.OnHost(D.Stop))
         && A.Enabled(w.host, A.Restart(w.host.pending)) && w'.host == A.Step(w.host, A.Restart(w.host.pending))
       case PowerLoss(file, log) =>
         && w'.pipe == D.Next(cfg, w.pipe, D.PowerLoss(file, log))
         && A.Enabled(w.host, A.Restart(w.pipe.logs[log].pending))
         && w'.host == A.Step(w.host, A.Restart(w.pipe.logs[log].pending))
  }

  /** Nothing runs, and the adapters find pending what the queue holds. */
  ghost predicate Begins(cfg: D.Config, w: Whole) {
    D.Begins(cfg, w.pipe) && w.host == A.Empty().(pending := D.Current(w.pipe.logs).pending)
  }

  ghost predicate Run(cfg: D.Config, states: seq<Whole>, acts: seq<Act>) {
    && |states| == |acts| + 1 && Begins(cfg, states[0])
    && forall i :: 0 <= i < |acts| ==> Next(cfg, states[i], acts[i], states[i + 1])
  }

  // ---------------------------------------------------------------- what holds throughout

  /** Every content the queue may have on disk is a proper queue. */
  ghost predicate LogsOk(cfg: D.Config, logs: seq<Log>) {
    forall l :: l in logs ==> LogOk(l, cfg.lim)
  }

  /** The identity was replied to, or dropped for lack of authorization. */
  ghost predicate DoneWith(s: A.System, id: string) {
    id in s.dropped || exists r :: r in s.replies && r.event.eventId == id
  }

  function Times(list: seq<string>, id: string): nat {
    multiset(list)[id]
  }

  /** How many confirmed replies to the identity were recorded in the queue. */
  function Recorded(replies: seq<A.Reply>, id: string): nat {
    if replies == [] then 0
    else
      var last := replies[|replies| - 1];
      Recorded(replies[..|replies| - 1], id) + if last.recorded && last.event.eventId == id then 1 else 0
  }

  /** How often the identity was replied to, on record, or dropped. */
  function DoneCount(s: A.System, id: string): nat {
    Recorded(s.replies, id) + Times(s.dropped, id)
  }

  /** Each completion in a queue, since the run began, has a reply or a drop of its own. */
  ghost predicate AllDone(start: Log, s: A.System, logs: seq<Log>) {
    forall l :: l in logs ==> DoneIn(start, s, l)
  }

  ghost predicate DoneIn(start: Log, s: A.System, l: Log) {
    forall id :: Times(l.completed, id) <= Times(start.completed, id) + DoneCount(s, id)
  }

  /** How often the identity came into the queue. */
  function Entered(l: Log, id: string): nat {
    Times(l.completed, id) + Times(Ids(l.pending), id)
  }

  /** How often an event was acknowledged under this identity as newly taken in. */
  function TakenCount(acked: seq<D.Receipt>, id: string): nat {
    if acked == [] then 0
    else
      var last := acked[|acked| - 1];
      TakenCount(acked[..|acked| - 1], id) + if last.why.New? && last.id == id then 1 else 0
  }

  /** The host is about to acknowledge the identity as newly taken in. */
  function OwedCount(host: D.Host, id: string): nat {
    if host.Owes? && host.receipt.why.New? && host.receipt.id == id then 1 else 0
  }

  /** Whatever content comes back, each event acknowledged as newly taken in came into it. */
  ghost predicate AllEntered(s: D.Pipeline) {
    forall l :: l in s.logs ==> EnteredIn(s.record, s.host, l)
  }

  ghost predicate EnteredIn(r: D.Record, host: D.Host, l: Log) {
    forall id :: TakenCount(r.acked, id) + OwedCount(host, id) + Entered(r.start, id) <= Entered(l, id)
  }

  /** The call is for an event some poll planned, or that was pending when the run began. */
  ghost predicate Backed(r: D.Record, c: A.Call) {
    exists e: HeyEvent :: D.Sourced(r, e) && c == A.Call(e.threadId, e.eventId, e.kind)
  }

  ghost predicate CallsBacked(r: D.Record, calls: seq<A.Call>) {
    forall c :: c in calls ==> Backed(r, c)
  }

  ghost predicate Inv(cfg: D.Config, w: Whole) {
    D.Inv(cfg, w.pipe) && A.Inv(w.host) && Linked(cfg, w)
  }

  /** What holds between the two sides. */
  ghost predicate Linked(cfg: D.Config, w: Whole) {
    && w.pipe.logs != [] && w.host.pending == D.Current(w.pipe.logs).pending
    && LogsOk(cfg, w.pipe.logs) && CallsBacked(w.pipe.record, w.host.calls)
    && AllDone(w.pipe.record.start, w.host, w.pipe.logs) && AllEntered(w.pipe)
  }
}
