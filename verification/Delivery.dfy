/**
 The pipeline: sidecar, host, the two pipes between them, the cursor file and the queue, with crashes
 of either process and of the machine. Each algorithm appears here by the contract proved for it.
 */
module Delivery {
  import opened Wrappers
  import opened Sequences
  import opened Decimal
  import opened Events
  import opened Hydration
  import opened PollPlan
  import opened WatchEngines
  import opened QueueModel
  import opened QueueRefinement

  datatype Config = Config(own: string, account: int, lim: Limits)

  /** Where a poll stands after `acked` acknowledgements. */
  datatype Stage = Saving | Emitting | Awaiting

  datatype Sidecar = Down | Starting | Idle | Polling(acked: nat, stage: Stage)

  /**
   Why an event may be acknowledged: its sender is not authorized; or it was taken in; or it was refused as
   seen, and is held by every content the queue may have on disk, or is not.
   */
  datatype Why = TurnedAway | New | Again | Exposed {
    /** Every content the queue may have on disk holds the event. */
    predicate Held() {
      New? || Again?
    }
  }

  /** An acknowledgement, sent or owed. */
  datatype Receipt = Receipt(id: string, why: Why)

  datatype Host = Stopped | AwaitingReady | Watching | Owes(receipt: Receipt)

  /** A poll that gathered its plan: what it read and what it set out to do. */
  datatype Poll = Poll(api: Api, boxes: seq<Box>, base: Cursors, plan: Plan)

  /**
   What happened so far, for stating properties; no step reads it except for the poll under way. `start` is
   the queue when the run began. `baselines` has, for each box, the cursors with which readiness was announced:
   one, and one more each time after a power loss brought back a file without the box. The last one is in
   force for the boxes of `inForce`.
   */
  datatype Record = Record(
    start: Log, polls: seq<Poll>, baselines: map<int, seq<Cursor>>, inForce: set<int>, acked: seq<Receipt>)

  /**
   `files` and `logs` list what the machine may find on disk if it goes down: the last element is what
   a reader sees now, the earlier ones are contents a failed directory sync left possible.
   */
  datatype Pipeline = Pipeline(
    sidecar: Sidecar, host: Host, toHost: seq<map<Key, Json>>, toSidecar: seq<string>,
    files: seq<CursorFile>, logs: seq<Log>, record: Record)

  function Latest<T>(list: seq<T>): T
    requires list != []
  {
    list[|list| - 1]
  }

  /** The queue that readers see. */
  function Current(logs: seq<Log>): Log
    requires logs != []
  {
    logs[|logs| - 1]
  }

  /** Nothing runs; the cursor file is any file, and the queue any that saves may leave. */
  ghost predicate Begins(cfg: Config, s: Pipeline) {
    && cfg.lim.Clamped() && s.logs != [] && LogOk(Current(s.logs), cfg.lim) && s.files != []
    && s == Pipeline(Down, Stopped, [], [], [Latest(s.files)], [Current(s.logs)],
                     Record(Current(s.logs), [], map[], {}, []))
  }

  // ---------------------------------------------------------------- the steps of the sidecar

  datatype SidecarAct =
    | Initialise(api: Api, boxes: seq<Box>, outcome: SaveOutcome, announced: bool)
    | StartPoll(api: Api, boxes: seq<Box>)
    | SaveState(outcome: SaveOutcome)
    | NothingToSave
    | Emit
    | TakeAck
    | EndPoll
    | Die(report: Option<string>)   // any error or a crash; an error is reported in a fatal frame

  function CursorsIn(file: CursorFile): Cursors {
    if file.Stored? then file.cursors else map[]
  }

  ghost predicate SidecarEnabled(cfg: Config, s: Pipeline, a: SidecarAct) {
    s.files != [] &&
    match a
    case Initialise(api, boxes, _, _) =>
      s.sidecar == Starting && LoadCursors(Latest(s.files)).Ok? && Baseline(api, boxes, CursorsIn(Latest(s.files))).Ok?
    case StartPoll(api, boxes) =>
      s.sidecar == Idle && DistinctBoxes(boxes) && PlanHere(Latest(s.files), api, Some(boxes), cfg.own).Ok?
    case SaveState(_) => AtStage(s, Saving)
    case NothingToSave => AtStage(s, Saving) && Latest(s.files) == Stored(Earnings(s))
    case Emit => AtStage(s, Emitting) && s.sidecar.acked < |Items(s)|
    case TakeAck => AtStage(s, Awaiting) && s.sidecar.acked < |Items(s)| && s.toSidecar != []
    case EndPoll => AtStage(s, Emitting) && s.sidecar.acked == |Items(s)|
    case Die(_) => s.sidecar != Down
  }

  predicate AtStage(s: Pipeline, stage: Stage) {
    s.sidecar.Polling? && s.sidecar.stage == stage && s.record.polls != []
  }

  function Items(s: Pipeline): seq<Item>
    requires s.record.polls != []
  {
    Latest(s.record.polls).plan.items
  }

  /** The cursors the poll under way has earned. */
  ghost function Earnings(s: Pipeline): Cursors
    requires s.sidecar.Polling? && s.record.polls != []
  {
    AfterAcks(Latest(s.record.polls).plan, Latest(s.record.polls).base, s.sidecar.acked)
  }

  ghost function SidecarStep(cfg: Config, s: Pipeline, a: SidecarAct): Pipeline
    requires SidecarEnabled(cfg, s, a)
  {
    match a
    case Initialise(api, boxes, outcome, announced) =>
      Initialised(s, Baseline(api, boxes, CursorsIn(Latest(s.files))).value, outcome, announced)
    case StartPoll(api, boxes) => PollStarted(cfg, s, api, boxes)
    case SaveState(outcome) =>
      s.(files := AfterSave(s.files, Stored(Earnings(s)), outcome),
         sidecar := if outcome == Saved then Polling(s.sidecar.acked, Emitting) else Down)
    case NothingToSave => s.(sidecar := Polling(s.sidecar.acked, Emitting))
    case Emit =>
      s.(toHost := s.toHost + [EventFrame(Items(s)[s.sidecar.acked].event)],
         sidecar := Polling(s.sidecar.acked, Awaiting))
    case TakeAck =>
      s.(toSidecar := s.toSidecar[1..],
         sidecar := if s.toSidecar[0] == Items(s)[s.sidecar.acked].event.eventId
                    then Polling(s.sidecar.acked + 1, Saving) else Down)
    case EndPoll => s.(sidecar := Idle)
    case Die(report) =>
      s.(sidecar := Down, toHost := if report.Some? then s.toHost + [FatalFrame(report.value)] else s.toHost)
  }

  /** The baselines announced for a box so far. */
  function Announced(r: Record, b: int): seq<Cursor> {
    if b in r.baselines then r.baselines[b] else []
  }

  /** Readiness is announced with these cursors: for a box that has no baseline in force, its cursor is the next one. */
  function Announce(r: Record, based: Cursors): Record {
    r.(baselines := map b | b in r.baselines.Keys + based.Keys ::
         if b in based && b !in r.inForce then Announced(r, b) + [based[b]] else Announced(r, b),
       inForce := r.inForce + based.Keys)
  }

  /** Readiness is announced once the file that readers see has the cursors, unless the process dies first. */
  function Initialised(s: Pipeline, based: Cursors, outcome: SaveOutcome, announced: bool): Pipeline
    requires s.files != []
  {
    var matches := Latest(s.files) == Stored(based);
    var s1 := if matches then s else s.(files := AfterSave(s.files, Stored(based), outcome));
    if announced && (matches || outcome == Saved)
    then s1.(sidecar := Idle, toHost := s.toHost + [ReadyFrame()], record := Announce(s.record, based))
    else s1.(sidecar := Down)
  }

  ghost function PollStarted(cfg: Config, s: Pipeline, api: Api, boxes: seq<Box>): Pipeline
    requires s.files != [] && PlanHere(Latest(s.files), api, Some(boxes), cfg.own).Ok?
  {
    var base := CursorsIn(Latest(s.files));
    var poll := Poll(api, boxes, base, PlanHere(Latest(s.files), api, Some(boxes), cfg.own).value);
    s.(sidecar := Polling(0, Saving), record := s.record.(polls := s.record.polls + [poll]))
  }

  // ---------------------------------------------------------------- the steps of the host

  datatype HostAct =
    | Launch
    | Receive(authorized: bool, outcome: SaveOutcome)
    | SendAck
    | Stop
    | Finish(id: string, outcome: SaveOutcome)   // the queue's `complete`, by a drain or after a confirmed send

  predicate ReadyAccepted(frame: map<Key, Json>) {
    ParseFatalFrame(frame) == Ok(false) && ParseReadyFrame(frame, PROTOCOL_VERSION).Ok?
  }

  /** The candidates after one queue operation: a save that returned left one. */
  function Kept(logs: seq<Log>, op: Op, outcome: SaveOutcome, lim: Limits): seq<Log>
    requires logs != []
  {
    var (l, answer) := LogStep(Current(logs), op, outcome, lim);
    if answer == Accepted || answer == Completed then [l]
    else if answer == Failed(QueueError.SaveFailed) && outcome == FailedAfter then logs + [l]
    else logs
  }

  ghost predicate HostEnabled(s: Pipeline, a: HostAct) {
    s.logs != [] &&
    match a
    case Launch => s.host == Stopped && s.sidecar == Down
    case Receive(_, _) => (s.host == AwaitingReady || s.host == Watching) && s.toHost != []
    case SendAck => s.host.Owes?
    case Stop => true
    case Finish(_, _) => true
  }

  /** The host gives up on the connection and its sidecar is killed. */
  function Halted(s: Pipeline): Pipeline {
    s.(host := Stopped, sidecar := Down, toHost := [], toSidecar := [])
  }

  ghost function HostStep(cfg: Config, s: Pipeline, a: HostAct): Pipeline
    requires HostEnabled(s, a)
  {
    match a
    case Launch => s.(host := AwaitingReady, sidecar := Starting, toHost := [], toSidecar := [])
    case Receive(authorized, outcome) =>
      if s.host == AwaitingReady then
        if ReadyAccepted(s.toHost[0]) then s.(host := Watching, toHost := s.toHost[1..]) else Halted(s)
      else
        (match PostReady(cfg.account, s.toHost[0])
         case None => Halted(s)
         case Some(e) => Ingested(cfg, s.(toHost := s.toHost[1..]), e, authorized, outcome))
    case SendAck =>
      s.(host := Watching, toSidecar := s.toSidecar + [s.host.receipt.id],
         record := s.record.(acked := s.record.acked + [s.host.receipt]))
    case Stop => Halted(s)
    case Finish(id, outcome) => s.(logs := Kept(s.logs, CompleteOp(id), outcome, cfg.lim))
  }

  ghost function Ingested(cfg: Config, s: Pipeline, e: HeyEvent, authorized: bool, outcome: SaveOutcome): Pipeline
    requires s.logs != []
  {
    var op := IngestOp(e, authorized);
    var answer := LogStep(Current(s.logs), op, outcome, cfg.lim).1;
    var s1 := s.(logs := Kept(s.logs, op, outcome, cfg.lim));
    if answer.Failed? then Halted(s1)
    else s1.(host := Owes(Receipt(e.eventId, WhyOf(s.logs, e, authorized, answer))))
  }

  ghost function WhyOf(logs: seq<Log>, e: HeyEvent, authorized: bool, answer: Answer): Why {
    if !authorized then TurnedAway
    else if answer == Accepted then New
    else if Secure(logs, e.eventId) then Again
    else Exposed
  }

  // ---------------------------------------------------------------- the machine

  datatype Act =
    | Side(side: SidecarAct)
    | OnHost(act: HostAct)
    | PowerLoss(file: nat, log: nat)

  ghost predicate Enabled(cfg: Config, s: Pipeline, a: Act) {
    match a
    case Side(side) => SidecarEnabled(cfg, s, side)
    case OnHost(act) => HostEnabled(s, act)
    case PowerLoss(file, log) => file < |s.files| && log < |s.logs|
  }

  ghost function Next(cfg: Config, s: Pipeline, a: Act): Pipeline
    requires Enabled(cfg, s, a)
  {
    match a
    case Side(side) => SidecarStep(cfg, s, side)
    case OnHost(act) => HostStep(cfg, s, act)
    case PowerLoss(file, log) =>
      Halted(s).(files := [s.files[file]], logs := [s.logs[log]],
                 record := s.record.(inForce := s.record.inForce * CursorsIn(s.files[file]).Keys))
  }

  ghost predicate Run(cfg: Config, states: seq<Pipeline>, acts: seq<Act>) {
    && |states| == |acts| + 1 && Begins(cfg, states[0])
    && forall i :: 0 <= i < |acts| ==>
          Enabled(cfg, states[i], acts[i]) && states[i + 1] == Next(cfg, states[i], acts[i])
  }

  // ---------------------------------------------------------------- what holds throughout

  /** The identity was taken into the queue: it is pending, or was completed. */
  predicate TookIn(l: Log, id: string) {
    id in l.completed || id in Ids(l.pending)
  }

  /** It stays so whatever a power loss leaves. */
  ghost predicate Secure(logs: seq<Log>, id: string) {
    forall i :: 0 <= i < |logs| ==> TookIn(logs[i], id)
  }

  ghost predicate AccountedFor(s: Pipeline, ack: Receipt) {
    ack.why.Held() ==> Secure(s.logs, ack.id)
  }

  /** Every acknowledgement made, and the one about to be, is accounted for. */
  ghost predicate AcksOk(s: Pipeline) {
    && s.logs != []
    && (forall ack :: ack in s.record.acked ==> AccountedFor(s, ack))
    && (s.host.Owes? ==> AccountedFor(s, s.host.receipt))
  }

  ghost predicate IsAcked(r: Record, id: string) {
    exists why :: Receipt(id, why) in r.acked
  }

  /** Everything the poll emits for the box was acknowledged. */
  ghost predicate AllAcked(r: Record, poll: Poll, b: int) {
    forall i :: 0 <= i < |poll.plan.items| && b in poll.plan.items[i].boxes ==>
        IsAcked(r, poll.plan.items[i].event.eventId)
  }

  /** The cursor is the last baseline announced for the box. */
  predicate IsBaseline(r: Record, b: int, c: Cursor) {
    Announced(r, b) != [] && c == Latest(Announced(r, b))
  }

  /**
   The cursor is the box's baseline, or the next cursor of one of the first `n` polls, all of whose
   events for the box were acknowledged, and which itself started from such a cursor.
   */
  ghost predicate Chained(r: Record, n: nat, b: int, c: Cursor)
    decreases n
  {
    IsBaseline(r, b, c) || exists i :: 0 <= i < n && LinkOf(r, i, b, c) && Chained(r, i, b, r.polls[i].base[b])
  }

  ghost predicate LinkOf(r: Record, i: nat, b: int, c: Cursor) {
    && i < |r.polls| && b in r.polls[i].base && b in r.polls[i].plan.nexts
    && r.polls[i].plan.nexts[b] == c && AllAcked(r, r.polls[i], b)
  }

  ghost predicate CursorsChained(r: Record, n: nat, cursors: Cursors) {
    forall b :: b in cursors && b in r.inForce ==> Chained(r, n, b, cursors[b])
  }

  ghost predicate FilesOk(s: Pipeline) {
    && s.files != []
    && FileListOk(s.record, s.files)
    && (forall b :: b in s.record.inForce ==> Announced(s.record, b) != [] && b in CursorsIn(Latest(s.files)))
    && (s.sidecar.Idle? || s.sidecar.Polling? ==> CursorsIn(Latest(s.files)).Keys <= s.record.inForce)
    && (s.sidecar.Polling? ==> PollOk(s))
  }

  ghost predicate FileListOk(r: Record, files: seq<CursorFile>)
    requires files != []
  {
    forall j :: 0 <= j < |files| ==>
        CursorsChained(r, |r.polls|, CursorsIn(files[j])) && Awaits(r, CursorsIn(files[j]), CursorsIn(Latest(files)))
  }

  /** The boxes of an earlier content are known now, and one whose readiness is still to be announced has its cursor. */
  ghost predicate Awaits(r: Record, earlier: Cursors, now: Cursors) {
    forall b :: b in earlier ==> b in now && (b !in r.inForce ==> now[b] == earlier[b])
  }

  /**
   The poll under way: its first items are acknowledged, and it started from chained cursors of the boxes known
   now.
   */
  ghost predicate PollOk(s: Pipeline)
    requires s.files != [] && s.sidecar.Polling?
  {
    && s.record.polls != [] && s.sidecar.acked <= |Items(s)|
    && (s.sidecar.stage == Awaiting ==> s.sidecar.acked < |Items(s)|)
    && (forall i :: 0 <= i < s.sidecar.acked ==> IsAcked(s.record, Items(s)[i].event.eventId))
    && Latest(s.record.polls).base.Keys == CursorsIn(Latest(s.files)).Keys
    && CursorsChained(s.record, |s.record.polls| - 1, Latest(s.record.polls).base)
  }

  ghost predicate PollsOk(cfg: Config, r: Record) {
    forall i :: 0 <= i < |r.polls| ==> Planned(cfg, r.polls[i])
  }

  ghost predicate Planned(cfg: Config, poll: Poll) {
    DistinctBoxes(poll.boxes) && PlanOf(poll.api, Some(poll.boxes), cfg.own, poll.base) == Ok(poll.plan)
  }

  /** Nothing is in flight but possibly the ready frame. */
  predicate Quiet(s: Pipeline) {
    && s.toSidecar == []
    && ((s.host == AwaitingReady && s.toHost == [ReadyFrame()]) || (s.host == Watching && s.toHost == []))
  }

  /** Exactly one event is on its way: its frame, the host's debt of an ack, or the ack. */
  ghost predicate InFlight(s: Pipeline, e: HeyEvent) {
    || (s.toSidecar == [] && s.host == AwaitingReady && s.toHost == [ReadyFrame(), EventFrame(e)])
    || (s.toSidecar == [] && s.host == Watching && s.toHost == [EventFrame(e)])
    || (s.toSidecar == [] && s.host.Owes? && s.host.receipt.id == e.eventId && s.toHost == [])
    || (s.toSidecar == [e.eventId] && s.host == Watching && s.toHost == [] && IsAcked(s.record, e.eventId))
  }

  ghost predicate Lockstep(s: Pipeline) {
    match s.sidecar
    case Down => s.host == Stopped ==> s.toHost == [] && s.toSidecar == []
    case Starting => s.host == AwaitingReady && s.toHost == [] && s.toSidecar == []
    case Idle => Quiet(s)
    case Polling(k, stage) =>
      if stage != Awaiting then Quiet(s) else s.record.polls != [] && k < |Items(s)| && InFlight(s, Items(s)[k].event)
  }

  /** The event is an item of some poll's plan. */
  ghost predicate Planted(r: Record, e: HeyEvent) {
    exists i, k :: 0 <= i < |r.polls| && 0 <= k < |r.polls[i].plan.items| && r.polls[i].plan.items[k].event == e
  }

  /** Queued events and event frames are events of plans, unchanged. */
  ghost predicate Genuine(s: Pipeline) {
    LogsGenuine(s.record, s.logs) && FramesGenuine(s.record, s.toHost)
  }

  ghost predicate LogsGenuine(r: Record, logs: seq<Log>) {
    forall j, e :: 0 <= j < |logs| && e in logs[j].pending ==> Sourced(r, e)
  }

  /** It was pending when the run began, or is an item of some poll's plan. */
  ghost predicate Sourced(r: Record, e: HeyEvent) {
    e in r.start.pending || Planted(r, e)
  }

  ghost predicate FramesGenuine(r: Record, frames: seq<map<Key, Json>>) {
    forall f :: f in frames && ParseEventFrame(f).Ok? ==> Planted(r, ParseEventFrame(f).value)
  }

  ghost predicate Inv(cfg: Config, s: Pipeline) {
    AcksOk(s) && FilesOk(s) && PollsOk(cfg, s.record) && Lockstep(s) && Genuine(s)
  }
}
