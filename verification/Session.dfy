/** One connection of the host to a sidecar, over any sequence of frames at all. */
module Session {
  import opened Wrappers
  import opened Sequences
  import opened Decimal
  import opened Events
  import opened QueueModel
  import opened QueueRefinement
  import opened Delivery
  import opened DeliverySafety

  /** One completion by a drain or after a confirmed send. */
  datatype Completion = Completion(id: string, outcome: SaveOutcome)

  /**
   A frame, with what the environment decides while it is handled: whether the sender is authorized, how
   the save ends, whether the acknowledgement can be written, what is completed before the next frame is
   read, and whether the drain that may follow the frame ends without raising.
   */
  datatype Heard = Heard(
    frame: map<Key, Json>, authorized: bool, outcome: SaveOutcome, ackWritten: bool, meanwhile: seq<Completion>,
      drained: bool)

  /**
   The host side after a connection: the queue, the acknowledgements it wrote, and how many frames after the ready
   frame it handled.
   */
  datatype Outcome = Outcome(log: Log, acks: seq<string>, frames: nat)

  /** The queue after some completions. */
  function Completed(log: Log, done: seq<Completion>, lim: Limits): Log
    decreases |done|
  {
    if done == [] then log else Completed(LogStep(log, CompleteOp(done[0].id), done[0].outcome, lim).0, done[1..], lim)
  }

  function Answered(cfg: Config, log: Log, heard: Heard): (Log, Answer)
    requires PostReady(cfg.account, heard.frame).Some?
  {
    LogStep(log, IngestOp(PostReady(cfg.account, heard.frame).value, heard.authorized), heard.outcome, cfg.lim)
  }

  /** The frame is an event of this account, and the queue takes or refuses it without failing. */
  predicate Settles(cfg: Config, log: Log, heard: Heard) {
    PostReady(cfg.account, heard.frame).Some? && !Answered(cfg, log, heard).1.Failed?
  }

  /** The event is acknowledged. */
  predicate Acked(cfg: Config, log: Log, heard: Heard) {
    Settles(cfg, log, heard) && heard.ackWritten
  }

  /** The connection goes on after the frame: the drain that follows an accepted event does not raise. */
  predicate GoesOn(cfg: Config, log: Log, heard: Heard) {
    Acked(cfg, log, heard) && (Answered(cfg, log, heard).1 == Accepted ==> heard.drained)
  }

  function Handled(cfg: Config, log: Log, heard: Heard): Log {
    if PostReady(cfg.account, heard.frame).None? then log
    else if Acked(cfg, log, heard) then Completed(Answered(cfg, log, heard).0, heard.meanwhile, cfg.lim)
    else Answered(cfg, log, heard).0
  }

  /** The queue after the frames of a list were handled in order. */
  function Queued(cfg: Config, log: Log, heard: seq<Heard>): Log {
    if heard == [] then log
    else Handled(cfg, Queued(cfg, log, heard[..|heard| - 1]), heard[|heard| - 1])
  }

  lemma QueuedSnoc(cfg: Config, log: Log, heard: seq<Heard>, n: nat)
    requires n < |heard|
    ensures Queued(cfg, log, heard[..n + 1]) == Handled(cfg, Queued(cfg, log, heard[..n]), heard[n])
  {
    assert heard[..n + 1][..n] == heard[..n];
  }

  // ---------------------------------------------------------------- the loops

  /** The acknowledgements are those of the first frames, in order, each of which settled. */
  ghost predicate Acknowledges(cfg: Config, log: Log, events: seq<Heard>, acks: seq<string>) {
    |acks| <= |events| && forall k :: 0 <= k < |acks| ==> AckOf(cfg, log, events, k, acks[k])
  }

  ghost predicate AckOf(cfg: Config, log: Log, events: seq<Heard>, k: nat, id: string)
    requires k < |events|
  {
    Acked(cfg, Queued(cfg, log, events[..k]), events[k]) && id == PostReady(cfg.account, events[k].frame).value.eventId
  }

  /** The connection went on after each of the first `n` frames. */
  ghost predicate WentOn(cfg: Config, log: Log, events: seq<Heard>, n: nat)
    requires n <= |events|
  {
    forall k :: 0 <= k < n ==> OnAt(cfg, log, events, k)
  }

  ghost predicate OnAt(cfg: Config, log: Log, events: seq<Heard>, k: nat)
    requires k < |events|
  {
    GoesOn(cfg, Queued(cfg, log, events[..k]), events[k])
  }

  method Complete(log: Log, done: seq<Completion>, lim: Limits) returns (r: Log)
    ensures r == Completed(log, done, lim)
  {
    r := log;
    var i := 0;
    assert done[0..] == done;
    while i < |done|
      invariant 0 <= i <= |done| && Completed(log, done, lim) == Completed(r, done[i..], lim)
    {
      assert done[i..][1..] == done[i + 1..];
      r := LogStep(r, CompleteOp(done[i].id), done[i].outcome, lim).0;
      i := i + 1;
    }
  }

  /** `process_watch_line`: ingest the event of one frame, acknowledge it, and drain if it was accepted. */
  method ProcessLine(cfg: Config, queue: Log, heard: Heard) returns (queue': Log, ack: Option<string>, on: bool)
    ensures queue' == Handled(cfg, queue, heard)
    ensures ack == if Acked(cfg, queue, heard) then Some(PostReady(cfg.account, heard.frame).value.eventId) else None
    ensures on <==> GoesOn(cfg, queue, heard)
  {
    var event := PostReady(cfg.account, heard.frame);
    if event.None? {
      return queue, None, false;
    }
    var (after, answer) := LogStep(queue, IngestOp(event.value, heard.authorized), heard.outcome, cfg.lim);
    if answer.Failed? || !heard.ackWritten {
      return after, None, false;
    }
    queue' := Complete(after, heard.meanwhile, cfg.lim);
    return queue', Some(event.value.eventId), answer != Accepted || heard.drained;
  }

  /**
   `_watch_supervisor` over one connection. Without a valid ready frame nothing happens, and if the drain
   after it raises nothing more does. Otherwise the frames after it are ingested and acknowledged in order,
   up to the first after which the connection does not go on: one that is not an event of this account,
   whose ingest fails, whose acknowledgement cannot be written, or whose drain raises. Only in the last case
   is that frame acknowledged too.
   */
  method Connection(cfg: Config, heard: seq<Heard>, log: Log) returns (r: Outcome)
    ensures heard == [] || !ReadyAccepted(heard[0].frame) ==> r == Outcome(log, [], 0)
    ensures heard != [] && ReadyAccepted(heard[0].frame) && !heard[0].drained ==>
              r == Outcome(Completed(log, heard[0].meanwhile, cfg.lim), [], 0)
    ensures heard != [] && ReadyAccepted(heard[0].frame) && heard[0].drained ==>
              Listened(cfg, Completed(log, heard[0].meanwhile, cfg.lim), heard[1..], r)
  {
    if |heard| == 0 || !ReadyAccepted(heard[0].frame) {
      return Outcome(log, [], 0);
    }
    var queue := Complete(log, heard[0].meanwhile, cfg.lim);
    if !heard[0].drained {
      return Outcome(queue, [], 0);
    }
    r := Listen(cfg, heard[1..], queue);
  }

  /**
   The frames after the ready frame: all were handled, or the last one handled is the first after which the
   connection does not go on; and all handled were acknowledged, except possibly that one.
   */
  ghost predicate Listened(cfg: Config, log: Log, events: seq<Heard>, r: Outcome) {
    && r.frames <= |events| && r.log == Queued(cfg, log, events[..r.frames])
    && (if r.frames == 0 then events == [] else WentOn(cfg, log, events, r.frames - 1))
    && (0 < r.frames < |events| ==> !OnAt(cfg, log, events, r.frames - 1))
    && Acknowledges(cfg, log, events, r.acks)
    && |r.acks| == if r.frames > 0 && !AckedAt(cfg, log, events, r.frames - 1) then r.frames - 1 else r.frames
  }

  ghost predicate AckedAt(cfg: Config, log: Log, events: seq<Heard>, k: nat)
    requires k < |events|
  {
    Acked(cfg, Queued(cfg, log, events[..k]), events[k])
  }

  /** The frames after the ready frame. */
  method Listen(cfg: Config, events: seq<Heard>, log: Log) returns (r: Outcome)
    ensures Listened(cfg, log, events, r)
  {
    var queue, acks: seq<string>, n := log, [], 0;
    while n < |events|
      invariant n <= |events| && |acks| == n && Acknowledges(cfg, log, events, acks)
      invariant queue == Queued(cfg, log, events[..n]) && WentOn(cfg, log, events, n)
    {
      var on;
      queue, acks, on := Take(cfg, log, events, n, queue, acks);
      if !on {
        r := Outcome(queue, acks, n + 1);
        StopListened(cfg, log, events, r);
        return;
      }
      WentOnMore(cfg, log, events, n);
      n := n + 1;
    }
    r := Outcome(queue, acks, n);
    EndListened(cfg, log, events, r);
  }

  lemma WentOnMore(cfg: Config, log: Log, events: seq<Heard>, n: nat)
    requires n < |events| && WentOn(cfg, log, events, n) && OnAt(cfg, log, events, n)
    ensures WentOn(cfg, log, events, n + 1)
  {
  }

  /** Handle frame `n` after the first `n` frames, and note its acknowledgement. */
  method Take(cfg: Config, ghost log: Log, events: seq<Heard>, n: nat, queue: Log, acks: seq<string>)
    returns (queue': Log, acks': seq<string>, on: bool)
    requires n < |events| && |acks| == n && Acknowledges(cfg, log, events, acks)
    requires queue == Queued(cfg, log, events[..n])
    ensures queue' == Queued(cfg, log, events[..n + 1]) && Acknowledges(cfg, log, events, acks')
    ensures |acks'| == if AckedAt(cfg, log, events, n) then n + 1 else n
    ensures (on <==> OnAt(cfg, log, events, n)) && (on ==> AckedAt(cfg, log, events, n))
  {
    var ack;
    QueuedSnoc(cfg, log, events, n);
    queue', ack, on := ProcessLine(cfg, queue, events[n]);
    acks' := acks;
    if ack.Some? {
      AckMore(cfg, log, events, acks, ack.value);
      acks' := acks + [ack.value];
    }
  }

  lemma StopListened(cfg: Config, log: Log, events: seq<Heard>, r: Outcome)
    requires 0 < r.frames <= |events| && r.log == Queued(cfg, log, events[..r.frames])
    requires WentOn(cfg, log, events, r.frames - 1) && !OnAt(cfg, log, events, r.frames - 1)
    requires Acknowledges(cfg, log, events, r.acks)
    requires |r.acks| == if AckedAt(cfg, log, events, r.frames - 1) then r.frames else r.frames - 1
    ensures Listened(cfg, log, events, r)
  {
  }

  lemma EndListened(cfg: Config, log: Log, events: seq<Heard>, r: Outcome)
    requires r.frames == |events| == |r.acks| && r.log == Queued(cfg, log, events[..r.frames])
    requires WentOn(cfg, log, events, r.frames) && Acknowledges(cfg, log, events, r.acks)
    ensures Listened(cfg, log, events, r)
  {
    assert r.frames > 0 ==> OnAt(cfg, log, events, r.frames - 1);
  }

  lemma AckMore(cfg: Config, log: Log, events: seq<Heard>, acks: seq<string>, id: string)
    requires Acknowledges(cfg, log, events, acks) && |acks| < |events| && AckOf(cfg, log, events, |acks|, id)
    ensures Acknowledges(cfg, log, events, acks + [id])
  {
  }

  // ---------------------------------------------------------------- what a connection leaves

  lemma {:induction false} CompletedKeeps(log: Log, done: seq<Completion>, lim: Limits, id: string)
    requires TookIn(log, id)
    ensures TookIn(Completed(log, done, lim), id)
    decreases |done|
  {
    if done != [] {
      StepTakes(log, CompleteOp(done[0].id), done[0].outcome, lim, id);
      CompletedKeeps(LogStep(log, CompleteOp(done[0].id), done[0].outcome, lim).0, done[1..], lim, id);
    }
  }

  lemma {:induction false} QueuedKeeps(cfg: Config, log: Log, events: seq<Heard>, m: nat, n: nat, id: string)
    requires m <= n <= |events| && TookIn(Queued(cfg, log, events[..m]), id)
    ensures TookIn(Queued(cfg, log, events[..n]), id)
  {
    if m < n {
      QueuedKeeps(cfg, log, events, m, n - 1, id);
      QueuedSnoc(cfg, log, events, n - 1);
      HandledKeeps(cfg, Queued(cfg, log, events[..n - 1]), events[n - 1], id);
    }
  }

  /**
   Every authorized event a connection acknowledged is completed or pending in the queue it leaves, whatever
   was completed meanwhile.
   */
  lemma AckedIsHeld(cfg: Config, log: Log, events: seq<Heard>, acks: seq<string>, k: nat, n: nat)
    requires Acknowledges(cfg, log, events, acks) && k < |acks| && k < n <= |events| && events[k].authorized
    ensures TookIn(Queued(cfg, log, events[..n]), acks[k])
  {
    assert AckOf(cfg, log, events, k, acks[k]);
    QueuedSnoc(cfg, log, events, k);
    HandledTakes(cfg, Queued(cfg, log, events[..k]), events[k], acks[k]);
    QueuedKeeps(cfg, log, events, k + 1, n, acks[k]);
  }

  lemma HandledKeeps(cfg: Config, log: Log, heard: Heard, id: string)
    requires TookIn(log, id)
    ensures TookIn(Handled(cfg, log, heard), id)
  {
    var event := PostReady(cfg.account, heard.frame);
    if event.Some? {
      StepTakes(log, IngestOp(event.value, heard.authorized), heard.outcome, cfg.lim, id);
      CompletedKeeps(Answered(cfg, log, heard).0, heard.meanwhile, cfg.lim, id);
    }
  }

  lemma HandledTakes(cfg: Config, log: Log, heard: Heard, id: string)
    requires Acked(cfg, log, heard) && heard.authorized && id == PostReady(cfg.account, heard.frame).value.eventId
    ensures TookIn(Handled(cfg, log, heard), id)
  {
    StepTakes(log, IngestOp(PostReady(cfg.account, heard.frame).value, true), heard.outcome, cfg.lim, id);
    CompletedKeeps(Answered(cfg, log, heard).0, heard.meanwhile, cfg.lim, id);
  }
}
