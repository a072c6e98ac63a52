/**
 The adapter: thread claims shared by every adapter on one state path, and the machine in which
 drains, processing jobs, mutations and completions interleave.
 */
module Adapters {
  import opened Wrappers
  import opened Sequences
  import opened Decimal
  import opened Events
  import opened QueueModel

  /** `_claims[state_key]`: at most one identity for each thread. */
  type Claims = map<int, string>

  function Released(claims: Claims, id: string): Claims {
    map t | t in claims && claims[t] != id :: claims[t]
  }

  lemma ReleasedExact(claims: Claims, id: string, kept: Claims)
    requires forall t :: t in kept <==> t in claims && claims[t] != id
    requires forall t :: t in kept ==> kept[t] == claims[t]
    ensures kept == Released(claims, id)
  {
    var r := Released(claims, id);
    forall t ensures t in kept <==> t in r {
    }
    assert forall t :: t in kept ==> kept[t] == r[t];
  }

  /** The pending event a thread's claim names, if there is one. */
  function ClaimedEvent(claims: Claims, pending: seq<HeyEvent>, thread: int): Option<HeyEvent> {
    if thread !in claims then None else FindEvent(pending, claims[thread], thread)
  }

  function FindEvent(pending: seq<HeyEvent>, id: string, thread: int): Option<HeyEvent> {
    if pending == [] then None
    else if pending[0].eventId == id && pending[0].threadId == thread then Some(pending[0])
    else FindEvent(pending[1..], id, thread)
  }

  lemma {:induction false} FindEventSpec(pending: seq<HeyEvent>, id: string, thread: int)
    ensures var r := FindEvent(pending, id, thread);
            && (r.Some? ==> r.value in pending && r.value.eventId == id && r.value.threadId == thread)
            && (r.None? ==> forall e :: e in pending ==> !(e.eventId == id && e.threadId == thread))
  {
    if pending != [] {
      FindEventSpec(pending[1..], id, thread);
    }
  }

  /** The shared table. Every method runs under the claim lock. */
  class ClaimTable {
    var claims: Claims

    constructor ()
      ensures claims == map[]
    {
      claims := map[];
    }

    /** `_claim`. */
    method Claim(e: HeyEvent) returns (ok: bool)
      modifies this
      ensures ok <==> e.threadId !in old(claims)
      ensures claims == if ok then old(claims)[e.threadId := e.eventId] else old(claims)
    {
      if e.threadId in claims {
        return false;
      }
      claims := claims[e.threadId := e.eventId];
      return true;
    }

    /** `_release_claim`: walk a copy of the entries, dropping those with this identity. */
    method Release(id: string)
      modifies this
      ensures claims == Released(old(claims), id)
    {
      var left := claims.Keys;
      while left != {}
        invariant forall t :: t in left ==> t in old(claims)
        invariant forall t :: t in claims <==> t in old(claims) && (t in left || old(claims)[t] != id)
        invariant forall t :: t in claims ==> claims[t] == old(claims)[t]
        decreases |left|
      {
        Inhabited(left);
        var thread :| thread in left;
        left := left - {thread};
        if claims[thread] == id {
          claims := claims - {thread};
        }
      }
      ReleasedExact(old(claims), id, claims);
    }
  }

  // ---------------------------------------------------------------- the machine

  /** A drain walking the snapshot of pending events it read when it started. */
  datatype Drain = Drain(snapshot: seq<HeyEvent>, next: nat, dispatching: bool)

  /** Where a job stands: before its send, inside a mutation for an event, or past its last send. */
  datatype Phase = Running | Calling(event: HeyEvent) | Over

  /** The processing of one dispatched event. */
  datatype Job = Job(event: HeyEvent, phase: Phase)

  /** One invocation of the remote mutation. */
  datatype Call = Call(thread: int, id: string, kind: Kind)

  /** How the queue's `complete` ends: it returns, or it raises after or before its save reached the file. */
  datatype Completion = Returned | RaisedKept | RaisedLost {
    predicate Kept() {
      this != RaisedLost
    }
  }

  /** A confirmed reply, and whether the completion that follows it reached the file. */
  datatype Reply = Reply(event: HeyEvent, recorded: bool)

  /**
   `calls` lists the mutations invoked, `replies` the confirmed ones in order, and `dropped` the pending
   identities completed because their sender was not authorized.
   */
  datatype System = System(
    pending: seq<HeyEvent>, claims: Claims, drains: map<nat, Drain>, jobs: map<nat, Job>,
    calls: seq<Call>, replies: seq<Reply>, dropped: seq<string>)

  function Empty(): System {
    System([], map[], map[], map[], [], [], [])
  }

  /** What a drain finds about the event at hand; authorization may change between steps. */
  datatype Verdict = WrongAccount | Unauthorized(completion: Completion) | GatewayDenied | Cleared

  /** How one mutation ends: confirmed, and then completed somehow, or failed. */
  datatype Outcome = Confirmed(completion: Completion) | Retryable | Final

  datatype Action =
    | Accept(e: HeyEvent)                 // an ingest put the event in the file
    | StartDrain(d: nat)
    | DrainStep(d: nat, verdict: Verdict) // one iteration, up to the await of the dispatch
    | Dispatched(d: nat, j: nat)          // the dispatch hands the event to a job
    | DispatchFails(d: nat)
    | EndDrain(d: nat)
    | CallMutation(j: nat)                // one `send`, from the claim check to the call
    | Returns(j: nat, outcome: Outcome)
    | EndJob(j: nat)                      // on_processing_complete, after success, failure or cancellation
    | Restart(queue: seq<HeyEvent>)       // the host process dies; the queue is what the file then holds

  predicate Current(s: System, d: nat) {
    d in s.drains && s.drains[d].next < |s.drains[d].snapshot|
  }

  function At(s: System, d: nat): HeyEvent
    requires Current(s, d)
  {
    s.drains[d].snapshot[s.drains[d].next]
  }

  function Advanced(s: System, d: nat): System
    requires d in s.drains
  {
    s.(drains := s.drains[d := s.drains[d].(next := s.drains[d].next + 1, dispatching := false)])
  }

  /** The queue's `complete`, as far as it reaches the file. */
  function Finish(s: System, id: string, completion: Completion): System {
    if completion.Kept() then s.(pending := Remove(s.pending, id)) else s
  }

  /** Dropping an event for lack of authorization. */
  function Drop(s: System, id: string, completion: Completion): System {
    Finish(s, id, completion).(
      dropped := if completion.Kept() && id in Ids(s.pending) then s.dropped + [id] else s.dropped)
  }

  /** When a step may be taken. */
  ghost predicate Enabled(s: System, a: Action) {
    match a
    case Accept(e) => e.Valid() && e.eventId !in Ids(s.pending)
    case StartDrain(d) => d !in s.drains
    case DrainStep(d, _) => Current(s, d) && !s.drains[d].dispatching
    case Dispatched(d, j) => Current(s, d) && s.drains[d].dispatching && j !in s.jobs
    case DispatchFails(d) => Current(s, d) && s.drains[d].dispatching
    case EndDrain(d) => d in s.drains && !s.drains[d].dispatching
    case CallMutation(j) => j in s.jobs && s.jobs[j].phase == Running
    case Returns(j, _) => j in s.jobs && s.jobs[j].phase.Calling?
    case EndJob(j) => j in s.jobs
    case Restart(queue) => AllValid(queue) && Distinct(Ids(queue))
  }

  /** What the step does. */
  ghost function Step(s: System, a: Action): System
    requires Enabled(s, a)
  {
    match a
    case Accept(e) => s.(pending := s.pending + [e])
    case StartDrain(d) => s.(drains := s.drains[d := Drain(s.pending, 0, false)])
    case DrainStep(d, verdict) => Drained(s, d, verdict)
    case Dispatched(d, j) => Advanced(s, d).(jobs := s.jobs[j := Job(At(s, d), Running)])
    case DispatchFails(d) => s.(claims := Released(s.claims, At(s, d).eventId), drains := s.drains - {d})
    case EndDrain(d) => s.(drains := s.drains - {d})
    case CallMutation(j) => Called(s, j)
    case Returns(j, outcome) => Answered(s, j, outcome)
    case EndJob(j) => s.(claims := Released(s.claims, s.jobs[j].event.eventId), jobs := s.jobs - {j})
    case Restart(queue) => s.(pending := queue, claims := map[], drains := map[], jobs := map[])
  }

  /** One iteration of a drain. A completion that raises ends it. */
  function Drained(s: System, d: nat, verdict: Verdict): System
    requires Current(s, d)
  {
    var e := At(s, d);
    match verdict
    case WrongAccount => s.(drains := s.drains - {d})
    case Unauthorized(completion) =>
      var s1 := Drop(s, e.eventId, completion);
      if completion == Returned then Advanced(s1, d) else s1.(drains := s1.drains - {d})
    case GatewayDenied => Advanced(s, d)
    case Cleared =>
      if e.threadId in s.claims then Advanced(s, d)
      else s.(claims := s.claims[e.threadId := e.eventId], drains := s.drains[d := s.drains[d].(dispatching := true)])
  }

  /** `send`: without a claimed pending event it fails for good, otherwise it invokes the mutation. */
  function Called(s: System, j: nat): System
    requires j in s.jobs
  {
    var thread := s.jobs[j].event.threadId;
    var claimed := ClaimedEvent(s.claims, s.pending, thread);
    if claimed.None? then s.(jobs := s.jobs[j := s.jobs[j].(phase := Over)])
    else s.(jobs := s.jobs[j := s.jobs[j].(phase := Calling(claimed.value))],
            calls := s.calls + [Call(thread, claimed.value.eventId, claimed.value.kind)])
  }

  /** The mutation's end: a confirmed one is followed by the completion of the identity then claimed. */
  function Answered(s: System, j: nat, outcome: Outcome): System
    requires j in s.jobs && s.jobs[j].phase.Calling?
  {
    var thread, e := s.jobs[j].event.threadId, s.jobs[j].phase.event;
    match outcome
    case Retryable => s.(jobs := s.jobs[j := s.jobs[j].(phase := Running)])
    case Final => s.(jobs := s.jobs[j := s.jobs[j].(phase := Over)])
    case Confirmed(completion) =>
      var s1 := s.(jobs := s.jobs[j := s.jobs[j].(phase := Over)]);
      if thread in s.claims
      then Finish(s1, s.claims[thread], completion).(replies := s.replies + [Reply(e, completion.Kept())])
      else s1.(replies := s.replies + [Reply(e, false)])
  }

  // ---------------------------------------------------------------- the invariant

  ghost predicate EventsOk(s: System) {
    && AllValid(s.pending) && Distinct(Ids(s.pending))
    && (forall d, i :: d in s.drains && 0 <= i < |s.drains[d].snapshot| ==> s.drains[d].snapshot[i].Valid())
    && (forall j :: j in s.jobs ==> s.jobs[j].event.Valid())
  }

  /** The claim on a thread is held by the one job for it, or by the one drain dispatching to it. */
  ghost predicate ClaimsOk(s: System) {
    && (forall j :: j in s.jobs ==> JobHolds(s, j))
    && (forall d :: d in s.drains && s.drains[d].dispatching ==> Current(s, d) && DrainHolds(s, d))
    && (forall j, k :: j in s.jobs && k in s.jobs && j != k ==> s.jobs[j].event.threadId != s.jobs[k].event.threadId)
    && (forall d, j :: d in s.drains && s.drains[d].dispatching && j in s.jobs ==>
          At(s, d).threadId != s.jobs[j].event.threadId)
    && (forall d, k ::
          d in s.drains && k in s.drains && d != k && s.drains[d].dispatching && s.drains[k].dispatching ==>
          At(s, d).threadId != At(s, k).threadId)
    && (forall t :: t in s.claims ==> Held(s, t))
  }

  ghost predicate JobHolds(s: System, j: nat)
    requires j in s.jobs
  {
    var e := s.jobs[j].event;
    && e.threadId in s.claims && s.claims[e.threadId] == e.eventId
    && (s.jobs[j].phase.Calling? ==>
          s.jobs[j].phase.event.eventId == e.eventId && s.jobs[j].phase.event.threadId == e.threadId)
  }

  ghost predicate DrainHolds(s: System, d: nat)
    requires Current(s, d)
  {
    At(s, d).threadId in s.claims && s.claims[At(s, d).threadId] == At(s, d).eventId
  }

  ghost predicate Held(s: System, t: int) {
    || (exists j :: j in s.jobs && s.jobs[j].event.threadId == t)
    || (exists d :: Current(s, d) && s.drains[d].dispatching && At(s, d).threadId == t)
  }

  ghost predicate Inv(s: System) {
    EventsOk(s) && ClaimsOk(s)
  }
}
