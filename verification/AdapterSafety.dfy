/** Claim safety of the adapter machine, over every run. */
module AdapterSafety {
  import opened Wrappers
  import opened Sequences
  import opened Decimal
  import opened Events
  import opened QueueModel
  import opened Adapters

  /** An identity belongs to one thread. */
  lemma OneThread(a: HeyEvent, b: HeyEvent)
    requires a.Valid() && b.Valid() && a.eventId == b.eventId
    ensures a.threadId == b.threadId && a.entryId == b.entryId
  {
    EventIdInjective(a.threadId, a.entryId, b.threadId, b.entryId);
  }

  /** Releasing a held identity frees its thread and no other. */
  lemma ReleaseIsLocal(s: System, e: HeyEvent)
    requires Inv(s) && e.Valid() && e.threadId in s.claims && s.claims[e.threadId] == e.eventId
    ensures Released(s.claims, e.eventId) == s.claims - {e.threadId}
  {
    forall t | t in s.claims && s.claims[t] == e.eventId ensures t == e.threadId {
      assert Held(s, t);
      if j :| j in s.jobs && s.jobs[j].event.threadId == t {
        assert JobHolds(s, j);
        OneThread(s.jobs[j].event, e);
      } else {
        var d :| Current(s, d) && s.drains[d].dispatching && At(s, d).threadId == t;
        assert DrainHolds(s, d) && At(s, d) == s.drains[d].snapshot[s.drains[d].next];
        OneThread(At(s, d), e);
      }
    }
  }

  lemma StepKeepsEvents(s: System, a: Action)
    requires EventsOk(s) && Enabled(s, a)
    ensures EventsOk(Step(s, a))
  {
    match a
    case Accept(e) => AcceptKeepsEvents(s, e);
    case DrainStep(d, verdict) => DrainStepKeepsEvents(s, d, verdict);
    case Dispatched(d, j) => DispatchKeepsEvents(s, d, j);
    case StartDrain(d) => StartKeepsEvents(s, d);
    case Returns(j, outcome) => ReturnKeepsEvents(s, j, outcome);
    case CallMutation(j) => CallKeepsEvents(s, j);
    case Restart(_) =>
    case _ => EndKeepsEvents(s, a);
  }

  /** Ending a drain or a job. */
  lemma EndKeepsEvents(s: System, a: Action)
    requires EventsOk(s) && Enabled(s, a) && (a.DispatchFails? || a.EndDrain? || a.EndJob?)
    ensures EventsOk(Step(s, a))
  {
    EventsSame(s, Step(s, a));
  }

  lemma CallKeepsEvents(s: System, j: nat)
    requires EventsOk(s) && Enabled(s, CallMutation(j))
    ensures EventsOk(Step(s, CallMutation(j)))
  {
    CallLeaves(s, j);
    EventsSame(s, Step(s, CallMutation(j)));
  }

  /** A call changes the job that makes it and the list of calls. */
  lemma CallLeaves(s: System, j: nat)
    requires Enabled(s, CallMutation(j))
    ensures var s' := Step(s, CallMutation(j));
            s' == s.(jobs := s'.jobs, calls := s'.calls) && s'.jobs.Keys == s.jobs.Keys
            && forall k :: k in s.jobs ==> s'.jobs[k].event == s.jobs[k].event
  {
  }

  /** The queue is as it was, and so are the snapshots and dispatched events that remain. */
  lemma EventsSame(s: System, s': System)
    requires EventsOk(s) && s'.pending == s.pending
    requires forall d :: d in s'.drains ==> d in s.drains && s'.drains[d].snapshot == s.drains[d].snapshot
    requires forall j :: j in s'.jobs ==> j in s.jobs && s'.jobs[j].event == s.jobs[j].event
    ensures EventsOk(s')
  {
  }

  lemma StartKeepsEvents(s: System, d: nat)
    requires EventsOk(s) && Enabled(s, StartDrain(d))
    ensures EventsOk(Step(s, StartDrain(d)))
  {
    assert forall i :: 0 <= i < |s.pending| ==> s.pending[i] in s.pending;
  }

  lemma DrainStepKeepsEvents(s: System, d: nat, verdict: Verdict)
    requires EventsOk(s) && Enabled(s, DrainStep(d, verdict))
    ensures EventsOk(Step(s, DrainStep(d, verdict)))
  {
    if verdict.Unauthorized? {
      UnauthorizedKeepsEvents(s, d, verdict.completion);
    } else {
      EventsSame(s, Step(s, DrainStep(d, verdict)));
    }
  }

  lemma UnauthorizedKeepsEvents(s: System, d: nat, completion: Completion)
    requires EventsOk(s) && Enabled(s, DrainStep(d, Unauthorized(completion)))
    ensures EventsOk(Step(s, DrainStep(d, Unauthorized(completion))))
  {
    QuietDrainStep(s, d, Unauthorized(completion));
    FinishKeepsEvents(s, At(s, d).eventId, completion);
    EventsSame(Finish(s, At(s, d).eventId, completion), Step(s, DrainStep(d, Unauthorized(completion))));
  }

  lemma DispatchKeepsEvents(s: System, d: nat, j: nat)
    requires EventsOk(s) && Enabled(s, Dispatched(d, j))
    ensures EventsOk(Step(s, Dispatched(d, j)))
  {
    assert At(s, d) == s.drains[d].snapshot[s.drains[d].next];
  }

  lemma ReturnKeepsEvents(s: System, j: nat, outcome: Outcome)
    requires EventsOk(s) && Enabled(s, Returns(j, outcome))
    ensures EventsOk(Step(s, Returns(j, outcome)))
  {
    var thread := s.jobs[j].event.threadId;
    if outcome.Confirmed? && thread in s.claims {
      FinishKeepsEvents(s, s.claims[thread], outcome.completion);
      AnswerLeaves(s, j, outcome);
      EventsSame(Finish(s, s.claims[thread], outcome.completion), Step(s, Returns(j, outcome)));
    } else {
      AnswerLeaves(s, j, outcome);
      EventsSame(s, Step(s, Returns(j, outcome)));
    }
  }

  /** The end of a mutation changes the job's phase, the list of replies, and the queue by a completion. */
  lemma AnswerLeaves(s: System, j: nat, outcome: Outcome)
    requires Enabled(s, Returns(j, outcome))
    ensures var s', thread := Step(s, Returns(j, outcome)), s.jobs[j].event.threadId;
            && s' == s.(jobs := s'.jobs, replies := s'.replies, pending := s'.pending)
            && s'.jobs.Keys == s.jobs.Keys && (forall k :: k in s.jobs ==> s'.jobs[k].event == s.jobs[k].event)
            && (forall k :: k in s.jobs && s'.jobs[k].phase.Calling? ==> s'.jobs[k] == s.jobs[k])
            && s'.pending == if outcome.Confirmed? && thread in s.claims
                             then Finish(s, s.claims[thread], outcome.completion).pending else s.pending
  {
  }

  lemma AcceptKeepsEvents(s: System, e: HeyEvent)
    requires EventsOk(s) && Enabled(s, Accept(e))
    ensures EventsOk(Step(s, Accept(e)))
  {
    IdsSnoc(s.pending, e);
    DistinctConcat(Ids(s.pending), [e.eventId]);
  }

  lemma IdsSnoc(pending: seq<HeyEvent>, e: HeyEvent)
    ensures Ids(pending + [e]) == Ids(pending) + [e.eventId]
  {
  }

  lemma IdIn(pending: seq<HeyEvent>, e: HeyEvent)
    requires e in pending
    ensures e.eventId in Ids(pending)
  {
    var i :| 0 <= i < |pending| && pending[i] == e;
    assert Ids(pending)[i] == e.eventId;
  }

  /** An identity names one event of the queue. */
  lemma {:induction false} OnlyOne(pending: seq<HeyEvent>, e: HeyEvent, f: HeyEvent)
    requires Distinct(Ids(pending)) && e in pending && f in pending && e.eventId == f.eventId
    ensures e == f
  {
    var first, rest := pending[0], pending[1..];
    assert Ids(pending) == [first.eventId] + Ids(rest);
    DistinctConcat([first.eventId], Ids(rest));
    if e in rest {
      IdIn(rest, e);
    }
    if f in rest {
      IdIn(rest, f);
    }
    if e in rest && f in rest {
      OnlyOne(rest, e, f);
    }
  }

  lemma FinishKeepsEvents(s: System, id: string, completion: Completion)
    requires EventsOk(s)
    ensures EventsOk(Finish(s, id, completion))
  {
    RemoveMembers(s.pending, id);
    WithoutOne(Ids(s.pending), id);
    var rest := Remove(s.pending, id);
    assert forall i :: 0 <= i < |rest| ==> rest[i] in s.pending;
  }

  lemma StepKeepsClaims(s: System, a: Action)
    requires Inv(s) && Enabled(s, a)
    ensures ClaimsOk(Step(s, a))
  {
    match a
    case DrainStep(d, verdict) => DrainStepKeepsClaims(s, d, verdict);
    case Dispatched(d, j) => DispatchKeepsClaims(s, d, j);
    case DispatchFails(d) => DispatchFailKeepsClaims(s, d);
    case CallMutation(j) => CallKeepsClaims(s, j);
    case Returns(j, outcome) => ReturnKeepsClaims(s, j, outcome);
    case EndJob(j) => EndJobKeepsClaims(s, j);
    case _ => QuietKeepsClaims(s, a);
  }

  lemma QuietKeepsClaims(s: System, a: Action)
    requires Inv(s) && Enabled(s, a) && (a.Accept? || a.StartDrain? || a.EndDrain? || a.Restart?)
    ensures ClaimsOk(Step(s, a))
  {
    if !a.Restart? {
      HeldSame(s, Step(s, a));
    }
  }

  lemma DrainStepKeepsClaims(s: System, d: nat, verdict: Verdict)
    requires Inv(s) && Enabled(s, DrainStep(d, verdict))
    ensures ClaimsOk(Step(s, DrainStep(d, verdict)))
  {
    if verdict == Cleared && At(s, d).threadId !in s.claims {
      ClaimKeepsClaims(s, d);
    } else {
      QuietDrainStep(s, d, verdict);
      HeldSame(s, Step(s, DrainStep(d, verdict)));
    }
  }

  /** A drain step that claims nothing touches no claim, no job, and no other drain. */
  lemma QuietDrainStep(s: System, d: nat, verdict: Verdict)
    requires Enabled(s, DrainStep(d, verdict)) && (verdict == Cleared ==> At(s, d).threadId in s.claims)
    ensures var s' := Step(s, DrainStep(d, verdict));
            && s'.claims == s.claims && s'.jobs == s.jobs && s'.calls == s.calls && s'.replies == s.replies
            && (forall k :: k in s'.drains ==> k in s.drains && s'.drains[k].snapshot == s.drains[k].snapshot)
            && (forall k :: k in s.drains && k != d ==> k in s'.drains && s'.drains[k] == s.drains[k])
            && (d in s'.drains ==> !s'.drains[d].dispatching)
            && (!verdict.Unauthorized? ==> s'.pending == s.pending && s'.dropped == s.dropped)
  {
  }

  lemma ReturnKeepsClaims(s: System, j: nat, outcome: Outcome)
    requires Inv(s) && Enabled(s, Returns(j, outcome))
    ensures ClaimsOk(Step(s, Returns(j, outcome)))
  {
    AnswerLeaves(s, j, outcome);
    CallingHolds(s);
    HeldSame(s, Step(s, Returns(j, outcome)));
  }

  lemma CallingHolds(s: System)
    requires ClaimsOk(s)
    ensures forall j :: j in s.jobs && s.jobs[j].phase.Calling? ==>
              s.jobs[j].phase.event.eventId == s.jobs[j].event.eventId
                && s.jobs[j].phase.event.threadId == s.jobs[j].event.threadId
  {
    forall j | j in s.jobs ensures JobHolds(s, j) {
    }
  }

  /** Holders and claims unchanged, up to what the jobs are doing. */
  lemma HeldSame(s: System, s': System)
    requires Inv(s) && s'.claims == s.claims
    requires s'.jobs.Keys == s.jobs.Keys && forall j :: j in s.jobs ==> s'.jobs[j].event == s.jobs[j].event
    requires forall j :: j in s.jobs && s'.jobs[j].phase.Calling? ==>
               s'.jobs[j].phase.event.eventId == s.jobs[j].event.eventId
                 && s'.jobs[j].phase.event.threadId == s.jobs[j].event.threadId
    requires forall d :: d in s'.drains && s'.drains[d].dispatching ==> d in s.drains && s'.drains[d] == s.drains[d]
    requires forall d :: d in s.drains && s.drains[d].dispatching ==> d in s'.drains && s'.drains[d] == s.drains[d]
    ensures ClaimsOk(s')
  {
    forall j | j in s'.jobs ensures JobHolds(s', j) {
      assert JobHolds(s, j);
    }
    forall d | d in s'.drains && s'.drains[d].dispatching ensures Current(s', d) && DrainHolds(s', d) {
      assert DrainHolds(s, d) && At(s', d) == At(s, d);
    }
    forall t | t in s'.claims ensures Held(s', t) {
      assert Held(s, t);
      if j :| j in s.jobs && s.jobs[j].event.threadId == t {
        assert j in s'.jobs && s'.jobs[j].event.threadId == t;
      } else {
        var d :| Current(s, d) && s.drains[d].dispatching && At(s, d).threadId == t;
        assert Current(s', d) && At(s', d) == At(s, d);
      }
    }
  }

  lemma ClaimKeepsClaims(s: System, d: nat)
    requires Inv(s) && Enabled(s, DrainStep(d, Cleared)) && At(s, d).threadId !in s.claims
    ensures ClaimsOk(Step(s, DrainStep(d, Cleared)))
  {
    var s' := Step(s, DrainStep(d, Cleared));
    var e := At(s, d);
    assert s'.drains[d] == s.drains[d].(dispatching := true) && At(s', d) == e;
    forall j | j in s'.jobs ensures JobHolds(s', j) && s'.jobs[j].event.threadId != e.threadId {
      assert JobHolds(s, j);
    }
    forall k | k in s'.drains && s'.drains[k].dispatching
      ensures Current(s', k) && DrainHolds(s', k)
      ensures (k != d ==> At(s', k) == At(s, k) && At(s, k).threadId != e.threadId)
    {
      if k != d {
        assert DrainHolds(s, k) && At(s', k) == At(s, k);
      }
    }
    forall t | t in s'.claims ensures Held(s', t) {
      ClaimKeepsHeld(s, d, t);
    }
  }

  lemma ClaimKeepsHeld(s: System, d: nat, t: int)
    requires Inv(s) && Enabled(s, DrainStep(d, Cleared)) && At(s, d).threadId !in s.claims
    requires t in s.claims || t == At(s, d).threadId
    ensures Held(Step(s, DrainStep(d, Cleared)), t)
  {
    var s' := Step(s, DrainStep(d, Cleared));
    if t == At(s, d).threadId {
      assert Current(s', d) && At(s', d) == At(s, d);
    } else {
      assert Held(s, t);
      if j :| j in s.jobs && s.jobs[j].event.threadId == t {
        assert j in s'.jobs && s'.jobs[j].event.threadId == t;
      } else {
        var k :| Current(s, k) && s.drains[k].dispatching && At(s, k).threadId == t;
        assert k != d && Current(s', k) && At(s', k) == At(s, k);
      }
    }
  }

  lemma DispatchKeepsClaims(s: System, d: nat, j: nat)
    requires Inv(s) && Enabled(s, Dispatched(d, j))
    ensures ClaimsOk(Step(s, Dispatched(d, j)))
  {
    var s' := Step(s, Dispatched(d, j));
    var e := At(s, d);
    assert DrainHolds(s, d);
    forall k | k in s'.jobs ensures JobHolds(s', k) && (k != j ==> s'.jobs[k].event.threadId != e.threadId) {
      if k != j {
        assert JobHolds(s, k) && s'.jobs[k] == s.jobs[k];
      }
    }
    forall k | k in s'.drains && s'.drains[k].dispatching
      ensures k != d && Current(s', k) && DrainHolds(s', k) && At(s', k) == At(s, k) && At(s, k).threadId != e.threadId
    {
      assert DrainHolds(s, k) && s'.drains[k] == s.drains[k];
    }
    forall t | t in s'.claims ensures Held(s', t) {
      assert Held(s, t);
      if t == e.threadId {
        assert j in s'.jobs && s'.jobs[j].event.threadId == t;
      } else if k :| k in s.jobs && s.jobs[k].event.threadId == t {
        assert k in s'.jobs && s'.jobs[k].event.threadId == t;
      } else {
        var k :| Current(s, k) && s.drains[k].dispatching && At(s, k).threadId == t;
        assert k != d && Current(s', k) && At(s', k) == At(s, k);
      }
    }
  }

  lemma DispatchFailKeepsClaims(s: System, d: nat)
    requires Inv(s) && Enabled(s, DispatchFails(d))
    ensures ClaimsOk(Step(s, DispatchFails(d)))
  {
    var s' := Step(s, DispatchFails(d));
    var e := At(s, d);
    assert DrainHolds(s, d) && e == s.drains[d].snapshot[s.drains[d].next];
    ReleaseIsLocal(s, e);
    forall k | k in s'.jobs ensures JobHolds(s', k) {
      assert JobHolds(s, k) && s.jobs[k].event.threadId != e.threadId;
    }
    forall k | k in s'.drains && s'.drains[k].dispatching
      ensures Current(s', k) && DrainHolds(s', k) && At(s', k) == At(s, k)
    {
      assert DrainHolds(s, k) && k != d && s'.drains[k] == s.drains[k];
    }
    forall t | t in s'.claims ensures Held(s', t) {
      assert Held(s, t) && t != e.threadId;
      if k :| k in s.jobs && s.jobs[k].event.threadId == t {
        assert k in s'.jobs && s'.jobs[k].event.threadId == t;
      } else {
        var k :| Current(s, k) && s.drains[k].dispatching && At(s, k).threadId == t;
        assert k != d && Current(s', k) && At(s', k) == At(s, k);
      }
    }
  }

  lemma CallKeepsClaims(s: System, j: nat)
    requires Inv(s) && Enabled(s, CallMutation(j))
    ensures ClaimsOk(Step(s, CallMutation(j)))
  {
    var e := s.jobs[j].event;
    assert JobHolds(s, j);
    FindEventSpec(s.pending, s.claims[e.threadId], e.threadId);
    HeldSame(s, Step(s, CallMutation(j)));
  }

  lemma EndJobKeepsClaims(s: System, j: nat)
    requires Inv(s) && Enabled(s, EndJob(j))
    ensures ClaimsOk(Step(s, EndJob(j)))
  {
    var s' := Step(s, EndJob(j));
    var e := s.jobs[j].event;
    assert JobHolds(s, j);
    ReleaseIsLocal(s, e);
    forall k | k in s'.jobs ensures JobHolds(s', k) && s'.jobs[k] == s.jobs[k] {
      assert JobHolds(s, k) && s.jobs[k].event.threadId != e.threadId;
    }
    forall d | d in s'.drains && s'.drains[d].dispatching
      ensures Current(s', d) && DrainHolds(s', d) && At(s', d) == At(s, d)
    {
      assert DrainHolds(s, d) && At(s, d).threadId != e.threadId;
    }
    forall t | t in s'.claims ensures Held(s', t) {
      assert Held(s, t) && t != e.threadId;
      if k :| k in s.jobs && s.jobs[k].event.threadId == t {
        assert k in s'.jobs && s'.jobs[k].event.threadId == t;
      } else {
        var d :| Current(s, d) && s.drains[d].dispatching && At(s, d).threadId == t;
        assert Current(s', d) && At(s', d) == At(s, d);
      }
    }
  }

  lemma StepKeepsInv(s: System, a: Action)
    requires Inv(s) && Enabled(s, a)
    ensures Inv(Step(s, a))
  {
    StepKeepsEvents(s, a);
    StepKeepsClaims(s, a);
  }

  // ---------------------------------------------------------------- runs

  /** A run of the host from an empty table: states joined by enabled steps. */
  ghost predicate Run(states: seq<System>, actions: seq<Action>) {
    && |states| == |actions| + 1
    && states[0] == Empty()
    && forall i :: 0 <= i < |actions| ==> Enabled(states[i], actions[i]) && states[i + 1] == Step(states[i], actions[i])
  }

  lemma {:induction false} RunInv(states: seq<System>, actions: seq<Action>, i: nat)
    requires Run(states, actions) && i < |states|
    ensures Inv(states[i])
  {
    if i > 0 {
      RunInv(states, actions, i - 1);
      StepKeepsInv(states[i - 1], actions[i - 1]);
    }
  }

  /**
   In every reachable state: a claim maps a thread to an identity of that thread, and two jobs, or a job
   and a drain in a dispatch, or two drains in dispatches, never stand for the same thread.
   */
  lemma ClaimsNameTheirThread(states: seq<System>, actions: seq<Action>, i: nat)
    requires Run(states, actions) && i < |states|
    ensures forall t :: t in states[i].claims ==> OfThread(states[i].claims[t], t)
    ensures forall j, k :: j in states[i].jobs && k in states[i].jobs && j != k ==>
              states[i].jobs[j].event.threadId != states[i].jobs[k].event.threadId
    ensures forall d, j :: d in states[i].drains && states[i].drains[d].dispatching && j in states[i].jobs ==>
              Current(states[i], d) && At(states[i], d).threadId != states[i].jobs[j].event.threadId
    ensures forall d, k :: d in states[i].drains && k in states[i].drains && d != k
                           && states[i].drains[d].dispatching && states[i].drains[k].dispatching ==>
              Current(states[i], d) && Current(states[i], k) && At(states[i], d).threadId != At(states[i], k).threadId
  {
    RunInv(states, actions, i);
    forall t | t in states[i].claims ensures OfThread(states[i].claims[t], t) {
      ClaimOfThread(states[i], t);
    }
  }

  ghost predicate OfThread(id: string, t: int) {
    exists entry: nat :: t > 0 && entry > 0 && id == EventId(t, entry)
  }

  lemma ClaimOfThread(s: System, t: int)
    requires Inv(s) && t in s.claims
    ensures OfThread(s.claims[t], t)
  {
    assert Held(s, t);
    if j :| j in s.jobs && s.jobs[j].event.threadId == t {
      assert JobHolds(s, j);
      assert s.claims[t] == EventId(t, s.jobs[j].event.entryId);
    } else {
      var d :| Current(s, d) && s.drains[d].dispatching && At(s, d).threadId == t;
      assert DrainHolds(s, d) && At(s, d) == s.drains[d].snapshot[s.drains[d].next];
      assert s.claims[t] == EventId(t, At(s, d).entryId);
    }
  }

  /** The call is for this pending event, which the claim of its thread names. */
  ghost predicate CallFor(s: System, s': System, e: HeyEvent) {
    && s'.calls == s.calls + [Call(e.threadId, e.eventId, e.kind)]
    && e in s.pending && e.threadId in s.claims && s.claims[e.threadId] == e.eventId
  }

  /** One step of a job that may call: it calls only for the pending event its thread's claim names. */
  lemma CallIsClaimed(s: System, j: nat)
    requires Inv(s) && Enabled(s, CallMutation(j))
    ensures var s' := Step(s, CallMutation(j));
            s'.calls == s.calls || exists e: HeyEvent :: e in s.pending && CallFor(s, s', e)
  {
    var thread := s.jobs[j].event.threadId;
    assert JobHolds(s, j);
    FindEventSpec(s.pending, s.claims[thread], thread);
    var claimed := ClaimedEvent(s.claims, s.pending, thread);
    if claimed.Some? {
      assert CallFor(s, Step(s, CallMutation(j)), claimed.value);
    }
  }

  /**
   Safety of the send, however stale the drains: a step invokes at most one mutation, and only for a
   pending event whose identity is claimed for its thread, with the kind the queue has for that event.
   */
  lemma CallsAreClaimedAndPending(states: seq<System>, actions: seq<Action>, i: nat)
    requires Run(states, actions) && i < |actions| && states[i + 1].calls != states[i].calls
    ensures actions[i].CallMutation?
    ensures exists e: HeyEvent :: e in states[i].pending && CallFor(states[i], states[i + 1], e)
  {
    RunInv(states, actions, i);
    OnlySendsCall(states[i], actions[i]);
    CallIsClaimed(states[i], actions[i].j);
  }

  lemma OnlySendsCall(s: System, a: Action)
    requires Enabled(s, a) && Step(s, a).calls != s.calls
    ensures a.CallMutation?
  {
  }

  /**
   After a confirmed send: the reply is recorded as being for the event its job was dispatched for; that
   event leaves the queue if and only if the completing save reached the file; and every other pending
   event stays, in order.
   */
  lemma ConfirmedSendCompletesItsEvent(states: seq<System>, actions: seq<Action>, i: nat, j: nat,
          completion: Completion)
    requires Run(states, actions) && i < |actions| && actions[i] == Returns(j, Confirmed(completion))
    ensures j in states[i].jobs && states[i].jobs[j].phase.Calling?
    ensures var e := states[i].jobs[j].phase.event;
            && e.eventId == states[i].jobs[j].event.eventId
            && states[i + 1].replies == states[i].replies + [Reply(e, completion.Kept())]
            && (completion.Kept() ==> Ids(states[i + 1].pending) == Without(Ids(states[i].pending), {e.eventId}))
            && (!completion.Kept() ==> states[i + 1].pending == states[i].pending)
            && forall f :: f in states[i + 1].pending <==>
                  f in states[i].pending && (completion.Kept() ==> f.eventId != e.eventId)
  {
    RunInv(states, actions, i);
    assert JobHolds(states[i], j);
    RemoveMembers(states[i].pending, states[i].jobs[j].event.eventId);
  }

  /**
   While the host process lives, pending events leave only by a confirmed send or by losing their
   authorization, and only if the completing save reached the file.
   */
  lemma PendingLeavesOnlyWhenDone(states: seq<System>, actions: seq<Action>, i: nat, e: HeyEvent)
    requires Run(states, actions) && i < |actions| && e in states[i].pending && e !in states[i + 1].pending
    ensures LeavesBy(states[i], actions[i], e)
  {
    RunInv(states, actions, i);
    OnlyTheDoneLeave(states[i], actions[i], e);
  }

  ghost predicate LeavesBy(s: System, a: Action, e: HeyEvent) {
    match a
    case DrainStep(d, Unauthorized(completion)) => completion.Kept() && Current(s, d) && At(s, d).eventId == e.eventId
    case Returns(j, Confirmed(completion)) => completion.Kept() && j in s.jobs && s.jobs[j].event.eventId == e.eventId
    case Restart(_) => true
    case _ => false
  }

  lemma OnlyTheDoneLeave(s: System, a: Action, e: HeyEvent)
    requires ClaimsOk(s) && Enabled(s, a) && e in s.pending && e !in Step(s, a).pending
    ensures LeavesBy(s, a, e)
  {
    match a
    case DrainStep(d, verdict) => DrainLeaves(s, d, verdict, e);
    case Returns(j, outcome) => ReturnLeaves(s, j, outcome, e);
    case Restart(_) =>
    case _ => OthersKeepPending(s, a, e);
  }

  lemma DrainLeaves(s: System, d: nat, verdict: Verdict, e: HeyEvent)
    requires Enabled(s, DrainStep(d, verdict)) && e in s.pending
    ensures e in Step(s, DrainStep(d, verdict)).pending || LeavesBy(s, DrainStep(d, verdict), e)
  {
    RemoveMembers(s.pending, At(s, d).eventId);
  }

  lemma ReturnLeaves(s: System, j: nat, outcome: Outcome, e: HeyEvent)
    requires ClaimsOk(s) && Enabled(s, Returns(j, outcome)) && e in s.pending
    ensures e in Step(s, Returns(j, outcome)).pending || LeavesBy(s, Returns(j, outcome), e)
  {
    assert JobHolds(s, j);
    RemoveMembers(s.pending, s.jobs[j].event.eventId);
  }

  lemma OthersKeepPending(s: System, a: Action, e: HeyEvent)
    requires Enabled(s, a) && !a.DrainStep? && !a.Returns? && !a.Restart? && e in s.pending
    ensures e in Step(s, a).pending
  {
  }
}
