/** The sends of a job: when one invokes the mutation, and when the job may send again. */
module JobSends {
  import opened Wrappers
  import opened Sequences
  import opened Decimal
  import opened Events
  import opened QueueModel
  import opened Adapters
  import opened AdapterSafety

  /** A send of job `j` that invokes the mutation. */
  ghost predicate Invokes(s: System, j: nat, s': System)
    requires j in s.jobs
  {
    exists e :: Sends(s, j, e, s')
  }

  /** It is for the pending event `e`, of the kind of that event, and changes nothing else. */
  ghost predicate Sends(s: System, j: nat, e: HeyEvent, s': System)
    requires j in s.jobs
  {
    && e in s.pending && e.eventId == s.jobs[j].event.eventId
    && s' == s.(jobs := s.jobs[j := s.jobs[j].(phase := Calling(e))],
                calls := s.calls + [Call(e.threadId, e.eventId, e.kind)])
  }

  /** Whatever the other drains and jobs are doing, a send invokes the mutation exactly when its event is pending. */
  lemma SendsExactly(states: seq<System>, actions: seq<Action>, i: nat, j: nat)
    requires Run(states, actions) && i < |actions| && actions[i] == CallMutation(j)
    ensures j in states[i].jobs
    ensures if states[i].jobs[j].event.eventId in Ids(states[i].pending)
            then Invokes(states[i], j, states[i + 1])
            else states[i + 1] == states[i].(jobs := states[i].jobs[j := states[i].jobs[j].(phase := Over)])
  {
    RunInv(states, actions, i);
    SendStep(states[i], j);
  }

  lemma SendStep(s: System, j: nat)
    requires Inv(s) && Enabled(s, CallMutation(j))
    ensures var s' := Step(s, CallMutation(j));
            if s.jobs[j].event.eventId in Ids(s.pending) then Invokes(s, j, s')
            else s' == s.(jobs := s.jobs[j := s.jobs[j].(phase := Over)])
  {
    var id, thread := s.jobs[j].event.eventId, s.jobs[j].event.threadId;
    assert JobHolds(s, j);
    FindEventSpec(s.pending, id, thread);
    if id in Ids(s.pending) {
      var k :| 0 <= k < |s.pending| && Ids(s.pending)[k] == id;
      OneThread(s.pending[k], s.jobs[j].event);
      assert s.pending[k] in s.pending;
      assert Sends(s, j, FindEvent(s.pending, id, thread).value, Step(s, CallMutation(j)));
    } else if FindEvent(s.pending, id, thread).Some? {
      IdIn(s.pending, FindEvent(s.pending, id, thread).value);
    }
  }

  /** A step of the job itself, other than its end. */
  predicate OwnStep(a: Action, j: nat) {
    match a
    case Dispatched(_, k) => k == j
    case CallMutation(k) => k == j
    case Returns(k, _) => k == j
    case _ => false
  }

  ghost predicate LastStep(actions: seq<Action>, i: nat, j: nat, k: nat) {
    k < i <= |actions| && OwnStep(actions[k], j) && forall m :: k < m < i ==> !OwnStep(actions[m], j)
  }

  /** Where step `a` of the job, taken in state `s`, leaves it. */
  ghost predicate LeavesAt(s: System, a: Action, j: nat, phase: Phase) {
    match a
    case Dispatched(_, _) => phase == Running
    case Returns(_, outcome) => phase == if outcome == Retryable then Running else Over
    case CallMutation(_) =>
      j in s.jobs && if s.jobs[j].event.eventId in Ids(s.pending)
                     then phase.Calling? && phase.event in s.pending && phase.event.eventId == s.jobs[j].event.eventId
                     else phase == Over
    case _ => false
  }

  /**
   A job may send exactly when it has not sent yet or its last send was answered as retryable: in every
   run, where it stands is settled by the last step it took.
   */
  lemma {:induction false} MaySendExactly(states: seq<System>, actions: seq<Action>, i: nat, j: nat) returns (k: nat)
    requires Run(states, actions) && i <= |actions| && j in states[i].jobs
    ensures LastStep(actions, i, j, k) && LeavesAt(states[k], actions[k], j, states[i].jobs[j].phase)
  {
    RunInv(states, actions, i - 1);
    var s, a := states[i - 1], actions[i - 1];
    if OwnStep(a, j) {
      k := i - 1;
      OwnStepLeaves(s, a, j);
    } else {
      OtherStepLeaves(s, a, j);
      k := MaySendExactly(states, actions, i - 1, j);
    }
  }

  lemma OwnStepLeaves(s: System, a: Action, j: nat)
    requires Inv(s) && Enabled(s, a) && OwnStep(a, j)
    ensures j in Step(s, a).jobs && LeavesAt(s, a, j, Step(s, a).jobs[j].phase)
  {
    match a
    case Dispatched(_, _) =>
    case CallMutation(_) =>
      SendStep(s, j);
      if s.jobs[j].event.eventId in Ids(s.pending) {
        var e :| Sends(s, j, e, Step(s, a));
      }
    case Returns(_, outcome) => AnswerLeavesIt(s, j, outcome);
  }

  lemma AnswerLeavesIt(s: System, j: nat, outcome: Outcome)
    requires Enabled(s, Returns(j, outcome))
    ensures var jobs := Step(s, Returns(j, outcome)).jobs;
            j in jobs && jobs[j].phase == if outcome == Retryable then Running else Over
  {
  }

  lemma OtherStepLeaves(s: System, a: Action, j: nat)
    requires Enabled(s, a) && !OwnStep(a, j) && j in Step(s, a).jobs
    ensures j in s.jobs && Step(s, a).jobs[j] == s.jobs[j]
  {
    match a
    case DrainStep(d, verdict) => QuietDrain(s, d, verdict);
    case _ =>
  }

  lemma QuietDrain(s: System, d: nat, verdict: Verdict)
    requires Enabled(s, DrainStep(d, verdict))
    ensures Step(s, DrainStep(d, verdict)).jobs == s.jobs
  {
  }
}
