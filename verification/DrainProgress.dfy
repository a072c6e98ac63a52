/** Progress under any schedule: drains and jobs in any interleaving answer something before the host is idle again. */
module DrainProgress {
  import opened Wrappers
  import opened Sequences
  import opened Decimal
  import opened Events
  import opened QueueModel
  import opened Adapters
  import opened AdapterSafety
  import opened DrainOrder
  import opened DrainRounds

  /**
   The step fits a schedule in which every event is cleared and dispatched, every mutation is confirmed and
   its completion reaches the file, or is tried again, a drain ends only at the end of its snapshot, and a
   job only when its last send is over.
   */
  predicate Diligent(s: System, a: Action) {
    match a
    case DrainStep(_, verdict) => verdict == Cleared
    case DispatchFails(_) => false
    case EndDrain(d) => d in s.drains && s.drains[d].next >= |s.drains[d].snapshot|
    case Returns(_, outcome) => outcome == Retryable || (outcome.Confirmed? && outcome.completion.Kept())
    case EndJob(j) => j in s.jobs && s.jobs[j].phase == Over
    case Restart(_) => false
    case _ => true
  }

  /** Part of a run, made of such steps. */
  ghost predicate Segment(states: seq<System>, acts: seq<Action>) {
    && |states| == |acts| + 1 && Inv(states[0])
    && forall i :: 0 <= i < |acts| ==> StepAt(states, acts, i)
  }

  ghost predicate StepAt(states: seq<System>, acts: seq<Action>, i: nat)
    requires i < |acts| < |states|
  {
    Enabled(states[i], acts[i]) && Diligent(states[i], acts[i]) && states[i + 1] == Step(states[i], acts[i])
  }

  lemma {:induction false} SegmentInv(states: seq<System>, acts: seq<Action>, n: nat)
    requires Segment(states, acts) && n <= |acts|
    ensures Inv(states[n])
  {
    if n > 0 {
      SegmentInv(states, acts, n - 1);
      assert StepAt(states, acts, n - 1);
      StepKeepsInv(states[n - 1], acts[n - 1]);
    }
  }

  // ---------------------------------------------------------------- while nothing is confirmed

  /** Everything at hand is still pending, and no job is over. */
  ghost predicate Unanswered(s: System) {
    && (forall j :: j in s.jobs ==> s.jobs[j].phase != Over && s.jobs[j].event in s.pending)
    && (forall d, i :: d in s.drains && 0 <= i < |s.drains[d].snapshot| ==> s.drains[d].snapshot[i] in s.pending)
  }

  lemma CallIsMade(s: System, j: nat)
    requires Inv(s) && Enabled(s, CallMutation(j)) && s.jobs[j].event in s.pending
    ensures var s' := Step(s, CallMutation(j)); j in s'.jobs && s'.jobs[j].phase.Calling? && s'.pending == s.pending
  {
    assert JobHolds(s, j);
    FindsIt(s, s.jobs[j].event);
  }

  lemma UnansweredStays(s: System, a: Action)
    requires Inv(s) && Unanswered(s) && Enabled(s, a) && Diligent(s, a) && ReplyOf(s, a).None?
    ensures Unanswered(Step(s, a)) && !a.EndJob?
    ensures s.pending <= Step(s, a).pending
  {
    match a
    case CallMutation(j) =>
      CallIsMade(s, j);
      CallStaysUnanswered(s, j);
    case Dispatched(d, j) => DispatchStaysUnanswered(s, d, j);
    case Returns(j, outcome) => RetryStaysUnanswered(s, j);
    case _ => DrainStaysUnanswered(s, a);
  }

  lemma CallStaysUnanswered(s: System, j: nat)
    requires Unanswered(s) && Enabled(s, CallMutation(j))
    requires var s' := Step(s, CallMutation(j)); j in s'.jobs && s'.jobs[j].phase.Calling? && s'.pending == s.pending
    ensures Unanswered(Step(s, CallMutation(j)))
  {
  }

  lemma DispatchStaysUnanswered(s: System, d: nat, j: nat)
    requires Unanswered(s) && Enabled(s, Dispatched(d, j))
    ensures Unanswered(Step(s, Dispatched(d, j))) && s.pending <= Step(s, Dispatched(d, j)).pending
  {
    assert At(s, d) == s.drains[d].snapshot[s.drains[d].next];
  }

  lemma RetryStaysUnanswered(s: System, j: nat)
    requires Unanswered(s) && Enabled(s, Returns(j, Retryable))
    ensures Unanswered(Step(s, Returns(j, Retryable))) && s.pending <= Step(s, Returns(j, Retryable)).pending
  {
  }

  /** Arrivals and the steps of drains leave the jobs alone, and snapshots are of pending events. */
  lemma DrainStaysUnanswered(s: System, a: Action)
    requires Unanswered(s) && Enabled(s, a) && Diligent(s, a) && !a.CallMutation? && !a.Dispatched? && !a.Returns?
    ensures Unanswered(Step(s, a)) && !a.EndJob? && s.pending <= Step(s, a).pending
  {
  }

  /** Some job is running, or some drain is in a dispatch. */
  ghost predicate Engaged(s: System) {
    s.jobs != map[] || exists d :: d in s.drains && s.drains[d].dispatching
  }

  lemma EngagedStays(s: System, a: Action)
    requires Unanswered(s) && Enabled(s, a) && Diligent(s, a) && Engaged(s) && !a.EndJob?
    ensures Engaged(Step(s, a))
  {
    if j :| j in s.jobs {
      JobsStay(s, a, j);
    } else {
      var d :| d in s.drains && s.drains[d].dispatching;
      DispatchStays(s, a, d);
    }
  }

  lemma JobsStay(s: System, a: Action, j: nat)
    requires Enabled(s, a) && Diligent(s, a) && j in s.jobs && s.jobs[j].phase != Over
    ensures !a.EndJob? ==> j in Step(s, a).jobs
  {
  }

  lemma DispatchStays(s: System, a: Action, d: nat)
    requires Enabled(s, a) && Diligent(s, a) && d in s.drains && s.drains[d].dispatching
    ensures Engaged(Step(s, a))
  {
    var s' := Step(s, a);
    match a
    case Dispatched(k, j) => assert j in s'.jobs;
    case _ => assert d in s'.drains && s'.drains[d].dispatching;
  }

  /** The drain has everything of a non-empty snapshot before it. */
  ghost predicate Poised(s: System, d: nat) {
    d in s.drains && s.drains[d].next == 0 && s.drains[d].snapshot != [] && !s.drains[d].dispatching
  }

  lemma NothingClaimed(s: System)
    requires Inv(s) && !Engaged(s)
    ensures s.claims == map[]
  {
    forall t ensures t !in s.claims {
      assert t in s.claims ==> Held(s, t);
    }
  }

  lemma PoisedOrEngaged(s: System, a: Action, d: nat)
    requires Inv(s) && Enabled(s, a) && Diligent(s, a) && Poised(s, d) && !Engaged(s)
    ensures Poised(Step(s, a), d) || Engaged(Step(s, a))
  {
    NothingClaimed(s);
    var s' := Step(s, a);
    match a
    case DrainStep(k, _) => assert k in s'.drains && s'.drains[k].dispatching;
    case _ => assert Poised(s', d);
  }

  lemma {:induction false} StillUnanswered(states: seq<System>, acts: seq<Action>, n: nat)
    requires Segment(states, acts) && n <= |acts| && Idle(states[0])
    requires forall k :: 0 <= k < n ==> ReplyOf(states[k], acts[k]).None?
    ensures Unanswered(states[n])
  {
    if n > 0 {
      StillUnanswered(states, acts, n - 1);
      SegmentInv(states, acts, n - 1);
      assert StepAt(states, acts, n - 1);
      UnansweredStays(states[n - 1], acts[n - 1]);
    }
  }

  lemma {:induction false} DrainEngages(states: seq<System>, acts: seq<Action>, i: nat, n: nat)
    requires Segment(states, acts) && i < n <= |acts| && Idle(states[0])
    requires acts[i].StartDrain? && states[i].pending != []
    requires forall k :: 0 <= k < n ==> ReplyOf(states[k], acts[k]).None?
    ensures Poised(states[n], acts[i].d) || Engaged(states[n])
  {
    var s, a := states[n - 1], acts[n - 1];
    assert StepAt(states, acts, n - 1);
    if n > i + 1 {
      DrainEngages(states, acts, i, n - 1);
      SegmentInv(states, acts, n - 1);
      StillUnanswered(states, acts, n - 1);
      UnansweredStays(s, a);
      if Engaged(s) {
        EngagedStays(s, a);
      } else {
        PoisedOrEngaged(s, a, acts[i].d);
      }
    }
  }

  // ---------------------------------------------------------------- results

  lemma DiligentIsSteady(s: System, a: Action)
    requires Diligent(s, a)
    ensures Steady(s, a)
  {
  }

  lemma {:induction false} SegmentCalls(states: seq<System>, acts: seq<Action>, n: nat)
    requires Segment(states, acts) && n <= |acts| && CallsPending(states[0])
    ensures CallsPending(states[n])
  {
    if n > 0 {
      SegmentCalls(states, acts, n - 1);
      SegmentInv(states, acts, n - 1);
      assert StepAt(states, acts, n - 1);
      DiligentIsSteady(states[n - 1], acts[n - 1]);
      StepMoves(states[n - 1], acts[n - 1]);
    }
  }

  /** Each step of such a schedule takes in an event, or answers one for good, or leaves the queue alone. */
  lemma CountStep(s: System, a: Action, before: seq<Action>)
    requires Inv(s) && CallsPending(s) && Enabled(s, a) && Diligent(s, a)
    ensures var s' := Step(s, a);
            && |s'.pending| + |Recorded(s'.replies)| - |Taken(before + [a])| ==
               |s.pending| + |Recorded(s.replies)| - |Taken(before)|
            && |Recorded(s'.replies)| == |Recorded(s.replies)| + if ReplyOf(s, a).Some? then 1 else 0
  {
    DiligentIsSteady(s, a);
    StepMoves(s, a);
    TakenSnoc(before, a);
    match ReplyOf(s, a)
    case Some(r) =>
      RecordedSnoc(s.replies, r);
      RemoveOne(s.pending, r.event);
    case None =>
  }

  lemma RemoveOne(pending: seq<HeyEvent>, e: HeyEvent)
    requires Distinct(Ids(pending)) && e in pending
    ensures |Remove(pending, e.eventId)| == |pending| - 1
  {
    var i :| 0 <= i < |pending| && pending[i] == e;
    RemoveAt(pending, i);
  }

  /** How many of the first `n` steps answer an event. */
  ghost function Answers(states: seq<System>, acts: seq<Action>, n: nat): (r: nat)
    requires n <= |acts| < |states|
    ensures r == 0 <==> forall k :: 0 <= k < n ==> ReplyOf(states[k], acts[k]).None?
  {
    if n == 0 then 0 else Answers(states, acts, n - 1) + if ReplyOf(states[n - 1], acts[n - 1]).Some? then 1 else 0
  }

  /** The queue's size and the number of answers, after some steps. */
  ghost predicate Counted(first: System, s: System, taken: nat, answers: nat) {
    && |s.pending| + |Recorded(s.replies)| == |first.pending| + |Recorded(first.replies)| + taken
    && |Recorded(s.replies)| == |Recorded(first.replies)| + answers
  }

  lemma {:induction false} CountSegment(states: seq<System>, acts: seq<Action>, n: nat)
    requires Segment(states, acts) && n <= |acts| && CallsPending(states[0])
    ensures Counted(states[0], states[n], |Taken(acts[..n])|, Answers(states, acts, n))
  {
    if n > 0 {
      CountSegment(states, acts, n - 1);
      CountAt(states, acts, n - 1);
    } else {
      assert acts[..0] == [];
    }
  }

  lemma CountAt(states: seq<System>, acts: seq<Action>, n: nat)
    requires Segment(states, acts) && n < |acts| && CallsPending(states[0])
    ensures |states[n + 1].pending| + |Recorded(states[n + 1].replies)| - |Taken(acts[..n + 1])|
            == |states[n].pending| + |Recorded(states[n].replies)| - |Taken(acts[..n])|
    ensures |Recorded(states[n + 1].replies)|
            == |Recorded(states[n].replies)| + if ReplyOf(states[n], acts[n]).Some? then 1 else 0
  {
    SegmentInv(states, acts, n);
    SegmentCalls(states, acts, n);
    assert StepAt(states, acts, n);
    assert acts[..n + 1] == acts[..n] + [acts[n]];
    CountStep(states[n], acts[n], acts[..n]);
  }

  /**
   Progress under every schedule: between two idle states of a host, if a drain was started with something
   pending and every dispatched event ends in a confirmed and completed send, however drains, dispatches and
   jobs interleave, then some event was answered for good: fewer are pending than were before and arrived.
   */
  lemma EveryScheduleProgresses(states: seq<System>, acts: seq<Action>, i: nat)
    requires Segment(states, acts) && Idle(states[0]) && Idle(states[|acts|])
    requires i < |acts| && acts[i].StartDrain? && states[i].pending != []
    ensures |states[|acts|].pending| < |states[0].pending| + |Taken(acts)|
    ensures |states[|acts|].pending| + |Recorded(states[|acts|].replies)|
            == |states[0].pending| + |Recorded(states[0].replies)| + |Taken(acts)|
  {
    if Answers(states, acts, |acts|) == 0 {
      DrainEngages(states, acts, i, |acts|);
    }
    CountSegment(states, acts, |acts|);
    assert acts[..|acts|] == acts;
  }
}
