/** Drain rounds: passes over a fresh snapshot whose sends are all confirmed empty the queue, in order. */
module DrainRounds {
  import opened Wrappers
  import opened Sequences
  import opened Decimal
  import opened Events
  import opened QueueModel
  import opened Adapters
  import opened AdapterSafety
  import opened DrainOrder

  /** The state a list of actions leads to, if each is enabled in turn. */
  ghost function Exec(s: System, actions: seq<Action>): Option<System> {
    if actions == [] then Some(s)
    else
      match Exec(s, actions[..|actions| - 1])
      case None => None
      case Some(m) => if Enabled(m, actions[|actions| - 1]) then Some(Step(m, actions[|actions| - 1])) else None
  }

  lemma ExecSnoc(s: System, actions: seq<Action>, a: Action)
    requires Exec(s, actions).Some? && Enabled(Exec(s, actions).value, a)
    ensures Exec(s, actions + [a]) == Some(Step(Exec(s, actions).value, a))
  {
    assert (actions + [a])[..|actions|] == actions;
  }

  lemma {:induction false} ExecConcat(s: System, a: seq<Action>, b: seq<Action>)
    requires Exec(s, a).Some?
    ensures Exec(s, a + b) == Exec(Exec(s, a).value, b)
  {
    if b == [] {
      assert a + b == a;
    } else {
      ExecConcat(s, a, b[..|b| - 1]);
      assert (a + b)[..|a + b| - 1] == a + b[..|b| - 1];
    }
  }

  /** What is executed from the empty host is a run. */
  lemma {:induction false} ExecIsRun(actions: seq<Action>) returns (states: seq<System>)
    requires Exec(Empty(), actions).Some?
    ensures Run(states, actions) && Some(states[|actions|]) == Exec(Empty(), actions)
  {
    if actions == [] {
      states := [Empty()];
    } else {
      var n := |actions| - 1;
      var init := ExecIsRun(actions[..n]);
      states := init + [Step(init[n], actions[n])];
      forall i | 0 <= i < |actions|
        ensures Enabled(states[i], actions[i]) && states[i + 1] == Step(states[i], actions[i])
      {
        if i < n {
          assert actions[..n][i] == actions[i];
        }
      }
    }
  }

  // ---------------------------------------------------------------- one job

  /** A job before its send whose event is the first pending one of its thread. */
  ghost predicate Fresh(s: System, j: nat) {
    Ready(s, j) && IsHead(s.pending, s.jobs[j].event)
  }

  ghost predicate Ready(s: System, j: nat) {
    j in s.jobs && s.jobs[j].phase == Running && s.jobs[j].event in s.pending
  }

  lemma FindsIt(s: System, e: HeyEvent)
    requires EventsOk(s) && e in s.pending
    ensures FindEvent(s.pending, e.eventId, e.threadId) == Some(e)
  {
    FindEventSpec(s.pending, e.eventId, e.threadId);
    OnlyOne(s.pending, FindEvent(s.pending, e.eventId, e.threadId).value, e);
  }

  lemma CallStep(s: System, j: nat)
    requires Inv(s) && Ready(s, j)
    ensures Enabled(s, CallMutation(j))
    ensures var e, s' := s.jobs[j].event, Step(s, CallMutation(j));
            && s' == s.(jobs := s.jobs[j := Job(e, Calling(e))], calls := s'.calls)
  {
    var e := s.jobs[j].event;
    assert JobHolds(s, j);
    FindsIt(s, e);
  }

  lemma EndStep(s: System, j: nat)
    requires Enabled(s, EndJob(j))
    ensures var s' := Step(s, EndJob(j));
            s' == s.(jobs := s.jobs - {j}, claims := s'.claims)
  {
  }

  function JobActions(j: nat, completion: Completion): seq<Action> {
    [CallMutation(j), Returns(j, Confirmed(completion)), EndJob(j)]
  }

  lemma JobRuns(s: System, j: nat, completion: Completion) returns (s': System)
    requires Inv(s) && Ready(s, j)
    ensures Exec(s, JobActions(j, completion)) == Some(s') && Inv(s') && s'.drains == s.drains
    ensures var e := s.jobs[j].event;
            && s'.jobs == s.jobs - {j} && s'.replies == s.replies + [Reply(e, completion.Kept())]
            && s'.pending == if completion.Kept() then Remove(s.pending, e.eventId) else s.pending
  {
    CallStep(s, j);
    var s1 := Step(s, CallMutation(j));
    StepKeepsInv(s, CallMutation(j));
    var answer := Returns(j, Confirmed(completion));
    SuccessStep(s1, j, completion);
    var s2 := Step(s1, answer);
    StepKeepsInv(s1, answer);
    EndStep(s2, j);
    s' := Step(s2, EndJob(j));
    StepKeepsInv(s2, EndJob(j));
    assert s'.jobs == s.jobs - {j};
    ThreeSteps(s, s1, s2, CallMutation(j), answer, EndJob(j));
  }

  lemma ThreeSteps(s: System, s1: System, s2: System, a: Action, b: Action, c: Action)
    requires Enabled(s, a) && s1 == Step(s, a) && Enabled(s1, b) && s2 == Step(s1, b) && Enabled(s2, c)
    ensures Exec(s, [a, b, c]) == Some(Step(s2, c))
  {
    assert Exec(s, []) == Some(s);
    ExecSnoc(s, [], a);
    assert [] + [a] == [a];
    ExecSnoc(s, [a], b);
    assert [a] + [b] == [a, b];
    ExecSnoc(s, [a, b], c);
    assert [a, b] + [c] == [a, b, c];
  }

  // ---------------------------------------------------------------- the jobs of a round, in any order

  function FinishActions(order: seq<nat>): seq<Action> {
    if order == [] then [] else JobActions(order[0], Returned) + FinishActions(order[1..])
  }

  /** `order` lists the jobs at hand, each once; all are fresh. */
  ghost predicate AllFresh(s: System, order: seq<nat>) {
    && s.drains == map[] && Distinct(order)
    && (forall j :: j in s.jobs <==> j in order)
    && forall j :: j in s.jobs ==> Fresh(s, j)
  }

  /** The events of a thread that were replied to for good, in order. */
  function Settled(s: System, t: int): seq<HeyEvent> {
    Recorded(RepliesOn(s.replies, t))
  }

  /** Between two states: settled then pending events of a thread are the same sequence. */
  ghost predicate KeepsOrder(s: System, s': System) {
    forall t :: Settled(s', t) + OnThread(s'.pending, t) == Settled(s, t) + OnThread(s.pending, t)
  }

  lemma JobKeepsOrder(s: System, s': System, e: HeyEvent)
    requires Distinct(Ids(s.pending)) && e in s.pending && IsHead(s.pending, e)
    requires s'.pending == Remove(s.pending, e.eventId) && s'.replies == s.replies + [Reply(e, true)]
    ensures KeepsOrder(s, s')
    ensures |s'.pending| + 1 == |s.pending|
  {
    forall t ensures Settled(s', t) + OnThread(s'.pending, t) == Settled(s, t) + OnThread(s.pending, t) {
      JobOnThread(s, s', e, t);
    }
    var i :| 0 <= i < |s.pending| && s.pending[i] == e;
    RemoveAt(s.pending, i);
  }

  lemma JobOnThread(s: System, s': System, e: HeyEvent, t: int)
    requires Distinct(Ids(s.pending)) && e in s.pending && IsHead(s.pending, e)
    requires s'.pending == Remove(s.pending, e.eventId) && s'.replies == s.replies + [Reply(e, true)]
    ensures Settled(s', t) + OnThread(s'.pending, t) == Settled(s, t) + OnThread(s.pending, t)
  {
    OnThreadRemove(s.pending, e, t);
    SettledSnoc(s, s', e, t);
    if t == e.threadId {
      MoveFirst(Settled(s, t), OnThread(s.pending, t));
    }
  }

  lemma SettledSnoc(s: System, s': System, e: HeyEvent, t: int)
    requires s'.replies == s.replies + [Reply(e, true)]
    ensures Settled(s', t) == if t == e.threadId then Settled(s, t) + [e] else Settled(s, t)
  {
    RepliesOnSnoc(s.replies, Reply(e, true), t);
    RecordedSnoc(RepliesOn(s.replies, t), Reply(e, true));
  }

  lemma MoveFirst(a: seq<HeyEvent>, b: seq<HeyEvent>)
    requires b != []
    ensures a + [b[0]] + b[1..] == a + b
  {
  }

  lemma OthersStayFresh(s: System, s': System, j: nat)
    requires Inv(s) && Fresh(s, j) && (forall k :: k in s.jobs ==> Fresh(s, k))
    requires s'.jobs == s.jobs - {j} && s'.pending == Remove(s.pending, s.jobs[j].event.eventId)
    ensures forall k :: k in s'.jobs ==> Fresh(s', k)
  {
    var e := s.jobs[j].event;
    RemoveMembers(s.pending, e.eventId);
    forall k | k in s'.jobs ensures Fresh(s', k) {
      assert Fresh(s, k);
      var f := s.jobs[k].event;
      if f.eventId == e.eventId {
        OneThread(f, e);
      }
      OnThreadRemove(s.pending, e, f.threadId);
    }
  }

  lemma {:induction false} FinishRuns(s: System, order: seq<nat>) returns (s': System)
    requires Inv(s) && AllFresh(s, order)
    ensures Exec(s, FinishActions(order)) == Some(s') && Inv(s') && s'.drains == s.drains && s'.jobs == map[]
    ensures KeepsOrder(s, s') && |s'.pending| + |order| == |s.pending|
    decreases |order|
  {
    if order == [] {
      s' := s;
    } else {
      var j := order[0];
      var m := JobRuns(s, j, Returned);
      JobKeepsOrder(s, m, s.jobs[j].event);
      OthersStayFresh(s, m, j);
      RestDistinct(order);
      s' := FinishRuns(m, order[1..]);
      ExecConcat(s, JobActions(j, Returned), FinishActions(order[1..]));
    }
  }

  lemma RestDistinct(order: seq<nat>)
    requires Distinct(order) && order != []
    ensures Distinct(order[1..]) && forall j :: j in order[1..] <==> j in order && j != order[0]
  {
    assert order == [order[0]] + order[1..];
    DistinctConcat([order[0]], order[1..]);
  }

  // ---------------------------------------------------------------- one pass

  /** The first event of each thread, in order. */
  function Heads(events: seq<HeyEvent>): seq<HeyEvent> {
    if events == [] then []
    else
      var n := |events| - 1;
      if OnThread(events[..n], events[n].threadId) == [] then Heads(events[..n]) + [events[n]] else Heads(events[..n])
  }

  lemma {:induction false} HeadsSpec(events: seq<HeyEvent>)
    ensures forall e :: e in Heads(events) <==> IsHead(events, e)
  {
    if events != [] {
      var n := |events| - 1;
      var init, last := events[..n], events[n];
      HeadsSpec(init);
      assert events == init + [last];
      forall e ensures e in Heads(events) <==> IsHead(events, e) {
        OnThreadSnoc(init, last, e.threadId);
      }
    }
  }

  function JobsOf(heads: seq<HeyEvent>): map<nat, Job> {
    map j: nat | j < |heads| :: Job(heads[j], Running)
  }

  /** What a drain does with events that are all cleared while no job ends: dispatch the new threads. */
  function PassActions(events: seq<HeyEvent>): seq<Action> {
    if events == [] then [StartDrain(0)]
    else
      var n := |events| - 1;
      PassActions(events[..n]) +
      if OnThread(events[..n], events[n].threadId) == []
      then [DrainStep(0, Cleared), Dispatched(0, |Heads(events[..n])|)]
      else [DrainStep(0, Cleared)]
  }

  /** Nothing is under way. */
  ghost predicate Idle(s: System) {
    Inv(s) && s.drains == map[] && s.jobs == map[]
  }

  /** The state after the drain has passed over the first `i` events. */
  ghost predicate Passed(s: System, i: nat, m: System)
    requires i <= |s.pending|
  {
    && Inv(m)
    && m == s.(drains := map[0 := Drain(s.pending, i, false)], jobs := JobsOf(Heads(s.pending[..i])),
               claims := m.claims)
  }

  /** A thread is claimed exactly when one of its events was passed. */
  lemma ClaimedIffPassed(s: System, i: nat, m: System, t: int)
    requires i <= |s.pending| && Passed(s, i, m)
    ensures t in m.claims <==> OnThread(s.pending[..i], t) != []
  {
    var heads := Heads(s.pending[..i]);
    HeadsSpec(s.pending[..i]);
    OnThreadMembers(s.pending[..i], t);
    JobsClaim(heads, m, t);
    if OnThread(s.pending[..i], t) != [] {
      var e := OnThread(s.pending[..i], t)[0];
      assert e in OnThread(s.pending[..i], t) && e in heads;
    }
  }

  lemma JobsClaim(heads: seq<HeyEvent>, m: System, t: int)
    requires Inv(m) && m.jobs == JobsOf(heads) && forall d :: d in m.drains ==> !m.drains[d].dispatching
    ensures t in m.claims <==> exists e :: e in heads && e.threadId == t
  {
    if t in m.claims {
      assert Held(m, t);
      var j: nat :| j in m.jobs && m.jobs[j].event.threadId == t;
      assert heads[j] in heads;
    }
    if e :| e in heads && e.threadId == t {
      var j :| 0 <= j < |heads| && heads[j] == e;
      assert j in m.jobs && JobHolds(m, j);
    }
  }

  lemma SkipStep(m: System, snapshot: seq<HeyEvent>, i: nat)
    requires i < |snapshot| && m.drains == map[0 := Drain(snapshot, i, false)] && snapshot[i].threadId in m.claims
    ensures Enabled(m, DrainStep(0, Cleared))
    ensures Step(m, DrainStep(0, Cleared)) == m.(drains := map[0 := Drain(snapshot, i + 1, false)])
  {
  }

  lemma ClaimStep(m: System, snapshot: seq<HeyEvent>, i: nat)
    requires i < |snapshot| && m.drains == map[0 := Drain(snapshot, i, false)] && snapshot[i].threadId !in m.claims
    ensures Enabled(m, DrainStep(0, Cleared))
    ensures var s' := Step(m, DrainStep(0, Cleared));
            s' == m.(drains := map[0 := Drain(snapshot, i, true)], claims := s'.claims)
  {
  }

  lemma DispatchStep(m: System, snapshot: seq<HeyEvent>, i: nat, j: nat)
    requires i < |snapshot| && m.drains == map[0 := Drain(snapshot, i, true)] && j !in m.jobs
    ensures Enabled(m, Dispatched(0, j))
    ensures Step(m, Dispatched(0, j)) ==
            m.(drains := map[0 := Drain(snapshot, i + 1, false)], jobs := m.jobs[j := Job(snapshot[i], Running)])
  {
  }

  lemma SkipPasses(s: System, i: nat, m: System)
    requires i < |s.pending| && Passed(s, i, m) && OnThread(s.pending[..i], s.pending[i].threadId) != []
    ensures Enabled(m, DrainStep(0, Cleared)) && Passed(s, i + 1, Step(m, DrainStep(0, Cleared)))
  {
    ClaimedIffPassed(s, i, m, s.pending[i].threadId);
    SkipStep(m, s.pending, i);
    StepKeepsInv(m, DrainStep(0, Cleared));
    assert s.pending[..i + 1][..i] == s.pending[..i];
  }

  lemma ClaimPasses(s: System, i: nat, m: System) returns (m1: System)
    requires i < |s.pending| && Passed(s, i, m) && OnThread(s.pending[..i], s.pending[i].threadId) == []
    ensures Enabled(m, DrainStep(0, Cleared)) && m1 == Step(m, DrainStep(0, Cleared)) && Inv(m1)
    ensures m1 == m.(claims := m1.claims, drains := map[0 := Drain(s.pending, i, true)])
  {
    ClaimedIffPassed(s, i, m, s.pending[i].threadId);
    ClaimStep(m, s.pending, i);
    m1 := Step(m, DrainStep(0, Cleared));
    StepKeepsInv(m, DrainStep(0, Cleared));
  }

  lemma DispatchPasses(s: System, i: nat, m: System, m1: System)
    requires i < |s.pending| && Passed(s, i, m) && OnThread(s.pending[..i], s.pending[i].threadId) == []
    requires Inv(m1) && m1 == m.(claims := m1.claims, drains := map[0 := Drain(s.pending, i, true)])
    ensures var a := Dispatched(0, |Heads(s.pending[..i])|);
            Enabled(m1, a) && Passed(s, i + 1, Step(m1, a))
  {
    var n := |Heads(s.pending[..i])|;
    var a := Dispatched(0, n);
    DispatchStep(m1, s.pending, i, n);
    StepKeepsInv(m1, a);
    HeadsGrow(s.pending, i);
  }

  lemma HeadsGrow(events: seq<HeyEvent>, i: nat)
    requires i < |events| && OnThread(events[..i], events[i].threadId) == []
    ensures var heads := Heads(events[..i]);
            JobsOf(Heads(events[..i + 1])) == JobsOf(heads)[|heads| := Job(events[i], Running)]
  {
    assert events[..i + 1][..i] == events[..i];
  }

  lemma {:induction false} PassRuns(s: System, i: nat) returns (m: System)
    requires Idle(s) && i <= |s.pending|
    ensures Exec(s, PassActions(s.pending[..i])) == Some(m) && Passed(s, i, m)
  {
    if i == 0 {
      m := Step(s, StartDrain(0));
      StepKeepsInv(s, StartDrain(0));
      ExecSnoc(s, [], StartDrain(0));
      assert [] + [StartDrain(0)] == [StartDrain(0)];
      assert s.pending[..0] == [] && JobsOf([]) == map[];
    } else {
      m := PassRuns(s, i - 1);
      m := PassOne(s, i - 1, m);
    }
  }

  lemma PassSnoc(events: seq<HeyEvent>, i: nat)
    requires i < |events|
    ensures PassActions(events[..i + 1]) == PassActions(events[..i]) +
              if OnThread(events[..i], events[i].threadId) == []
              then [DrainStep(0, Cleared), Dispatched(0, |Heads(events[..i])|)]
              else [DrainStep(0, Cleared)]
  {
    assert events[..i + 1][..i] == events[..i];
  }

  lemma PassOne(s: System, i: nat, m: System) returns (m': System)
    requires i < |s.pending| && Passed(s, i, m) && Exec(s, PassActions(s.pending[..i])) == Some(m)
    ensures Exec(s, PassActions(s.pending[..i + 1])) == Some(m') && Passed(s, i + 1, m')
  {
    PassSnoc(s.pending, i);
    if OnThread(s.pending[..i], s.pending[i].threadId) == [] {
      var b := Dispatched(0, |Heads(s.pending[..i])|);
      var m1 := ClaimPasses(s, i, m);
      DispatchPasses(s, i, m, m1);
      ExecTwo(s, PassActions(s.pending[..i]), m, DrainStep(0, Cleared), m1, b);
      m' := Step(m1, b);
    } else {
      SkipPasses(s, i, m);
      ExecSnoc(s, PassActions(s.pending[..i]), DrainStep(0, Cleared));
      m' := Step(m, DrainStep(0, Cleared));
    }
  }

  lemma ExecTwo(s: System, before: seq<Action>, m: System, a: Action, m1: System, b: Action)
    requires Exec(s, before) == Some(m) && Enabled(m, a) && m1 == Step(m, a) && Enabled(m1, b)
    ensures Exec(s, before + [a, b]) == Some(Step(m1, b))
  {
    ExecSnoc(s, before, a);
    ExecSnoc(s, before + [a], b);
    assert before + [a] + [b] == before + [a, b];
  }

  // ---------------------------------------------------------------- rounds

  /** A drain over a fresh snapshot, then its jobs, finishing in any order. */
  function RoundActions(pending: seq<HeyEvent>, order: seq<nat>): seq<Action> {
    PassActions(pending) + [EndDrain(0)] + FinishActions(order)
  }

  /** Every job of the round, once. */
  ghost predicate Completes(pending: seq<HeyEvent>, order: seq<nat>) {
    Distinct(order) && forall j: nat :: j in order <==> j < |Heads(pending)|
  }

  lemma PassedFresh(s: System, m: System)
    requires Inv(s) && Passed(s, |s.pending|, m)
    ensures forall j :: j in m.jobs ==> Fresh(m, j)
  {
    assert s.pending[..|s.pending|] == s.pending;
    forall j | j in m.jobs ensures Fresh(m, j) {
      assert m.jobs[j].event in Heads(s.pending);
      HeadIsFirst(s, m.jobs[j].event);
    }
  }

  lemma HeadIsFirst(s: System, e: HeyEvent)
    requires e in Heads(s.pending)
    ensures e in s.pending && IsHead(s.pending, e)
  {
    HeadsSpec(s.pending);
    OnThreadMembers(s.pending, e.threadId);
    assert OnThread(s.pending, e.threadId)[0] in OnThread(s.pending, e.threadId);
  }

  function Below(n: nat): (r: set<nat>)
    ensures |r| == n && forall j: nat :: j in r <==> j < n
  {
    if n == 0 then {} else Below(n - 1) + {n - 1}
  }

  function Elements(order: seq<nat>): (r: set<nat>)
    ensures forall j :: j in r <==> j in order
  {
    if order == [] then {} else {order[0]} + Elements(order[1..])
  }

  lemma {:induction false} DistinctSize(order: seq<nat>)
    requires Distinct(order)
    ensures |Elements(order)| == |order|
  {
    if order != [] {
      RestDistinct(order);
      DistinctSize(order[1..]);
      assert order[0] !in Elements(order[1..]);
    }
  }

  lemma ExactLength(order: seq<nat>, n: nat)
    requires Distinct(order) && forall j: nat :: j in order <==> j < n
    ensures |order| == n
  {
    DistinctSize(order);
    assert Elements(order) == Below(n);
  }

  /**
   One round from an idle host, with every send confirmed and the jobs finishing in any order: it can
   be taken, it leaves the host idle, it removes one event for each thread with something pending, and
   on every thread the events replied to for good followed by the pending ones are the sequence they were.
   */
  lemma RoundShrinks(s: System, order: seq<nat>) returns (s': System)
    requires Idle(s) && Completes(s.pending, order)
    ensures Exec(s, RoundActions(s.pending, order)) == Some(s') && Idle(s')
    ensures |s'.pending| + |Heads(s.pending)| == |s.pending|
    ensures s.pending != [] ==> |s'.pending| < |s.pending|
    ensures KeepsOrder(s, s')
  {
    var n := |s.pending|;
    assert s.pending[..n] == s.pending;
    var m := PassRuns(s, n);
    var m1 := Step(m, EndDrain(0));
    StepKeepsInv(m, EndDrain(0));
    ExecSnoc(s, PassActions(s.pending), EndDrain(0));
    PassedFresh(s, m);
    EndedFresh(m, m1);
    assert AllFresh(m1, order);
    s' := FinishRuns(m1, order);
    ExecConcat(s, PassActions(s.pending) + [EndDrain(0)], FinishActions(order));
    ExactLength(order, |Heads(s.pending)|);
    SomeHead(s.pending);
  }

  lemma SomeHead(events: seq<HeyEvent>)
    ensures events != [] ==> Heads(events) != []
  {
    HeadsSpec(events);
    if events != [] {
      var mine := OnThread(events, events[0].threadId);
      OnThreadMembers(events, events[0].threadId);
      assert events[0] in mine;
      assert mine[0] in mine;
      assert mine[0] in Heads(events);
    }
  }

  lemma EndedFresh(m: System, m1: System)
    requires m1 == m.(drains := m1.drains) && forall j :: j in m.jobs ==> Fresh(m, j)
    ensures forall j :: j in m1.jobs ==> Fresh(m1, j)
  {
    forall j | j in m1.jobs ensures Fresh(m1, j) {
      assert Fresh(m, j);
    }
  }

  /** Consecutive rounds, each with its own order of completion. */
  ghost predicate Rounds(states: seq<System>, orders: seq<seq<nat>>) {
    && |states| == |orders| + 1 && Idle(states[0])
    && forall i :: 0 <= i < |orders| ==>
         && Completes(states[i].pending, orders[i])
         && Exec(states[i], RoundActions(states[i].pending, orders[i])) == Some(states[i + 1])
  }

  lemma {:induction false} RoundsKeep(states: seq<System>, orders: seq<seq<nat>>, n: nat)
    requires Rounds(states, orders) && n <= |orders|
    ensures Idle(states[n]) && KeepsOrder(states[0], states[n])
    ensures states[n].pending == [] || |states[n].pending| + n <= |states[0].pending|
  {
    if n > 0 {
      RoundsKeep(states, orders, n - 1);
      RoundStep(states[n - 1], orders[n - 1], states[n]);
      KeepsOrderTransitive(states[0], states[n - 1], states[n]);
    }
  }

  lemma RoundStep(s: System, order: seq<nat>, s': System)
    requires Idle(s) && Completes(s.pending, order) && Exec(s, RoundActions(s.pending, order)) == Some(s')
    ensures Idle(s') && KeepsOrder(s, s') && (s'.pending == [] || |s'.pending| < |s.pending|)
  {
    var r := RoundShrinks(s, order);
  }

  lemma KeepsOrderTransitive(a: System, b: System, c: System)
    requires KeepsOrder(a, b) && KeepsOrder(b, c)
    ensures KeepsOrder(a, c)
  {
    forall t ensures Settled(c, t) + OnThread(c.pending, t) == Settled(a, t) + OnThread(a.pending, t) {
      assert Settled(c, t) + OnThread(c.pending, t) == Settled(b, t) + OnThread(b.pending, t);
    }
  }

  /**
   Progress and order: rounds strictly shrink the queue, so after as many rounds as there were events
   it is empty, and on every thread exactly the pending events were replied to, in ingestion order.
   */
  lemma RoundsDrain(states: seq<System>, orders: seq<seq<nat>>, t: int)
    requires Rounds(states, orders) && |orders| >= |states[0].pending|
    ensures states[|orders|].pending == []
    ensures Settled(states[|orders|], t) == Settled(states[0], t) + OnThread(states[0].pending, t)
  {
    RoundsKeep(states, orders, |orders|);
    var last := states[|orders|];
    assert OnThread(last.pending, t) == [];
    assert Settled(last, t) + [] == Settled(last, t);
  }
}
