/** Stale snapshots: exactly when a drain claims out of order, and one drain that does. */
module DrainSnapshots {
  import opened Wrappers
  import opened Sequences
  import opened Decimal
  import opened Events
  import opened QueueModel
  import opened Adapters
  import opened AdapterSafety
  import opened DrainOrder
  import opened DrainRounds

  /** The events of a snapshot that are still pending. */
  function Still(snapshot: seq<HeyEvent>, pending: seq<HeyEvent>): seq<HeyEvent> {
    if snapshot == [] then []
    else if snapshot[0] in pending then [snapshot[0]] + Still(snapshot[1..], pending)
    else Still(snapshot[1..], pending)
  }

  lemma {:induction false} StillConcat(a: seq<HeyEvent>, b: seq<HeyEvent>, pending: seq<HeyEvent>)
    ensures Still(a + b, pending) == Still(a, pending) + Still(b, pending)
  {
    if a == [] {
      assert a + b == b;
    } else {
      assert (a + b)[1..] == a[1..] + b;
      StillConcat(a[1..], b, pending);
    }
  }

  lemma {:induction false} StillMembers(snapshot: seq<HeyEvent>, pending: seq<HeyEvent>)
    ensures forall e :: e in Still(snapshot, pending) <==> e in snapshot && e in pending
  {
    if snapshot != [] {
      StillMembers(snapshot[1..], pending);
    }
  }

  lemma {:induction false} StillAll(snapshot: seq<HeyEvent>, pending: seq<HeyEvent>)
    requires forall e :: e in snapshot ==> e in pending
    ensures Still(snapshot, pending) == snapshot
  {
    if snapshot != [] {
      StillAll(snapshot[1..], pending);
    }
  }

  lemma {:induction false} StillRemove(snapshot: seq<HeyEvent>, pending: seq<HeyEvent>, id: string)
    ensures Still(snapshot, Remove(pending, id)) == Remove(Still(snapshot, pending), id)
  {
    RemoveMembers(pending, id);
    if snapshot != [] {
      StillRemove(snapshot[1..], pending, id);
    }
  }

  lemma {:induction false} StillAppend(snapshot: seq<HeyEvent>, pending: seq<HeyEvent>, e: HeyEvent)
    requires e !in snapshot
    ensures Still(snapshot, pending + [e]) == Still(snapshot, pending)
  {
    if snapshot != [] {
      StillAppend(snapshot[1..], pending, e);
    }
  }

  lemma {:induction false} RemovePrefix(a: seq<HeyEvent>, b: seq<HeyEvent>, id: string)
    requires a <= b
    ensures Remove(a, id) <= Remove(b, id)
  {
    if a != [] {
      RemovePrefix(a[1..], b[1..], id);
    }
  }

  lemma {:induction false} OnThreadConcat(a: seq<HeyEvent>, b: seq<HeyEvent>, t: int)
    ensures OnThread(a + b, t) == OnThread(a, t) + OnThread(b, t)
  {
    if a == [] {
      assert a + b == b;
    } else {
      assert (a + b)[1..] == a[1..] + b;
      OnThreadConcat(a[1..], b, t);
    }
  }

  // ---------------------------------------------------------------- snapshots over a run

  /** No event of a snapshot that a drain is walking is taken in again. */
  ghost predicate NoReturn(s: System, a: Action) {
    a.Accept? ==> forall d :: d in s.drains ==> a.e.eventId !in Ids(s.drains[d].snapshot)
  }

  /** What is left of the snapshot is the front of the queue, in the snapshot's order. */
  ghost predicate FrontOf(snapshot: seq<HeyEvent>, pending: seq<HeyEvent>) {
    Still(snapshot, pending) <= pending && Distinct(Ids(snapshot))
  }

  ghost predicate Fronts(s: System) {
    forall d :: d in s.drains ==> FrontOf(s.drains[d].snapshot, s.pending)
  }

  lemma FrontAccept(snapshot: seq<HeyEvent>, pending: seq<HeyEvent>, e: HeyEvent)
    requires FrontOf(snapshot, pending) && e.eventId !in Ids(snapshot)
    ensures FrontOf(snapshot, pending + [e])
  {
    if e in snapshot {
      IdIn(snapshot, e);
    }
    StillAppend(snapshot, pending, e);
  }

  lemma FrontRemove(snapshot: seq<HeyEvent>, pending: seq<HeyEvent>, id: string)
    requires FrontOf(snapshot, pending)
    ensures FrontOf(snapshot, Remove(pending, id))
  {
    StillRemove(snapshot, pending, id);
    RemovePrefix(Still(snapshot, pending), pending, id);
  }

  lemma FrontStart(s: System)
    requires EventsOk(s)
    ensures FrontOf(s.pending, s.pending)
  {
    StillAll(s.pending, s.pending);
  }

  /** A step changes the queue by one arrival or one removal, unless it restarts the host. */
  lemma StepQueue(s: System, a: Action)
    requires Enabled(s, a) && !a.Restart?
    ensures var s' := Step(s, a);
            || s'.pending == s.pending
            || (a.Accept? && s'.pending == s.pending + [a.e])
            || (exists id :: s'.pending == Remove(s.pending, id))
  {
    match a
    case DrainStep(d, Unauthorized(completion)) =>
      assert completion.Kept() ==> Step(s, a).pending == Remove(s.pending, At(s, d).eventId);
    case Returns(j, outcome) =>
      AnswerLeaves(s, j, outcome);
      var thread := s.jobs[j].event.threadId;
      assert outcome.Confirmed? && outcome.completion.Kept() && thread in s.claims ==>
          Step(s, a).pending == Remove(s.pending, s.claims[thread]);
    case _ =>
  }

  lemma StepSnapshots(s: System, a: Action, d: nat)
    requires Enabled(s, a) && d in Step(s, a).drains
    ensures !a.Restart?
    ensures (d in s.drains && Step(s, a).drains[d].snapshot == s.drains[d].snapshot)
            || (a.StartDrain? && Step(s, a).drains[d].snapshot == s.pending && Step(s, a).pending == s.pending)
  {
    match a
    case DrainStep(k, verdict) =>
      if !(verdict == Cleared && At(s, k).threadId !in s.claims) {
        QuietDrainStep(s, k, verdict);
      }
    case Returns(j, outcome) => AnswerLeaves(s, j, outcome);
    case CallMutation(j) => CallLeaves(s, j);
    case _ =>
  }

  lemma StepKeepsFronts(s: System, a: Action)
    requires Inv(s) && Enabled(s, a) && Fronts(s) && NoReturn(s, a)
    ensures Fronts(Step(s, a))
  {
    var s' := Step(s, a);
    forall d | d in s'.drains ensures FrontOf(s'.drains[d].snapshot, s'.pending) {
      StepSnapshots(s, a, d);
      if d in s.drains && s'.drains[d].snapshot == s.drains[d].snapshot {
        StepKeepsFront(s, a, d);
      } else {
        FrontStart(s);
      }
    }
  }

  lemma StepKeepsFront(s: System, a: Action, d: nat)
    requires Enabled(s, a) && !a.Restart? && Fronts(s) && NoReturn(s, a) && d in s.drains
    ensures FrontOf(s.drains[d].snapshot, Step(s, a).pending)
  {
    StepQueue(s, a);
    var snapshot, pending' := s.drains[d].snapshot, Step(s, a).pending;
    if a.Accept? && pending' == s.pending + [a.e] {
      FrontAccept(snapshot, s.pending, a.e);
    } else if pending' != s.pending {
      var id :| pending' == Remove(s.pending, id);
      FrontRemove(snapshot, s.pending, id);
    }
  }

  lemma {:induction false} FrontsUpTo(states: seq<System>, actions: seq<Action>, n: nat)
    requires Run(states, actions) && n <= |actions|
    requires forall i :: 0 <= i < |actions| ==> NoReturn(states[i], actions[i])
    ensures Fronts(states[n])
  {
    if n > 0 {
      FrontsUpTo(states, actions, n - 1);
      RunStep(states, actions, n - 1);
      StepKeepsFronts(states[n - 1], actions[n - 1]);
    }
  }

  /** The drain has passed over an event of this thread that is still pending. */
  ghost predicate PassedOver(s: System, d: nat, t: int)
    requires Current(s, d)
  {
    exists k :: 0 <= k < s.drains[d].next && s.drains[d].snapshot[k].threadId == t
      && s.drains[d].snapshot[k] in s.pending
  }

  /** At the front of the queue, `e` is first on its thread iff nothing of the thread is left before it. */
  lemma FirstInFront(snapshot: seq<HeyEvent>, i: nat, pending: seq<HeyEvent>)
    requires i < |snapshot| && FrontOf(snapshot, pending) && snapshot[i] in pending && Distinct(Ids(pending))
    ensures IsHead(pending, snapshot[i]) <==> OnThread(Still(snapshot[..i], pending), snapshot[i].threadId) == []
  {
    var before := Still(snapshot[..i], pending);
    StillAt(snapshot, i, pending);
    var after := pending[|before| + 1..];
    assert pending == before + ([snapshot[i]] + after);
    FirstAfterPrefix(pending, before, snapshot[i], after);
  }

  /** Where an event of the snapshot that is still pending stands among those that are. */
  lemma StillAt(snapshot: seq<HeyEvent>, i: nat, pending: seq<HeyEvent>)
    requires i < |snapshot| && snapshot[i] in pending
    ensures Still(snapshot, pending)
            == Still(snapshot[..i], pending) + ([snapshot[i]] + Still(snapshot[i + 1..], pending))
  {
    var e, rest := snapshot[i], snapshot[i + 1..];
    assert snapshot == snapshot[..i] + ([e] + rest);
    StillConcat(snapshot[..i], [e] + rest, pending);
    StillConcat([e], rest, pending);
    assert Still([e], pending) == [e];
  }

  lemma FirstAfterPrefix(pending: seq<HeyEvent>, before: seq<HeyEvent>, e: HeyEvent, after: seq<HeyEvent>)
    requires Distinct(Ids(pending)) && pending == before + ([e] + after)
    ensures IsHead(pending, e) <==> OnThread(before, e.threadId) == []
  {
    var t := e.threadId;
    var earlier := OnThread(before, t);
    OnThreadConcat(before, [e] + after, t);
    OnThreadConcat([e], after, t);
    assert OnThread([e], t) == [e];
    assert OnThread(pending, t) == earlier + ([e] + OnThread(after, t));
    if earlier != [] {
      assert OnThread(pending, t)[0] == earlier[0] && earlier[0] in earlier;
      OnThreadMembers(before, t);
      Across(pending, before, [e] + after, earlier[0], e);
    }
  }

  lemma {:induction false} IdsConcat(a: seq<HeyEvent>, b: seq<HeyEvent>)
    ensures Ids(a + b) == Ids(a) + Ids(b)
  {
    if a == [] {
      assert a + b == b;
    } else {
      assert (a + b)[1..] == a[1..] + b;
      IdsConcat(a[1..], b);
    }
  }

  lemma Across(pending: seq<HeyEvent>, a: seq<HeyEvent>, b: seq<HeyEvent>, f: HeyEvent, g: HeyEvent)
    requires Distinct(Ids(pending)) && pending == a + b && f in a && g in b
    ensures f != g
  {
    IdsConcat(a, b);
    DistinctConcat(Ids(a), Ids(b));
    IdIn(a, f);
    IdIn(b, g);
  }

  /**
   Exactly when a claim is out of order: over every run in which no event of a snapshot is taken in again
   while a drain walks it, a drain about to claim a pending event of a free thread takes the first pending
   event of that thread if and only if it has not passed over another that is still pending.
   */
  lemma ClaimOrderExact(states: seq<System>, actions: seq<Action>, i: nat, d: nat)
    requires Run(states, actions) && i < |actions| && actions[i] == DrainStep(d, Cleared)
    requires forall k :: 0 <= k < |actions| ==> NoReturn(states[k], actions[k])
    requires Current(states[i], d)
    requires var e := At(states[i], d); e.threadId !in states[i].claims && e in states[i].pending
    ensures HeadIs(states[i], At(states[i], d).threadId, At(states[i], d).eventId) <==>
              !PassedOver(states[i], d, At(states[i], d).threadId)
  {
    var s, e := states[i], At(states[i], d);
    var snapshot, n := s.drains[d].snapshot, s.drains[d].next;
    RunInv(states, actions, i);
    FrontsUpTo(states, actions, i);
    FirstInFront(snapshot, n, s.pending);
    LeftBehind(snapshot[..n], s.pending, e.threadId);
    HeadByIdentity(s.pending, e);
    forall k | 0 <= k < n ensures snapshot[k] in snapshot[..n] {
    }
  }

  lemma LeftBehind(passed: seq<HeyEvent>, pending: seq<HeyEvent>, t: int)
    ensures OnThread(Still(passed, pending), t) == [] <==>
              forall f :: f in passed ==> !(f.threadId == t && f in pending)
  {
    var left := Still(passed, pending);
    StillMembers(passed, pending);
    OnThreadMembers(left, t);
    if OnThread(left, t) != [] {
      assert OnThread(left, t)[0] in OnThread(left, t);
    }
    forall f | f in passed && f.threadId == t && f in pending ensures OnThread(left, t) != [] {
      assert f in OnThread(left, t);
    }
  }

  lemma HeadByIdentity(pending: seq<HeyEvent>, e: HeyEvent)
    requires Distinct(Ids(pending)) && e in pending
    ensures IsHead(pending, e) <==>
              OnThread(pending, e.threadId) != [] && OnThread(pending, e.threadId)[0].eventId == e.eventId
  {
    OnThreadMembers(pending, e.threadId);
    var mine := OnThread(pending, e.threadId);
    if mine != [] && mine[0].eventId == e.eventId {
      assert mine[0] in mine;
      OnlyOne(pending, mine[0], e);
    }
  }

  // ---------------------------------------------------------------- one fresh drain out of order

  /**
   Between the dispatch of one event and the next, the job of the first may finish: the drain passes
   over the second event while its thread is claimed by the first, waits in the dispatch of the third,
   and finds the thread free again when it comes to the fourth.
   */
  function Reordering(): seq<Action> {
    Opening() + Waiting() + JobActions(0, Returned) + (Closing() + JobActions(2, Returned))
  }

  function Opening(): seq<Action> {
    [StartDrain(0), DrainStep(0, Cleared), Dispatched(0, 0)]
  }

  function Waiting(): seq<Action> {
    [DrainStep(0, Cleared), DrainStep(0, Cleared)]
  }

  function Closing(): seq<Action> {
    [Dispatched(0, 1), DrainStep(0, Cleared), Dispatched(0, 2)]
  }

  /** Four events, all but the third on one thread. */
  predicate Interleaved(p: seq<HeyEvent>) {
    |p| == 4 && p[1].threadId == p[0].threadId && p[3].threadId == p[0].threadId && p[2].threadId != p[0].threadId
  }

  /** A thread that no job and no dispatching drain holds is free. */
  lemma Unclaimed(s: System, t: int)
    requires Inv(s) && (forall j :: j in s.jobs ==> s.jobs[j].event.threadId != t)
    requires forall d :: Current(s, d) && s.drains[d].dispatching ==> At(s, d).threadId != t
    ensures t !in s.claims
  {
    assert t in s.claims ==> Held(s, t);
  }

  lemma StartStep(s: System, p: seq<HeyEvent>)
    requires Idle(s) && s.pending == p
    ensures Enabled(s, StartDrain(0)) && Inv(Step(s, StartDrain(0)))
    ensures Step(s, StartDrain(0)) == s.(drains := map[0 := Drain(p, 0, false)])
  {
    StepKeepsInv(s, StartDrain(0));
  }

  lemma FirstClaim(s: System, p: seq<HeyEvent>) returns (m: System)
    requires Inv(s) && p != [] && s.drains == map[0 := Drain(p, 0, false)] && s.jobs == map[]
    ensures Enabled(s, DrainStep(0, Cleared)) && m == Step(s, DrainStep(0, Cleared)) && Inv(m)
    ensures m == s.(drains := map[0 := Drain(p, 0, true)], claims := m.claims)
  {
    Unclaimed(s, p[0].threadId);
    ClaimStep(s, p, 0);
    m := Step(s, DrainStep(0, Cleared));
    StepKeepsInv(s, DrainStep(0, Cleared));
  }

  lemma Opens(s: System, p: seq<HeyEvent>) returns (m: System)
    requires Idle(s) && s.pending == p && Interleaved(p)
    ensures Exec(s, Opening()) == Some(m) && Inv(m)
    ensures m == s.(drains := map[0 := Drain(p, 1, false)], jobs := map[0 := Job(p[0], Running)], claims := m.claims)
  {
    StartStep(s, p);
    var s1 := Step(s, StartDrain(0));
    var s2 := FirstClaim(s1, p);
    DispatchStep(s2, p, 0, 0);
    m := Step(s2, Dispatched(0, 0));
    StepKeepsInv(s2, Dispatched(0, 0));
    ThreeSteps(s, s1, s2, StartDrain(0), DrainStep(0, Cleared), Dispatched(0, 0));
  }

  lemma Waits(s: System, p: seq<HeyEvent>) returns (m: System)
    requires Inv(s) && Interleaved(p) && s.drains == map[0 := Drain(p, 1, false)]
    requires s.jobs == map[0 := Job(p[0], Running)]
    ensures Exec(s, Waiting()) == Some(m)
    ensures Inv(m) && m == s.(drains := map[0 := Drain(p, 2, true)], claims := m.claims)
  {
    assert p[0].threadId in s.claims by {
      assert JobHolds(s, 0);
    }
    Unclaimed(s, p[2].threadId);
    SkipStep(s, p, 1);
    var s1 := Step(s, DrainStep(0, Cleared));
    StepKeepsInv(s, DrainStep(0, Cleared));
    ClaimStep(s1, p, 2);
    m := Step(s1, DrainStep(0, Cleared));
    StepKeepsInv(s1, DrainStep(0, Cleared));
    TwoSteps(s, s1, DrainStep(0, Cleared), DrainStep(0, Cleared));
  }

  lemma TwoSteps(s: System, s1: System, a: Action, b: Action)
    requires Enabled(s, a) && s1 == Step(s, a) && Enabled(s1, b)
    ensures Exec(s, [a, b]) == Some(Step(s1, b))
  {
    assert Exec(s, []) == Some(s);
    ExecSnoc(s, [], a);
    assert [] + [a] == [a];
    ExecSnoc(s, [a], b);
    assert [a] + [b] == [a, b];
  }

  lemma Closes(s: System, p: seq<HeyEvent>) returns (m: System)
    requires Inv(s) && Interleaved(p) && s.drains == map[0 := Drain(p, 2, true)] && s.jobs == map[]
    ensures Exec(s, Closing()) == Some(m) && Inv(m)
    ensures m.pending == s.pending && m.replies == s.replies
    ensures m.jobs == map[1 := Job(p[2], Running), 2 := Job(p[3], Running)]
  {
    DispatchStep(s, p, 2, 1);
    var s1 := Step(s, Dispatched(0, 1));
    StepKeepsInv(s, Dispatched(0, 1));
    Unclaimed(s1, p[3].threadId);
    ClaimStep(s1, p, 3);
    var s2 := Step(s1, DrainStep(0, Cleared));
    StepKeepsInv(s1, DrainStep(0, Cleared));
    DispatchStep(s2, p, 3, 2);
    m := Step(s2, Dispatched(0, 2));
    StepKeepsInv(s2, Dispatched(0, 2));
    ThreeSteps(s, s1, s2, Dispatched(0, 1), DrainStep(0, Cleared), Dispatched(0, 2));
  }

  lemma RemoveFirst(p: seq<HeyEvent>)
    requires p != [] && Distinct(Ids(p))
    ensures Remove(p, p[0].eventId) == p[1..] && Distinct(Ids(p[1..]))
  {
    assert Ids(p) == [p[0].eventId] + Ids(p[1..]);
    DistinctConcat([p[0].eventId], Ids(p[1..]));
    RemoveAbsent(p[1..], p[0].eventId);
  }

  lemma RemoveThird(p: seq<HeyEvent>)
    requires |p| == 3 && Distinct(Ids(p))
    ensures Remove(p, p[2].eventId) == p[..2]
  {
    RemoveAt(p, 2);
    assert p[..2] + p[3..] == p[..2];
  }

  lemma Joined(s: System, a: seq<Action>, b: seq<Action>, m: System, m': System)
    requires Exec(s, a) == Some(m) && Exec(m, b) == Some(m')
    ensures Exec(s, a + b) == Some(m')
  {
    ExecConcat(s, a, b);
  }

  lemma FirstReply(s: System, p: seq<HeyEvent>) returns (m: System)
    requires Idle(s) && s.pending == p && Interleaved(p)
    ensures Exec(s, Opening() + Waiting() + JobActions(0, Returned)) == Some(m) && Inv(m)
    ensures m.drains == map[0 := Drain(p, 2, true)] && m.jobs == map[]
    ensures m.replies == s.replies + [Reply(p[0], true)] && m.pending == p[1..]
  {
    var s1 := Opens(s, p);
    var s2 := Waits(s1, p);
    Joined(s, Opening(), Waiting(), s1, s2);
    m := JobRuns(s2, 0, Returned);
    Joined(s, Opening() + Waiting(), JobActions(0, Returned), s2, m);
    RemoveFirst(p);
  }

  lemma SecondReply(s: System, p: seq<HeyEvent>) returns (m: System)
    requires Inv(s) && Interleaved(p) && s.drains == map[0 := Drain(p, 2, true)] && s.jobs == map[]
    requires s.pending == p[1..]
    ensures Exec(s, Closing() + JobActions(2, Returned)) == Some(m)
    ensures m.replies == s.replies + [Reply(p[3], true)] && m.pending == p[1..3]
  {
    var s1 := Closes(s, p);
    assert p[3] == p[1..][2] && p[1..][..2] == p[1..3];
    m := JobRuns(s1, 2, Returned);
    Joined(s, Closing(), JobActions(2, Returned), s1, m);
    RemoveThird(p[1..]);
  }

  /**
   Order can fail in one drain over a fresh snapshot: from any idle host with four such events pending, the
   fourth is replied to while the second, of the same thread, stays pending.
   */
  lemma OneDrainReorders(s: System, p: seq<HeyEvent>) returns (s': System)
    requires Idle(s) && s.pending == p && Interleaved(p)
    ensures Exec(s, Reordering()) == Some(s')
    ensures s'.replies == s.replies + [Reply(p[0], true)] + [Reply(p[3], true)] && s'.pending == p[1..3]
  {
    var m := FirstReply(s, p);
    s' := SecondReply(m, p);
    Joined(s, Opening() + Waiting() + JobActions(0, Returned), Closing() + JobActions(2, Returned), m, s');
  }

  // ---------------------------------------------------------------- the same, from an empty host

  function Arrivals(p: seq<HeyEvent>): seq<Action> {
    if p == [] then [] else Arrivals(p[..|p| - 1]) + [Accept(p[|p| - 1])]
  }

  lemma {:induction false} Arrive(p: seq<HeyEvent>)
    requires AllValid(p) && Distinct(Ids(p))
    ensures Exec(Empty(), Arrivals(p)) == Some(Empty().(pending := p)) && Taken(Arrivals(p)) == p
  {
    if p != [] {
      var n := |p| - 1;
      assert p == p[..n] + [p[n]];
      IdsSnoc(p[..n], p[n]);
      DistinctConcat(Ids(p[..n]), [p[n].eventId]);
      Arrive(p[..n]);
      assert p[n].eventId in [p[n].eventId];
      assert p[n].Valid();
      ExecSnoc(Empty(), Arrivals(p[..n]), Accept(p[n]));
      TakenSnoc(Arrivals(p[..n]), Accept(p[n]));
    }
  }

  lemma {:induction false} TakenQuiet(a: seq<Action>, b: seq<Action>)
    requires forall x :: x in b ==> !x.Accept?
    ensures Taken(a + b) == Taken(a)
  {
    if b == [] {
      assert a + b == a;
    } else {
      var n := |b| - 1;
      TakenQuiet(a, b[..n]);
      TakenSnoc(a + b[..n], b[n]);
      assert a + b == a + b[..n] + [b[n]];
    }
  }

  /** No authorization is lost, the host does not restart, every answer is a confirmation, every completion returns. */
  predicate Smooth(a: Action) {
    match a
    case DrainStep(_, verdict) => verdict == Cleared
    case DispatchFails(_) => false
    case Returns(_, outcome) => outcome == Confirmed(Returned)
    case Restart(_) => false
    case _ => true
  }

  lemma ReorderingIsSmooth(p: seq<HeyEvent>)
    ensures forall a :: a in Arrivals(p) + Reordering() ==> Smooth(a)
    ensures forall a :: a in Reordering() ==> !a.Accept?
  {
    ArrivalsAreSmooth(p);
    assert forall a :: a in Opening() + Waiting() + Closing() + JobActions(0, Returned) + JobActions(2, Returned) ==>
        Smooth(a) && !a.Accept?;
    assert forall a :: a in Reordering() <==>
        a in Opening() + Waiting() + Closing() + JobActions(0, Returned) + JobActions(2, Returned);
  }

  lemma {:induction false} ArrivalsAreSmooth(p: seq<HeyEvent>)
    ensures forall a :: a in Arrivals(p) ==> Smooth(a)
  {
    if p != [] {
      ArrivalsAreSmooth(p[..|p| - 1]);
    }
  }

  /** Three of the events on one thread, the last two of them the wrong way round. */
  lemma Swapped(p: seq<HeyEvent>)
    requires Interleaved(p) && Distinct(Ids(p))
    ensures var t := p[0].threadId;
            OnThread(p, t) != Recorded(RepliesOn([Reply(p[0], true)] + [Reply(p[3], true)], t)) + OnThread(p[1..3], t)
  {
    var t := p[0].threadId;
    assert p[1] != p[3] by {
      assert Ids(p)[1] != Ids(p)[3];
    }
    FourOnThread(p[0], p[1], p[2], p[3]);
    assert p == [p[0], p[1], p[2], p[3]] && p[1..3] == [p[1], p[2]];
    TwoReplies(p[0], p[3]);
    assert OnThread(p, t)[1] == p[1];
    assert ([p[0], p[3]] + [p[1]])[1] == p[3];
  }

  lemma FourOnThread(x: HeyEvent, a: HeyEvent, y: HeyEvent, b: HeyEvent)
    requires a.threadId == x.threadId && b.threadId == x.threadId && y.threadId != x.threadId
    ensures OnThread([x, a, y, b], x.threadId) == [x, a, b] && OnThread([a, y], x.threadId) == [a]
  {
    var t := x.threadId;
    assert [x, a, y, b] == [x] + [a] + [y] + [b] && [a, y] == [a] + [y];
    assert OnThread([x], t) == [x] && OnThread([a], t) == [a];
    OnThreadSnoc([x], a, t);
    OnThreadSnoc([x] + [a], y, t);
    OnThreadSnoc([x] + [a] + [y], b, t);
    OnThreadSnoc([a], y, t);
  }

  lemma TwoReplies(x: HeyEvent, b: HeyEvent)
    requires b.threadId == x.threadId
    ensures Recorded(RepliesOn([Reply(x, true)] + [Reply(b, true)], x.threadId)) == [x, b]
  {
    var r, q := Reply(x, true), Reply(b, true);
    assert [] + [r] == [r];
    RepliesOnSnoc([], r, x.threadId);
    RepliesOnSnoc([r], q, x.threadId);
    RecordedSnoc([], r);
    RecordedSnoc([r], q);
  }

  /**
   A run from an empty host in which everything succeeds and the replies on a thread do not follow the
   order of ingestion, for any four distinct valid events of which all but the third are on one thread.
   */
  lemma OrderCanFail(p: seq<HeyEvent>) returns (states: seq<System>, actions: seq<Action>)
    requires AllValid(p) && Distinct(Ids(p)) && Interleaved(p)
    ensures Run(states, actions) && Taken(actions) == p && forall a :: a in actions ==> Smooth(a)
    ensures Fixed(states, actions) && !InOrder(states[|actions|], actions, p[0].threadId)
  {
    var t := p[0].threadId;
    var start := Empty().(pending := p);
    actions := Arrivals(p) + Reordering();
    Arrive(p);
    assert Idle(start);
    var last := OneDrainReorders(start, p);
    ExecConcat(Empty(), Arrivals(p), Reordering());
    ReorderingIsSmooth(p);
    TakenQuiet(Arrivals(p), Reordering());
    states := ExecIsRun(actions);
    forall i | 0 <= i < |actions| ensures Steady(states[i], actions[i]) {
      assert actions[i] in actions && Smooth(actions[i]);
    }
    assert last.replies == [Reply(p[0], true)] + [Reply(p[3], true)];
    Swapped(p);
    OrderExact(states, actions, t);
  }

  // ---------------------------------------------------------------- a completion that fails

  /** A drain and a job for the one event pending, on a quiet host. */
  function OneRoundActions(e: HeyEvent, completion: Completion): seq<Action> {
    PassActions([e]) + [EndDrain(0)] + JobActions(0, completion)
  }

  lemma OneRoundRuns(s: System, e: HeyEvent, completion: Completion) returns (s': System)
    requires Idle(s) && s.pending == [e]
    ensures Exec(s, OneRoundActions(e, completion)) == Some(s') && Idle(s')
    ensures s'.replies == s.replies + [Reply(e, completion.Kept())]
    ensures s'.pending == if completion.Kept() then [] else [e]
  {
    assert s.pending[..1] == [e];
    var m := PassRuns(s, 1);
    var m1 := Step(m, EndDrain(0));
    StepKeepsInv(m, EndDrain(0));
    ExecSnoc(s, PassActions([e]), EndDrain(0));
    HeadsOfOne(e);
    assert m1.drains == map[] && m1.jobs == map[0 := Job(e, Running)];
    s' := JobRuns(m1, 0, completion);
    assert s'.jobs == map[];
    RemoveOnly(e);
    Joined(s, PassActions([e]) + [EndDrain(0)], JobActions(0, completion), m1, s');
  }

  lemma HeadsOfOne(e: HeyEvent)
    ensures JobsOf(Heads([e])) == map[0 := Job(e, Running)]
  {
    assert [e][..0] == [];
    assert Heads([e]) == [e];
  }

  lemma RemoveOnly(e: HeyEvent)
    ensures Remove([e], e.eventId) == []
  {
  }

  /**
   A completion whose save fails before its rename leaves a confirmed reply's event pending, and the next
   drain replies again: a run from an empty host in which one event is taken in once and replied to twice.
   */
  lemma RepliesTwice(e: HeyEvent) returns (states: seq<System>, actions: seq<Action>)
    requires e.Valid()
    ensures Run(states, actions) && Taken(actions) == [e]
    ensures states[|actions|].replies == [Reply(e, false), Reply(e, true)] && states[|actions|].pending == []
  {
    var start := Empty().(pending := [e]);
    assert [e][..0] == [] && Ids([e]) == [e.eventId];
    Arrive([e]);
    assert Idle(start);
    var first, second := OneRoundActions(e, RaisedLost), OneRoundActions(e, Returned);
    var m := OneRoundRuns(start, e, RaisedLost);
    var last := OneRoundRuns(m, e, Returned);
    Joined(start, first, second, m, last);
    Joined(Empty(), Arrivals([e]), first + second, start, last);
    actions := Arrivals([e]) + (first + second);
    RoundAccepts(e, RaisedLost);
    RoundAccepts(e, Returned);
    TakenQuiet(Arrivals([e]), first + second);
    states := ExecIsRun(actions);
    assert last.replies == [Reply(e, false)] + [Reply(e, true)];
  }

  lemma RoundAccepts(e: HeyEvent, completion: Completion)
    ensures forall a :: a in OneRoundActions(e, completion) ==> !a.Accept?
  {
    assert [e][..0] == [];
    assert PassActions([e]) == [StartDrain(0)] + [DrainStep(0, Cleared), Dispatched(0, |Heads([])|)];
  }
}
