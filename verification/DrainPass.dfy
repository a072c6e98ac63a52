/**
 One drain left alone: what it makes of every event of its snapshot, whatever it finds about each and
 whatever is claimed already, and where it stops.
 */
module DrainPass {
  import opened Wrappers
  import opened Sequences
  import opened Decimal
  import opened Events
  import opened QueueModel
  import opened Adapters
  import opened AdapterSafety
  import opened DrainRounds

  /** What the drain finds about each event. */
  type Findings = HeyEvent -> Verdict

  /** The drain goes on to the next event. */
  predicate GoesOn(verdict: Verdict) {
    verdict in {GatewayDenied, Unauthorized(Returned), Cleared}
  }

  predicate ClearedOn(v: Findings, events: seq<HeyEvent>, j: nat, t: int) {
    j < |events| && v(events[j]) == Cleared && events[j].threadId == t
  }

  /** Event `k` is the first cleared one of thread `t`, which nothing claimed before. */
  predicate Dispatches(v: Findings, events: seq<HeyEvent>, claims: Claims, k: nat, t: int) {
    t !in claims && ClearedOn(v, events, k, t) && forall j :: 0 <= j < k ==> !ClearedOn(v, events, j, t)
  }

  /** The same of the event's own thread. */
  predicate Engages(v: Findings, events: seq<HeyEvent>, claims: Claims, k: nat) {
    k < |events| && Dispatches(v, events, claims, k, events[k].threadId)
  }

  /** The events whose senders are authorized. */
  function Authorized(v: Findings, events: seq<HeyEvent>): seq<HeyEvent> {
    if events == [] then []
    else
      var n := |events| - 1;
      Authorized(v, events[..n]) + if v(events[n]).Unauthorized? then [] else [events[n]]
  }

  /** The identities of the others. */
  function Unwanted(v: Findings, events: seq<HeyEvent>): seq<string> {
    if events == [] then []
    else
      var n := |events| - 1;
      Unwanted(v, events[..n]) + if v(events[n]).Unauthorized? then [events[n].eventId] else []
  }

  /** A thread is claimed after `i` events if it was before, or if one of them was dispatched on it. */
  ghost predicate ClaimsLeft(v: Findings, events: seq<HeyEvent>, claims: Claims, i: nat, left: Claims) {
    && (forall t :: t in claims ==> t in left && left[t] == claims[t])
    && (forall t :: t !in claims && t in left ==> ClaimedBy(v, events, claims, i, t, left[t]))
    && (forall k: nat, t :: k < i && Dispatches(v, events, claims, k, t) ==> t in left)
  }

  ghost predicate ClaimedBy(v: Findings, events: seq<HeyEvent>, claims: Claims, i: nat, t: int, id: string) {
    exists k: nat :: k < i && Dispatches(v, events, claims, k, t) && events[k].eventId == id
  }

  /** The jobs after `i` events: the earlier ones, and one for each event dispatched, numbered by its position. */
  ghost predicate JobsLeft(v: Findings, events: seq<HeyEvent>, claims: Claims, jobs: map<nat, Job>, base: nat, i: nat,
          left: map<nat, Job>)
  {
    && (forall j :: j in jobs ==> j in left && left[j] == jobs[j])
    && (forall j :: j in left && j !in jobs ==> base <= j < base + i && Engages(v, events, claims, j - base))
    && (forall j :: base <= j < base + i && Engages(v, events, claims, j - base) ==>
          j in left && left[j] == Job(events[j - base], Running))
  }

  /** Everything but the drains after `i` events. */
  ghost predicate Leaves(s: System, v: Findings, base: nat, i: nat, m: System) {
    && i <= |s.pending|
    && m.pending == Authorized(v, s.pending[..i]) + s.pending[i..]
    && m.dropped == s.dropped + Unwanted(v, s.pending[..i])
    && ClaimsLeft(v, s.pending, s.claims, i, m.claims) && JobsLeft(v, s.pending, s.claims, s.jobs, base, i, m.jobs)
    && m.calls == s.calls && m.replies == s.replies
  }

  /** The drain stands before event `i`. */
  ghost predicate Before(s: System, d: nat, v: Findings, base: nat, i: nat, m: System) {
    Leaves(s, v, base, i, m) && m.drains == s.drains[d := Drain(s.pending, i, false)]
  }

  /** Nothing stands in the drain's way, and job numbers from `base` on are free. */
  ghost predicate Alone(s: System, d: nat, base: nat) {
    Inv(s) && d !in s.drains && forall j :: j in s.jobs ==> j < base
  }

  /**
   Nothing is assumed of the environment: a drain may find anything about an event, a dispatch fail, a
   mutation end in any way, a job end at any point, and the host die and find any proper queue.
   */
  lemma EnvironmentFree(s: System, d: nat, verdict: Verdict, j: nat, outcome: Outcome, queue: seq<HeyEvent>,
          e: HeyEvent)
    ensures Adapters.Current(s, d) ==>
              if s.drains[d].dispatching then Enabled(s, DispatchFails(d)) else Enabled(s, DrainStep(d, verdict))
    ensures if d !in s.drains then Enabled(s, StartDrain(d)) else !s.drains[d].dispatching ==> Enabled(s, EndDrain(d))
    ensures j in s.jobs && s.jobs[j].phase.Calling? ==> Enabled(s, Returns(j, outcome))
    ensures j in s.jobs ==> Enabled(s, EndJob(j))
    ensures AllValid(queue) && Distinct(Ids(queue)) ==> Enabled(s, Restart(queue))
    ensures e.Valid() && e.eventId !in Ids(s.pending) ==> Enabled(s, Accept(e))
  {
  }

  // ---------------------------------------------------------------- claims and jobs

  /** If an event's thread was free, some event up to it is dispatched. */
  lemma {:induction false} SomeDispatched(v: Findings, events: seq<HeyEvent>, claims: Claims, k: nat, t: int)
    returns (first: nat)
    requires t !in claims && ClearedOn(v, events, k, t)
    ensures first <= k && Dispatches(v, events, claims, first, t)
  {
    if j: nat :| j < k && ClearedOn(v, events, j, t) {
      first := SomeDispatched(v, events, claims, j, t);
    } else {
      first := k;
    }
  }

  lemma ThreadFree(v: Findings, events: seq<HeyEvent>, claims: Claims, i: nat, left: Claims, t: int)
    requires ClaimsLeft(v, events, claims, i, left) && ClearedOn(v, events, i, t)
    ensures Dispatches(v, events, claims, i, t) <==> t !in left
  {
    if t !in left && exists j :: 0 <= j < i && ClearedOn(v, events, j, t) {
      var j :| 0 <= j < i && ClearedOn(v, events, j, t);
      var first := SomeDispatched(v, events, claims, j, t);
    }
    if t in left && t !in claims {
      assert ClaimedBy(v, events, claims, i, t, left[t]);
    }
  }

  lemma ClaimsSame(v: Findings, events: seq<HeyEvent>, claims: Claims, i: nat, left: Claims)
    requires ClaimsLeft(v, events, claims, i, left) && forall t :: !Dispatches(v, events, claims, i, t)
    ensures ClaimsLeft(v, events, claims, i + 1, left)
  {
    forall t | t !in claims && t in left ensures ClaimedBy(v, events, claims, i + 1, t, left[t]) {
      assert ClaimedBy(v, events, claims, i, t, left[t]);
    }
  }

  lemma ClaimsMore(v: Findings, events: seq<HeyEvent>, claims: Claims, i: nat, left: Claims, t: int)
    requires ClaimsLeft(v, events, claims, i, left) && Dispatches(v, events, claims, i, t) && t !in left
    ensures ClaimsLeft(v, events, claims, i + 1, left[t := events[i].eventId])
  {
    var left' := left[t := events[i].eventId];
    forall u | u !in claims && u in left' ensures ClaimedBy(v, events, claims, i + 1, u, left'[u]) {
      assert u != t ==> ClaimedBy(v, events, claims, i, u, left[u]);
    }
    forall k: nat, u | k < i + 1 && Dispatches(v, events, claims, k, u) ensures u in left' {
      assert k == i ==> events[i].threadId == u == t;
    }
  }

  lemma JobsSame(v: Findings, events: seq<HeyEvent>, claims: Claims, jobs: map<nat, Job>, base: nat, i: nat,
          left: map<nat, Job>)
    requires JobsLeft(v, events, claims, jobs, base, i, left) && !Engages(v, events, claims, i)
    ensures JobsLeft(v, events, claims, jobs, base, i + 1, left)
  {
  }

  lemma JobsMore(v: Findings, events: seq<HeyEvent>, claims: Claims, jobs: map<nat, Job>, base: nat, i: nat,
          left: map<nat, Job>)
    requires JobsLeft(v, events, claims, jobs, base, i, left) && Engages(v, events, claims, i)
    requires forall j :: j in jobs ==> j < base
    ensures base + i !in left
    ensures JobsLeft(v, events, claims, jobs, base, i + 1, left[base + i := Job(events[i], Running)])
  {
  }

  // ---------------------------------------------------------------- one event

  lemma AuthorizedSnoc(v: Findings, events: seq<HeyEvent>, i: nat)
    requires i < |events|
    ensures Authorized(v, events[..i + 1]) ==
            Authorized(v, events[..i]) + if v(events[i]).Unauthorized? then [] else [events[i]]
    ensures Unwanted(v, events[..i + 1]) ==
            Unwanted(v, events[..i]) + if v(events[i]).Unauthorized? then [events[i].eventId] else []
  {
    assert events[..i + 1][..i] == events[..i];
  }

  /** The queue `a` followed by the rest, with event `i` at hand. */
  lemma QueueAt(events: seq<HeyEvent>, i: nat, a: seq<HeyEvent>)
    requires i < |events| && Distinct(Ids(a + events[i..]))
    ensures events[i].eventId in Ids(a + events[i..])
    ensures Remove(a + events[i..], events[i].eventId) == a + events[i + 1..]
  {
    var queue := a + events[i..];
    assert queue[|a|] == events[i] && Ids(queue)[|a|] == events[i].eventId;
    RemoveAt(queue, |a|);
    assert queue[..|a|] == a && queue[|a| + 1..] == events[i + 1..];
  }

  /** An iteration that goes on without a dispatch. */
  lemma PassedStep(m: System, d: nat, verdict: Verdict, queue: seq<HeyEvent>, dropped: seq<string>,
          drains: map<nat, Drain>)
    requires Adapters.Current(m, d) && !m.drains[d].dispatching && GoesOn(verdict) && At(m, d).eventId in Ids(m.pending)
    requires verdict == Cleared ==> At(m, d).threadId in m.claims
    requires queue == if verdict.Unauthorized? then Remove(m.pending, At(m, d).eventId) else m.pending
    requires dropped == if verdict.Unauthorized? then m.dropped + [At(m, d).eventId] else m.dropped
    requires drains == m.drains[d := m.drains[d].(next := m.drains[d].next + 1, dispatching := false)]
    ensures Enabled(m, DrainStep(d, verdict))
    ensures Step(m, DrainStep(d, verdict)) == m.(drains := drains, pending := queue, dropped := dropped)
  {
    if verdict.Unauthorized? {
      DroppedStep(m, d, drains);
    } else {
      SkippedStep(m, d, verdict, drains);
    }
  }

  lemma DroppedStep(m: System, d: nat, drains: map<nat, Drain>)
    requires Adapters.Current(m, d) && At(m, d).eventId in Ids(m.pending)
    requires drains == m.drains[d := m.drains[d].(next := m.drains[d].next + 1, dispatching := false)]
    ensures Drained(m, d, Unauthorized(Returned)) ==
            m.(drains := drains, pending := Remove(m.pending, At(m, d).eventId),
               dropped := m.dropped + [At(m, d).eventId])
  {
  }

  lemma SkippedStep(m: System, d: nat, verdict: Verdict, drains: map<nat, Drain>)
    requires Adapters.Current(m, d) && verdict in {GatewayDenied, Cleared}
    requires verdict == Cleared ==> At(m, d).threadId in m.claims
    requires drains == m.drains[d := m.drains[d].(next := m.drains[d].next + 1, dispatching := false)]
    ensures Drained(m, d, verdict) == m.(drains := drains)
  {
  }

  lemma QueueOver(v: Findings, events: seq<HeyEvent>, i: nat, dropped: seq<string>)
    requires i < |events| && Distinct(Ids(Authorized(v, events[..i]) + events[i..]))
    ensures var e, queue := events[i], Authorized(v, events[..i]) + events[i..];
            var gone, ids := v(e).Unauthorized?, dropped + Unwanted(v, events[..i]);
            && e.eventId in Ids(queue)
            && (if gone then Remove(queue, e.eventId) else queue) == Authorized(v, events[..i + 1]) + events[i + 1..]
            && (if gone then ids + [e.eventId] else ids) == dropped + Unwanted(v, events[..i + 1])
  {
    QueueAt(events, i, Authorized(v, events[..i]));
    AuthorizedSnoc(v, events, i);
    MoveOver(Authorized(v, events[..i]), events, i);
    MoveNone(Authorized(v, events[..i]));
    MoveNone(Unwanted(v, events[..i]));
    Regrouped(dropped, Unwanted(v, events[..i]), [events[i].eventId]);
  }

  lemma MoveOver(kept: seq<HeyEvent>, events: seq<HeyEvent>, i: nat)
    requires i < |events|
    ensures kept + events[i..] == (kept + [events[i]]) + events[i + 1..]
  {
  }

  lemma MoveNone<T>(s: seq<T>)
    ensures s + [] == s
  {
  }

  lemma Regrouped<T>(a: seq<T>, b: seq<T>, c: seq<T>)
    ensures (a + b) + c == a + (b + c)
  {
  }

  /** The queue, the drops and the drain after an event is passed over. */
  lemma OverEffect(s: System, d: nat, v: Findings, i: nat, m: System, queue: seq<HeyEvent>, dropped: seq<string>)
    requires i < |s.pending| && GoesOn(v(s.pending[i])) && m.drains == s.drains[d := Drain(s.pending, i, false)]
    requires v(s.pending[i]) == Cleared ==> s.pending[i].threadId in m.claims
    requires s.pending[i].eventId in Ids(m.pending)
    requires queue == if v(s.pending[i]).Unauthorized? then Remove(m.pending, s.pending[i].eventId) else m.pending
    requires dropped == if v(s.pending[i]).Unauthorized? then m.dropped + [s.pending[i].eventId] else m.dropped
    ensures var a := DrainStep(d, v(s.pending[i]));
            && Enabled(m, a)
            && Step(m, a) ==
               m.(drains := s.drains[d := Drain(s.pending, i + 1, false)], pending := queue, dropped := dropped)
  {
    PutAgain(m.drains, s.drains, d, Drain(s.pending, i, false), Drain(s.pending, i + 1, false));
    PassedStep(m, d, v(s.pending[i]), queue, dropped, s.drains[d := Drain(s.pending, i + 1, false)]);
  }

  lemma PutAgain<K, V>(a: map<K, V>, b: map<K, V>, k: K, before: V, after: V)
    requires a == b[k := before]
    ensures k in a && a[k] == before && a[k := after] == b[k := after]
  {
  }

  /** Passing an event over: the gateway denies it, its sender is not authorized, or its thread is claimed. */
  lemma PassesOver(s: System, d: nat, v: Findings, base: nat, i: nat, m: System)
    requires Before(s, d, v, base, i, m) && Distinct(Ids(m.pending)) && i < |s.pending| && GoesOn(v(s.pending[i]))
    requires !Engages(v, s.pending, s.claims, i)
    ensures var a := DrainStep(d, v(s.pending[i]));
            Enabled(m, a) && Before(s, d, v, base, i + 1, Step(m, a))
  {
    var e := s.pending[i];
    if v(e) == Cleared {
      ThreadFree(v, s.pending, s.claims, i, m.claims, e.threadId);
    }
    QueueOver(v, s.pending, i, s.dropped);
    OverEffect(s, d, v, i, m, Authorized(v, s.pending[..i + 1]) + s.pending[i + 1..],
      s.dropped + Unwanted(v, s.pending[..i + 1]));
    ClaimsSame(v, s.pending, s.claims, i, m.claims);
    JobsSame(v, s.pending, s.claims, s.jobs, base, i, m.jobs);
    NowBefore(s, d, v, base, i, m, Step(m, DrainStep(d, v(e))));
  }

  lemma NowBefore(s: System, d: nat, v: Findings, base: nat, i: nat, m: System, m': System)
    requires Before(s, d, v, base, i, m) && i < |s.pending|
    requires m' == m.(
               drains := s.drains[d := Drain(s.pending, i + 1, false)],
               pending := Authorized(v, s.pending[..i + 1]) + s.pending[i + 1..],
               dropped := s.dropped + Unwanted(v, s.pending[..i + 1]), claims := m'.claims, jobs := m'.jobs)
    requires ClaimsLeft(v, s.pending, s.claims, i + 1, m'.claims)
    requires JobsLeft(v, s.pending, s.claims, s.jobs, base, i + 1, m'.jobs)
    ensures Before(s, d, v, base, i + 1, m')
  {
  }

  /** The claim and the dispatch. */
  lemma DispatchSteps(m: System, d: nat, j: nat)
    requires Adapters.Current(m, d) && !m.drains[d].dispatching && At(m, d).threadId !in m.claims && j !in m.jobs
    ensures Enabled(m, DrainStep(d, Cleared)) && Enabled(Step(m, DrainStep(d, Cleared)), Dispatched(d, j))
    ensures var e, on := At(m, d), m.drains[d].(next := m.drains[d].next + 1, dispatching := false);
            Step(Step(m, DrainStep(d, Cleared)), Dispatched(d, j)) == m.(
              drains := m.drains[d := on], claims := m.claims[e.threadId := e.eventId],
              jobs := m.jobs[j := Job(e, Running)])
  {
    var m1 := Step(m, DrainStep(d, Cleared));
    var on := m.drains[d].(next := m.drains[d].next + 1, dispatching := false);
    assert m1.drains[d := on] == m.drains[d := on];
  }

  /** The host after that. */
  lemma DispatchEffect(s: System, d: nat, v: Findings, i: nat, m: System, j: nat)
    requires i < |s.pending| && v(s.pending[i]) == Cleared && s.pending[i].threadId !in m.claims && j !in m.jobs
    requires m.pending == Authorized(v, s.pending[..i]) + s.pending[i..]
    requires m.dropped == s.dropped + Unwanted(v, s.pending[..i])
    requires m.drains == s.drains[d := Drain(s.pending, i, false)]
    ensures var a, b, e := DrainStep(d, Cleared), Dispatched(d, j), s.pending[i];
            && Enabled(m, a) && Enabled(Step(m, a), b)
            && Step(Step(m, a), b) == m.(
              drains := s.drains[d := Drain(s.pending, i + 1, false)],
              pending := Authorized(v, s.pending[..i + 1]) + s.pending[i + 1..],
              dropped := s.dropped + Unwanted(v, s.pending[..i + 1]),
              claims := m.claims[e.threadId := e.eventId], jobs := m.jobs[j := Job(e, Running)])
  {
    var e, kept := s.pending[i], Authorized(v, s.pending[..i]);
    AuthorizedSnoc(v, s.pending, i);
    DispatchSteps(m, d, j);
    assert kept + s.pending[i..] == kept + [e] + s.pending[i + 1..];
    assert m.dropped + [] == m.dropped;
  }

  /** Claiming a thread and dispatching to it. */
  lemma DispatchesIt(s: System, d: nat, v: Findings, base: nat, i: nat, m: System)
    requires Before(s, d, v, base, i, m) && i < |s.pending| && Engages(v, s.pending, s.claims, i)
    requires forall j :: j in s.jobs ==> j < base
    ensures var a, b := DrainStep(d, v(s.pending[i])), Dispatched(d, base + i);
            && Enabled(m, a) && Enabled(Step(m, a), b) && Before(s, d, v, base, i + 1, Step(Step(m, a), b))
  {
    var e := s.pending[i];
    ThreadFree(v, s.pending, s.claims, i, m.claims, e.threadId);
    JobsMore(v, s.pending, s.claims, s.jobs, base, i, m.jobs);
    DispatchEffect(s, d, v, i, m, base + i);
    ClaimsMore(v, s.pending, s.claims, i, m.claims, e.threadId);
    NowBefore(s, d, v, base, i, m, Step(Step(m, DrainStep(d, Cleared)), Dispatched(d, base + i)));
  }

  // ---------------------------------------------------------------- the pass

  /** The steps of the drain over the first `i` events. */
  function PassSteps(s: System, d: nat, v: Findings, base: nat, i: nat): seq<Action>
    requires i <= |s.pending|
  {
    if i == 0 then [StartDrain(d)]
    else
      var a := DrainStep(d, v(s.pending[i - 1]));
      PassSteps(s, d, v, base, i - 1)
      + if Engages(v, s.pending, s.claims, i - 1) then [a, Dispatched(d, base + i - 1)] else [a]
  }

  lemma PassBegins(s: System, d: nat, v: Findings, base: nat) returns (m: System)
    requires d !in s.drains
    ensures Exec(s, [StartDrain(d)]) == Some(m) && Before(s, d, v, base, 0, m)
  {
    m := Step(s, StartDrain(d));
    ExecSnoc(s, [], StartDrain(d));
    assert [] + [StartDrain(d)] == [StartDrain(d)];
    assert Authorized(v, s.pending[..0]) + s.pending[0..] == s.pending;
  }

  lemma ExecKeepsInv(m: System, a: Action)
    requires Inv(m) && Enabled(m, a)
    ensures Inv(Step(m, a))
  {
    StepKeepsInv(m, a);
  }

  lemma InvDistinct(m: System)
    requires Inv(m)
    ensures Distinct(Ids(m.pending))
  {
  }

  lemma PassOneMore(s: System, d: nat, v: Findings, base: nat, i: nat, m: System) returns (m': System)
    requires i < |s.pending| && (forall j :: j in s.jobs ==> j < base) && GoesOn(v(s.pending[i]))
    requires Exec(s, PassSteps(s, d, v, base, i)) == Some(m) && Inv(m) && Before(s, d, v, base, i, m)
    ensures Exec(s, PassSteps(s, d, v, base, i + 1)) == Some(m') && Inv(m') && Before(s, d, v, base, i + 1, m')
  {
    var before, a := PassSteps(s, d, v, base, i), DrainStep(d, v(s.pending[i]));
    InvDistinct(m);
    if Engages(v, s.pending, s.claims, i) {
      var b := Dispatched(d, base + i);
      DispatchesIt(s, d, v, base, i, m);
      ExecTwo(s, before, m, a, Step(m, a), b);
      ExecKeepsInv(m, a);
      ExecKeepsInv(Step(m, a), b);
      m' := Step(Step(m, a), b);
    } else {
      PassesOver(s, d, v, base, i, m);
      ExecSnoc(s, before, a);
      ExecKeepsInv(m, a);
      m' := Step(m, a);
    }
  }

  lemma {:induction false} PassReaches(s: System, d: nat, v: Findings, base: nat, i: nat) returns (m: System)
    requires Alone(s, d, base) && i <= |s.pending|
    requires forall k :: 0 <= k < i ==> GoesOn(v(s.pending[k]))
    ensures Exec(s, PassSteps(s, d, v, base, i)) == Some(m) && Inv(m) && Before(s, d, v, base, i, m)
  {
    if i == 0 {
      m := PassBegins(s, d, v, base);
      ExecKeepsInv(s, StartDrain(d));
      ExecSnoc(s, [], StartDrain(d));
      assert [] + [StartDrain(d)] == [StartDrain(d)];
    } else {
      m := PassReaches(s, d, v, base, i - 1);
      m := PassOneMore(s, d, v, base, i - 1, m);
    }
  }

  lemma DrainEnds(s: System, d: nat, m: System)
    requires d !in s.drains && d in m.drains && m.drains == s.drains[d := m.drains[d]] && !m.drains[d].dispatching
    ensures Enabled(m, EndDrain(d)) && Step(m, EndDrain(d)) == m.(drains := s.drains)
  {
    assert m.drains - {d} == s.drains;
  }

  /**
   A drain that nothing stops, left alone, from any reachable state of the host: it drops exactly the events of
   senders who are not authorized, and dispatches exactly the first cleared event of each thread that was not
   claimed; the rest of the host stays as it was.
   */
  lemma DrainAlone(s: System, d: nat, v: Findings, base: nat) returns (m: System)
    requires Alone(s, d, base) && forall e :: e in s.pending ==> GoesOn(v(e))
    ensures Exec(s, PassSteps(s, d, v, base, |s.pending|) + [EndDrain(d)]) == Some(m)
    ensures Leaves(s, v, base, |s.pending|, m) && m.drains == s.drains
  {
    var m0 := PassReaches(s, d, v, base, |s.pending|);
    DrainEnds(s, d, m0);
    ExecSnoc(s, PassSteps(s, d, v, base, |s.pending|), EndDrain(d));
    m := Step(m0, EndDrain(d));
  }

  lemma StopStep(m: System, d: nat, verdict: Verdict)
    requires Adapters.Current(m, d) && !m.drains[d].dispatching && !GoesOn(verdict)
    requires At(m, d).eventId in Ids(m.pending)
    ensures Enabled(m, DrainStep(d, verdict))
    ensures var id, gone := At(m, d).eventId, verdict == Unauthorized(RaisedKept);
            Step(m, DrainStep(d, verdict)) == m.(
              drains := m.drains - {d}, pending := if gone then Remove(m.pending, id) else m.pending,
              dropped := if gone then m.dropped + [id] else m.dropped)
  {
  }

  /** A dispatch that fails frees the thread again and ends the drain. */
  lemma FailStep(m: System, d: nat)
    requires Adapters.Current(m, d) && !m.drains[d].dispatching && At(m, d).threadId !in m.claims
    requires Released(m.claims[At(m, d).threadId := At(m, d).eventId], At(m, d).eventId) == m.claims
    ensures Enabled(m, DrainStep(d, Cleared)) && Enabled(Step(m, DrainStep(d, Cleared)), DispatchFails(d))
    ensures Step(Step(m, DrainStep(d, Cleared)), DispatchFails(d)) == m.(drains := m.drains - {d})
  {
    var m1 := Step(m, DrainStep(d, Cleared));
    assert m1.drains - {d} == m.drains - {d};
  }

  /** In a proper host, a claim made and released leaves the claims as they were. */
  lemma ClaimUndone(m: System, d: nat)
    requires Inv(m) && Adapters.Current(m, d) && !m.drains[d].dispatching && At(m, d).threadId !in m.claims
    ensures Released(m.claims[At(m, d).threadId := At(m, d).eventId], At(m, d).eventId) == m.claims
  {
    var m1 := Step(m, DrainStep(d, Cleared));
    StepKeepsInv(m, DrainStep(d, Cleared));
    assert Enabled(m, DrainStep(d, Cleared)) && At(m, d).Valid();
    ReleaseIsLocal(m1, At(m, d));
  }

  /**
   A drain whose dispatch of event `i` fails stops there: the thread is free again, the event stays, and what
   comes after it is left alone.
   */
  lemma DispatchStops(s: System, d: nat, v: Findings, base: nat, i: nat) returns (m: System)
    requires Alone(s, d, base) && i < |s.pending| && Engages(v, s.pending, s.claims, i)
    requires forall k :: 0 <= k < i ==> GoesOn(v(s.pending[k]))
    ensures Exec(s, PassSteps(s, d, v, base, i) + [DrainStep(d, Cleared), DispatchFails(d)]) == Some(m)
    ensures Leaves(s, v, base, i, m) && m.drains == s.drains
  {
    var m0 := PassReaches(s, d, v, base, i);
    ThreadAtHand(s, d, v, base, i, m0);
    ClaimUndone(m0, d);
    FailStep(m0, d);
    ExecTwo(s, PassSteps(s, d, v, base, i), m0, DrainStep(d, Cleared), Step(m0, DrainStep(d, Cleared)),
      DispatchFails(d));
    m := m0.(drains := s.drains);
  }

  lemma ThreadAtHand(s: System, d: nat, v: Findings, base: nat, i: nat, m: System)
    requires Before(s, d, v, base, i, m) && d !in s.drains && i < |s.pending| && Engages(v, s.pending, s.claims, i)
    ensures Adapters.Current(m, d) && !m.drains[d].dispatching && At(m, d).threadId !in m.claims
    ensures m.drains - {d} == s.drains
  {
    ThreadFree(v, s.pending, s.claims, i, m.claims, s.pending[i].threadId);
  }

  /**
   A drain that event `i` stops, for its account or because dropping it raises: the events before it are
   treated as in a full pass, those after it are left alone, and the event itself leaves the queue only if
   the drop reached the file.
   */
  lemma DrainStops(s: System, d: nat, v: Findings, base: nat, i: nat) returns (m: System)
    requires Alone(s, d, base) && i < |s.pending| && !GoesOn(v(s.pending[i]))
    requires forall k :: 0 <= k < i ==> GoesOn(v(s.pending[k]))
    ensures Exec(s, PassSteps(s, d, v, base, i) + [DrainStep(d, v(s.pending[i]))]) == Some(m)
    ensures ClaimsLeft(v, s.pending, s.claims, i, m.claims)
    ensures JobsLeft(v, s.pending, s.claims, s.jobs, base, i, m.jobs)
    ensures var kept, id := Authorized(v, s.pending[..i]), s.pending[i].eventId;
            var gone := v(s.pending[i]) == Unauthorized(RaisedKept);
            && m.drains == s.drains && m.calls == s.calls && m.replies == s.replies
            && m.pending == kept + s.pending[if gone then i + 1 else i..]
            && m.dropped == s.dropped + Unwanted(v, s.pending[..i]) + if gone then [id] else []
  {
    var a := DrainStep(d, v(s.pending[i]));
    var m0 := PassReaches(s, d, v, base, i);
    InvDistinct(m0);
    StopEffect(s, d, v, i, m0);
    ExecSnoc(s, PassSteps(s, d, v, base, i), a);
    m := Step(m0, a);
  }

  lemma StopEffect(s: System, d: nat, v: Findings, i: nat, m: System)
    requires i < |s.pending| && Distinct(Ids(m.pending)) && !GoesOn(v(s.pending[i])) && d !in s.drains
    requires m.pending == Authorized(v, s.pending[..i]) + s.pending[i..]
    requires m.drains == s.drains[d := Drain(s.pending, i, false)]
    ensures var a, id, gone := DrainStep(d, v(s.pending[i])), s.pending[i].eventId,
                               v(s.pending[i]) == Unauthorized(RaisedKept);
            && Enabled(m, a)
            && Step(m, a) == m.(
              drains := s.drains, pending := Authorized(v, s.pending[..i]) + s.pending[if gone then i + 1 else i..],
              dropped := m.dropped + if gone then [id] else [])
  {
    QueueAt(s.pending, i, Authorized(v, s.pending[..i]));
    StopStep(m, d, v(s.pending[i]));
    assert m.drains - {d} == s.drains && m.dropped + [] == m.dropped;
  }
}
