/**
 Which drain follows which step, and what that leaves pending: an event still pending in a host at rest
 was let down by a step after which no drain was started.
 */
module DrainDuty {
  import opened Wrappers
  import opened Sequences
  import opened Decimal
  import opened Events
  import opened QueueModel
  import opened Adapters
  import opened AdapterSafety

  /** `due` counts the drains that are still to start: each step that calls for one adds to it. */
  datatype Watch = Watch(host: System, due: nat)

  datatype Act =
    | Host(a: Action)
    | Forgo   // a drain that is due does not come: the ack before it fails, its task is cancelled, no adapter is live

  /** The job's event is no longer pending. */
  predicate Settled(s: System, j: nat)
    requires j in s.jobs
  {
    s.jobs[j].event.eventId !in Ids(s.pending)
  }

  /** An accepted event calls for a drain, and so does a job that ends with its event gone, and a start of the host. */
  ghost function DueAfter(w: Watch, a: Action): nat
    requires Enabled(w.host, a)
  {
    match a
    case Accept(_) => w.due + 1
    case EndJob(j) => if Settled(w.host, j) then w.due + 1 else w.due
    case Restart(_) => 1
    case StartDrain(_) => if w.due > 0 then w.due - 1 else 0
    case _ => w.due
  }

  ghost predicate Next(w: Watch, act: Act, w': Watch) {
    match act
    case Host(a) => Enabled(w.host, a) && w' == Watch(Step(w.host, a), DueAfter(w, a))
    case Forgo => w.due > 0 && w' == w.(due := w.due - 1)
  }

  ghost predicate Run(states: seq<Watch>, acts: seq<Act>) {
    && |states| == |acts| + 1 && states[0] == Watch(Empty(), 0)
    && forall i :: 0 <= i < |acts| ==> Next(states[i], acts[i], states[i + 1])
  }

  lemma {:induction false} RunInv(states: seq<Watch>, acts: seq<Act>, n: nat)
    requires Run(states, acts) && n <= |acts|
    ensures Inv(states[n].host)
  {
    if n > 0 {
      RunInv(states, acts, n - 1);
      if acts[n - 1].Host? {
        StepKeepsInv(states[n - 1].host, acts[n - 1].a);
      }
    }
  }

  // ---------------------------------------------------------------- who is looked after

  /** The drain has the event before it, or at hand. */
  predicate Ahead(s: System, d: nat, e: HeyEvent) {
    d in s.drains && s.drains[d].next <= |s.drains[d].snapshot| && e in s.drains[d].snapshot[s.drains[d].next..]
  }

  /** A drain is due or will come to the event, or its thread is claimed. */
  ghost predicate LookedAfter(w: Watch, e: HeyEvent) {
    w.due > 0 || e.threadId in w.host.claims || exists d :: Ahead(w.host, d, e)
  }

  /** The step ends a drain, a dispatch or a job without a further one, and the event was counting on it. */
  ghost predicate LetsDown(w: Watch, act: Act, e: HeyEvent) {
    match act
    case Forgo => w.due == 1
    case Host(DrainStep(d, verdict)) =>
      match verdict {
        case Cleared => false
        case GatewayDenied => Current(w.host, d) && e == At(w.host, d)
        case WrongAccount => Ahead(w.host, d, e)
        case Unauthorized(completion) => completion != Returned && Ahead(w.host, d, e)
      }
    case Host(DispatchFails(d)) => Current(w.host, d) && (Ahead(w.host, d, e) || e.threadId == At(w.host, d).threadId)
    case Host(EndDrain(d)) => Ahead(w.host, d, e)
    case Host(EndJob(j)) => j in w.host.jobs && !Settled(w.host, j) && e.threadId == w.host.jobs[j].event.threadId
    case _ => false
  }

  /** A drain that goes on keeps what it has ahead, but for the event it leaves behind. */
  lemma AheadStays(s: System, s': System, d: nat, e: HeyEvent)
    requires Ahead(s, d, e) && d in s'.drains && s'.drains[d].snapshot == s.drains[d].snapshot
    requires || s'.drains[d].next == s.drains[d].next
             || (Current(s, d) && s'.drains[d].next == s.drains[d].next + 1 && At(s, d) != e)
    ensures Ahead(s', d, e)
  {
    var snapshot, next := s.drains[d].snapshot, s.drains[d].next;
    var i :| 0 <= i < |snapshot[next..]| && snapshot[next..][i] == e;
    assert snapshot[next + i] == e;
    var next' := s'.drains[d].next;
    assert snapshot[next'..][next + i - next'] == e;
  }

  /** A drain that starts has everything pending ahead. */
  lemma StartLooksAfter(w: Watch, d: nat, e: HeyEvent)
    requires Enabled(w.host, StartDrain(d)) && e in w.host.pending
    ensures LookedAfter(Watch(Step(w.host, StartDrain(d)), DueAfter(w, StartDrain(d))), e)
  {
    var s' := Step(w.host, StartDrain(d));
    assert s'.drains[d].snapshot[0..] == w.host.pending;
    assert Ahead(s', d, e);
  }

  /** A job that ends releases its own thread only; if its event is gone, a drain is due. */
  lemma EndJobLooksAfter(w: Watch, j: nat, e: HeyEvent)
    requires Inv(w.host) && Enabled(w.host, EndJob(j)) && LookedAfter(w, e) && !LetsDown(w, Host(EndJob(j)), e)
    ensures LookedAfter(Watch(Step(w.host, EndJob(j)), DueAfter(w, EndJob(j))), e)
  {
    var s' := Step(w.host, EndJob(j));
    if !Settled(w.host, j) && w.due == 0 {
      assert JobHolds(w.host, j);
      ReleaseIsLocal(w.host, w.host.jobs[j].event);
      if e.threadId !in w.host.claims {
        var d :| Ahead(w.host, d, e);
        AheadStays(w.host, s', d, e);
      }
    }
  }

  lemma DispatchFailsLooksAfter(w: Watch, d: nat, e: HeyEvent)
    requires Inv(w.host) && Enabled(w.host, DispatchFails(d)) && LookedAfter(w, e)
    requires !LetsDown(w, Host(DispatchFails(d)), e)
    ensures LookedAfter(Watch(Step(w.host, DispatchFails(d)), DueAfter(w, DispatchFails(d))), e)
  {
    var s' := Step(w.host, DispatchFails(d));
    if w.due == 0 {
      assert DrainHolds(w.host, d) && At(w.host, d) == w.host.drains[d].snapshot[w.host.drains[d].next];
      ReleaseIsLocal(w.host, At(w.host, d));
      if e.threadId !in w.host.claims {
        var k :| Ahead(w.host, k, e);
        AheadStays(w.host, s', k, e);
      }
    }
  }

  /** An iteration that goes on to the next event, or dispatches this one. */
  lemma AdvanceLooksAfter(w: Watch, d: nat, verdict: Verdict, e: HeyEvent)
    requires Enabled(w.host, DrainStep(d, verdict)) && LookedAfter(w, e)
    requires verdict == Cleared || (verdict in {GatewayDenied, Unauthorized(Returned)} && e != At(w.host, d))
    ensures LookedAfter(Watch(Step(w.host, DrainStep(d, verdict)), w.due), e)
  {
    var s, s' := w.host, Step(w.host, DrainStep(d, verdict));
    if w.due == 0 && e.threadId !in s'.claims {
      assert e != At(s, d) && e.threadId !in s.claims;
      var k :| Ahead(s, k, e);
      AheadStays(s, s', k, e);
    }
  }

  /** An iteration that ends the drain. */
  lemma BreakLooksAfter(w: Watch, d: nat, verdict: Verdict, e: HeyEvent)
    requires Enabled(w.host, DrainStep(d, verdict)) && LookedAfter(w, e) && !Ahead(w.host, d, e)
    requires verdict.WrongAccount? || (verdict.Unauthorized? && verdict.completion != Returned)
    ensures LookedAfter(Watch(Step(w.host, DrainStep(d, verdict)), w.due), e)
  {
    var s, s' := w.host, Step(w.host, DrainStep(d, verdict));
    if w.due == 0 && e.threadId !in s'.claims {
      var k :| Ahead(s, k, e);
      AheadStays(s, s', k, e);
    }
  }

  /** An iteration of a drain: what it passes over is claimed, or gone. */
  lemma DrainStepLooksAfter(w: Watch, d: nat, verdict: Verdict, e: HeyEvent)
    requires Enabled(w.host, DrainStep(d, verdict)) && LookedAfter(w, e)
    requires e in Step(w.host, DrainStep(d, verdict)).pending && !LetsDown(w, Host(DrainStep(d, verdict)), e)
    ensures LookedAfter(Watch(Step(w.host, DrainStep(d, verdict)), w.due), e)
  {
    match verdict
    case WrongAccount => BreakLooksAfter(w, d, verdict, e);
    case Unauthorized(completion) =>
      if completion == Returned {
        RemoveMembers(w.host.pending, At(w.host, d).eventId);
        AdvanceLooksAfter(w, d, verdict, e);
      } else {
        BreakLooksAfter(w, d, verdict, e);
      }
    case _ => AdvanceLooksAfter(w, d, verdict, e);
  }

  lemma DispatchedLooksAfter(w: Watch, d: nat, j: nat, e: HeyEvent)
    requires Inv(w.host) && Enabled(w.host, Dispatched(d, j)) && LookedAfter(w, e)
    ensures LookedAfter(Watch(Step(w.host, Dispatched(d, j)), DueAfter(w, Dispatched(d, j))), e)
  {
    if w.due == 0 && e.threadId !in w.host.claims {
      assert DrainHolds(w.host, d);
      var k :| Ahead(w.host, k, e);
      AheadStays(w.host, Step(w.host, Dispatched(d, j)), k, e);
    }
  }

  /** Steps that neither end nor begin anything. */
  lemma QuietLooksAfter(w: Watch, a: Action, e: HeyEvent)
    requires Enabled(w.host, a) && LookedAfter(w, e)
    requires Step(w.host, a).claims == w.host.claims && Step(w.host, a).drains == w.host.drains
    requires DueAfter(w, a) >= w.due
    ensures LookedAfter(Watch(Step(w.host, a), DueAfter(w, a)), e)
  {
    if w.due == 0 && e.threadId !in w.host.claims {
      var d :| Ahead(w.host, d, e);
      assert Ahead(Step(w.host, a), d, e);
    }
  }

  lemma EndDrainLooksAfter(w: Watch, d: nat, e: HeyEvent)
    requires Enabled(w.host, EndDrain(d)) && LookedAfter(w, e) && !LetsDown(w, Host(EndDrain(d)), e)
    ensures LookedAfter(Watch(Step(w.host, EndDrain(d)), DueAfter(w, EndDrain(d))), e)
  {
    if w.due == 0 && e.threadId !in w.host.claims {
      var k :| Ahead(w.host, k, e);
      AheadStays(w.host, Step(w.host, EndDrain(d)), k, e);
    }
  }

  lemma HostLooksAfter(w: Watch, a: Action, e: HeyEvent)
    requires Inv(w.host) && Enabled(w.host, a) && !a.Accept? && !a.Restart? && LookedAfter(w, e)
    requires e in w.host.pending && e in Step(w.host, a).pending && !LetsDown(w, Host(a), e)
    ensures LookedAfter(Watch(Step(w.host, a), DueAfter(w, a)), e)
  {
    match a
    case StartDrain(d) => StartLooksAfter(w, d, e);
    case DrainStep(d, verdict) => DrainStepLooksAfter(w, d, verdict, e);
    case Dispatched(d, j) => DispatchedLooksAfter(w, d, j, e);
    case DispatchFails(d) => DispatchFailsLooksAfter(w, d, e);
    case EndDrain(d) => EndDrainLooksAfter(w, d, e);
    case EndJob(j) => EndJobLooksAfter(w, j, e);
    case CallMutation(j) => QuietLooksAfter(w, a, e);
    case Returns(j, outcome) =>
      ReturnsLeave(w.host, j, outcome);
      QuietLooksAfter(w, a, e);
  }

  lemma ReturnsLeave(s: System, j: nat, outcome: Outcome)
    requires Enabled(s, Returns(j, outcome))
    ensures var s' := Step(s, Returns(j, outcome)); s'.claims == s.claims && s'.drains == s.drains
  {
  }

  /** A step leaves what is pending looked after, unless it lets it down. */
  lemma NextLooksAfter(w: Watch, act: Act, w': Watch, e: HeyEvent)
    requires Inv(w.host) && Next(w, act, w') && e in w'.host.pending && !LetsDown(w, act, e)
    requires e in w.host.pending ==> LookedAfter(w, e)
    ensures LookedAfter(w', e)
  {
    if act.Host? && !act.a.Accept? && !act.a.Restart? {
      PendingBefore(w.host, act.a, e);
      HostLooksAfter(w, act.a, e);
    }
  }

  /** Only an ingest or a restart makes an event pending. */
  lemma PendingBefore(s: System, a: Action, e: HeyEvent)
    requires Enabled(s, a) && !a.Accept? && !a.Restart? && e in Step(s, a).pending
    ensures e in s.pending
  {
    match a
    case DrainStep(d, verdict) => DrainPendingBefore(s, d, verdict, e);
    case Returns(j, outcome) => ReturnPendingBefore(s, j, outcome, e);
    case _ => QueueUntouched(s, a);
  }

  lemma QueueUntouched(s: System, a: Action)
    requires Enabled(s, a) && !a.Accept? && !a.Restart? && !a.DrainStep? && !a.Returns?
    ensures Step(s, a).pending == s.pending
  {
  }

  lemma DrainPendingBefore(s: System, d: nat, verdict: Verdict, e: HeyEvent)
    requires Enabled(s, DrainStep(d, verdict)) && e in Step(s, DrainStep(d, verdict)).pending
    ensures e in s.pending
  {
    RemoveMembers(s.pending, At(s, d).eventId);
  }

  lemma ReturnPendingBefore(s: System, j: nat, outcome: Outcome, e: HeyEvent)
    requires Enabled(s, Returns(j, outcome)) && e in Step(s, Returns(j, outcome)).pending
    ensures e in s.pending
  {
    if s.jobs[j].event.threadId in s.claims {
      RemoveMembers(s.pending, s.claims[s.jobs[j].event.threadId]);
    }
  }

  // ---------------------------------------------------------------- results

  /** Step `i` let the event down, it has been pending ever since, and no drain has been started. */
  ghost predicate LeftAt(states: seq<Watch>, acts: seq<Act>, i: nat, n: nat, e: HeyEvent)
    requires n <= |acts| < |states|
  {
    && i < n && e in states[i].host.pending && LetsDown(states[i], acts[i], e)
    && (forall k :: i < k < n ==> !Starts(acts[k]))
    && (forall k :: i < k <= n ==> e in states[k].host.pending)
  }

  predicate Starts(act: Act) {
    act.Host? && act.a.StartDrain?
  }

  lemma {:induction false} LeftOrLookedAfter(states: seq<Watch>, acts: seq<Act>, n: nat, e: HeyEvent)
    requires Run(states, acts) && n <= |acts| && e in states[n].host.pending && !LookedAfter(states[n], e)
    ensures exists i: nat :: LeftAt(states, acts, i, n, e)
  {
    var w, act, w' := states[n - 1], acts[n - 1], states[n];
    RunInv(states, acts, n - 1);
    if LetsDown(w, act, e) {
      if act.Host? {
        PendingBefore(w.host, act.a, e);
      }
      assert LeftAt(states, acts, n - 1, n, e);
    } else {
      if e !in w.host.pending || LookedAfter(w, e) {
        NextLooksAfter(w, act, w', e);
      }
      if Starts(act) {
        StartLooksAfter(w, act.a.d, e);
      }
      LeftOrLookedAfter(states, acts, n - 1, e);
      var i: nat :| LeftAt(states, acts, i, n - 1, e);
      assert LeftAt(states, acts, i, n, e);
    }
  }

  lemma RestUnclaimed(s: System)
    requires Inv(s) && s.drains == map[] && s.jobs == map[]
    ensures s.claims == map[]
  {
    forall t ensures t !in s.claims {
      assert t in s.claims ==> Held(s, t);
    }
  }

  /** Nothing runs and nothing is due. */
  ghost predicate AtRest(w: Watch) {
    w.due == 0 && w.host.drains == map[] && w.host.jobs == map[]
  }

  /**
   No event is forgotten: in every run, an event pending in a host at rest was let down. A drain ended before it
   or passed it over for the gateway, its thread's dispatch or job ended without completing its event, or a drain
   that was due did not come; since then it has been pending, and no drain was started.
   */
  lemma LeftPendingWasLetDown(states: seq<Watch>, acts: seq<Act>, n: nat, e: HeyEvent)
    requires Run(states, acts) && n <= |acts| && AtRest(states[n]) && e in states[n].host.pending
    ensures exists i: nat :: LeftAt(states, acts, i, n, e)
  {
    RunInv(states, acts, n);
    var w := states[n];
    RestUnclaimed(w.host);
    LeftOrLookedAfter(states, acts, n, e);
  }

  /** A host that lets nothing down comes to rest with an empty queue. */
  lemma NothingLeftPending(states: seq<Watch>, acts: seq<Act>, n: nat)
    requires Run(states, acts) && n <= |acts| && AtRest(states[n])
    requires forall i, e :: 0 <= i < n && e in states[i].host.pending ==> !LetsDown(states[i], acts[i], e)
    ensures states[n].host.pending == []
  {
    if states[n].host.pending != [] {
      var e := states[n].host.pending[0];
      LeftPendingWasLetDown(states, acts, n, e);
    }
  }
}
