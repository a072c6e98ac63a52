/** The order of replies on one thread: when it follows ingestion, and a drain that breaks it. */
module DrainOrder {
  import opened Wrappers
  import opened Sequences
  import opened Decimal
  import opened Events
  import opened QueueModel
  import opened Adapters
  import opened AdapterSafety

  /** The events of one thread, in order. */
  function OnThread(events: seq<HeyEvent>, t: int): seq<HeyEvent> {
    if events == [] then []
    else if events[0].threadId == t then [events[0]] + OnThread(events[1..], t)
    else OnThread(events[1..], t)
  }

  lemma {:induction false} OnThreadSnoc(events: seq<HeyEvent>, e: HeyEvent, t: int)
    ensures OnThread(events + [e], t) == if e.threadId == t then OnThread(events, t) + [e] else OnThread(events, t)
  {
    if events == [] {
      assert events + [e] == [e];
    } else {
      assert (events + [e])[1..] == events[1..] + [e];
      OnThreadSnoc(events[1..], e, t);
    }
  }

  lemma {:induction false} OnThreadMembers(events: seq<HeyEvent>, t: int)
    ensures forall e :: e in OnThread(events, t) <==> e in events && e.threadId == t
  {
    if events != [] {
      OnThreadMembers(events[1..], t);
    }
  }

  /** Removing one pending event touches its own thread only, where it removes that event. */
  lemma {:induction false} OnThreadRemove(pending: seq<HeyEvent>, e: HeyEvent, t: int)
    requires Distinct(Ids(pending)) && e in pending
    ensures t != e.threadId ==> OnThread(Remove(pending, e.eventId), t) == OnThread(pending, t)
    ensures t == e.threadId ==> |OnThread(Remove(pending, e.eventId), t)| + 1 == |OnThread(pending, t)|
    ensures t == e.threadId && OnThread(pending, t)[0] == e ==>
              OnThread(Remove(pending, e.eventId), t) == OnThread(pending, t)[1..]
  {
    var first, rest := pending[0], pending[1..];
    assert Ids(pending) == [first.eventId] + Ids(rest);
    DistinctConcat([first.eventId], Ids(rest));
    if first == e {
      RemoveAbsent(rest, e.eventId);
    } else {
      IdIn(rest, e);
      OnThreadRemove(rest, e, t);
      if t == e.threadId && first.threadId == t {
        assert OnThread(pending, t)[0] == first;
      }
    }
  }

  /** The event is the first of its thread. */
  predicate IsHead(pending: seq<HeyEvent>, e: HeyEvent) {
    OnThread(pending, e.threadId) != [] && OnThread(pending, e.threadId)[0] == e
  }

  // ---------------------------------------------------------------- arrivals and replies

  /** The replies on one thread, in order. */
  function RepliesOn(replies: seq<Reply>, t: int): seq<Reply> {
    if replies == [] then []
    else
      var n := |replies| - 1;
      if replies[n].event.threadId == t then RepliesOn(replies[..n], t) + [replies[n]] else RepliesOn(replies[..n], t)
  }

  lemma RepliesOnSnoc(replies: seq<Reply>, r: Reply, t: int)
    ensures RepliesOn(replies + [r], t)
            == if r.event.threadId == t then RepliesOn(replies, t) + [r] else RepliesOn(replies, t)
  {
    assert (replies + [r])[..|replies|] == replies;
  }

  /** The events whose reply was recorded, in order. */
  function Recorded(replies: seq<Reply>): seq<HeyEvent> {
    if replies == [] then []
    else
      var n := |replies| - 1;
      if replies[n].recorded then Recorded(replies[..n]) + [replies[n].event] else Recorded(replies[..n])
  }

  lemma RecordedSnoc(replies: seq<Reply>, r: Reply)
    ensures Recorded(replies + [r]) == if r.recorded then Recorded(replies) + [r.event] else Recorded(replies)
  {
    assert (replies + [r])[..|replies|] == replies;
  }

  /** The events taken into the queue, in the order of their ingestion. */
  function Taken(actions: seq<Action>): seq<HeyEvent> {
    if actions == [] then []
    else
      var n := |actions| - 1;
      if actions[n].Accept? then Taken(actions[..n]) + [actions[n].e] else Taken(actions[..n])
  }

  /** The reply a step confirms, if it is the return of a successful send. */
  function ReplyOf(s: System, a: Action): Option<Reply> {
    if a.Returns? && a.outcome.Confirmed? && a.j in s.jobs && s.jobs[a.j].phase.Calling?
    then Some(Reply(s.jobs[a.j].phase.event, a.outcome.completion.Kept()))
    else None
  }

  /** The step completes no event for lack of authorization, and a restart finds the queue as it was. */
  predicate Steady(s: System, a: Action) {
    match a
    case DrainStep(_, Unauthorized(completion)) => !completion.Kept()
    case Restart(queue) => queue == s.pending
    case _ => true
  }

  /** An event whose mutation is under way is pending. */
  ghost predicate CallsPending(s: System) {
    forall j :: j in s.jobs && s.jobs[j].phase.Calling? ==> s.jobs[j].phase.event in s.pending
  }

  /** Steps that neither accept, call, nor answer. */
  lemma Quiet(s: System, a: Action)
    requires CallsPending(s) && Enabled(s, a) && Steady(s, a) && !a.Accept? && !a.CallMutation? && !a.Returns?
    ensures Step(s, a).pending == s.pending && Step(s, a).replies == s.replies
    ensures CallsPending(Step(s, a))
  {
    if a.DrainStep? && !(a.verdict == Cleared && At(s, a.d).threadId !in s.claims) {
      QuietDrainStep(s, a.d, a.verdict);
    }
  }

  lemma FailureEffect(s: System, j: nat, outcome: Outcome)
    requires CallsPending(s) && Enabled(s, Returns(j, outcome)) && !outcome.Confirmed?
    ensures var s' := Step(s, Returns(j, outcome));
            s'.pending == s.pending && s'.replies == s.replies && CallsPending(s')
  {
  }

  lemma CallKeepsPending(s: System, j: nat)
    requires Inv(s) && CallsPending(s) && Enabled(s, CallMutation(j))
    ensures var s' := Step(s, CallMutation(j));
            s'.pending == s.pending && s'.replies == s.replies && CallsPending(s')
  {
    var thread := s.jobs[j].event.threadId;
    assert JobHolds(s, j);
    FindEventSpec(s.pending, s.claims[thread], thread);
  }

  /** Two jobs never have mutations under way for the same identity. */
  lemma OneCaller(s: System, j: nat, k: nat)
    requires Inv(s) && j in s.jobs && k in s.jobs && j != k
    requires s.jobs[j].phase.Calling? && s.jobs[k].phase.Calling?
    ensures s.jobs[k].phase.event.eventId != s.jobs[j].phase.event.eventId
  {
    assert JobHolds(s, j) && JobHolds(s, k);
    if s.jobs[k].phase.event.eventId == s.jobs[j].phase.event.eventId {
      OneThread(s.jobs[k].event, s.jobs[j].event);
    }
  }

  lemma SuccessStep(s: System, j: nat, completion: Completion)
    requires Inv(s) && Enabled(s, Returns(j, Confirmed(completion)))
    ensures var e := s.jobs[j].phase.event;
            Step(s, Returns(j, Confirmed(completion))) ==
            s.(jobs := s.jobs[j := s.jobs[j].(phase := Over)],
               pending := if completion.Kept() then Remove(s.pending, e.eventId) else s.pending,
               replies := s.replies + [Reply(e, completion.Kept())])
  {
    assert JobHolds(s, j);
  }

  lemma SuccessEffect(s: System, j: nat, completion: Completion)
    requires Inv(s) && CallsPending(s) && Enabled(s, Returns(j, Confirmed(completion)))
    ensures CallsPending(Step(s, Returns(j, Confirmed(completion))))
  {
    var e := s.jobs[j].phase.event;
    SuccessStep(s, j, completion);
    RemoveMembers(s.pending, e.eventId);
    forall k | k in s.jobs && k != j && s.jobs[k].phase.Calling? ensures s.jobs[k].phase.event.eventId != e.eventId {
      OneCaller(s, j, k);
    }
  }

  /** A step's effect on what is pending and what was replied to. */
  ghost predicate Moves(s: System, a: Action, s': System) {
    match ReplyOf(s, a)
    case Some(r) =>
      && r.event in s.pending && s'.replies == s.replies + [r]
      && s'.pending == if r.recorded then Remove(s.pending, r.event.eventId) else s.pending
    case None =>
      s'.pending == (if a.Accept? then s.pending + [a.e] else s.pending) && s'.replies == s.replies
  }

  lemma StepMoves(s: System, a: Action)
    requires Inv(s) && CallsPending(s) && Enabled(s, a) && Steady(s, a)
    ensures Moves(s, a, Step(s, a)) && CallsPending(Step(s, a))
  {
    match a
    case Accept(e) =>
    case CallMutation(j) => CallKeepsPending(s, j);
    case Returns(j, outcome) => AnswerMoves(s, j, outcome);
    case _ => Quiet(s, a);
  }

  lemma AnswerMoves(s: System, j: nat, outcome: Outcome)
    requires Inv(s) && CallsPending(s) && Enabled(s, Returns(j, outcome))
    ensures Moves(s, Returns(j, outcome), Step(s, Returns(j, outcome))) && CallsPending(Step(s, Returns(j, outcome)))
  {
    if outcome.Confirmed? {
      SuccessStep(s, j, outcome.completion);
      SuccessEffect(s, j, outcome.completion);
    } else {
      FailureEffect(s, j, outcome);
    }
  }

  // ---------------------------------------------------------------- order on one thread

  /** How many replies were recorded before reply `i`: the position of the event whose turn it is. */
  function Turn(replies: seq<Reply>, i: nat): nat
    requires i <= |replies|
  {
    |Recorded(replies[..i])|
  }

  ghost predicate HasTurn(replies: seq<Reply>, i: nat, taken: seq<HeyEvent>)
    requires i < |replies|
  {
    Turn(replies, i) < |taken|
  }

  ghost predicate OnTurn(replies: seq<Reply>, i: nat, taken: seq<HeyEvent>)
    requires i < |replies|
  {
    HasTurn(replies, i, taken) && replies[i].event == taken[Turn(replies, i)]
  }

  /**
   Replies follow the events taken: each is to the event whose turn it is, which stays the same until a
   reply to it is recorded.
   */
  ghost predicate Follows(replies: seq<Reply>, taken: seq<HeyEvent>) {
    forall i :: 0 <= i < |replies| ==> OnTurn(replies, i, taken)
  }

  /** Every reply was made with some event waiting. */
  ghost predicate Bounded(replies: seq<Reply>, taken: seq<HeyEvent>) {
    forall i :: 0 <= i < |replies| ==> HasTurn(replies, i, taken)
  }

  lemma TurnSnoc(replies: seq<Reply>, r: Reply, i: nat, taken: seq<HeyEvent>)
    requires i < |replies|
    ensures HasTurn(replies + [r], i, taken) <==> HasTurn(replies, i, taken)
    ensures OnTurn(replies + [r], i, taken) <==> OnTurn(replies, i, taken)
  {
    assert (replies + [r])[..i] == replies[..i];
  }

  lemma LastTurn(replies: seq<Reply>, r: Reply, taken: seq<HeyEvent>)
    ensures HasTurn(replies + [r], |replies|, taken) <==> |Recorded(replies)| < |taken|
    ensures OnTurn(replies + [r], |replies|, taken) <==>
              |Recorded(replies)| < |taken| && r.event == taken[|Recorded(replies)|]
  {
    assert (replies + [r])[..|replies|] == replies;
  }

  lemma FollowsSnoc(replies: seq<Reply>, r: Reply, taken: seq<HeyEvent>)
    ensures Bounded(replies + [r], taken) <==> Bounded(replies, taken) && |Recorded(replies)| < |taken|
    ensures Follows(replies + [r], taken) <==>
            Follows(replies, taken) && |Recorded(replies)| < |taken| && r.event == taken[|Recorded(replies)|]
  {
    LastTurn(replies, r, taken);
    forall i | 0 <= i < |replies|
      ensures HasTurn(replies + [r], i, taken) <==> HasTurn(replies, i, taken)
      ensures OnTurn(replies + [r], i, taken) <==> OnTurn(replies, i, taken)
    {
      TurnSnoc(replies, r, i, taken);
    }
  }

  lemma FollowsTaken(replies: seq<Reply>, taken: seq<HeyEvent>, e: HeyEvent)
    requires Bounded(replies, taken)
    ensures Bounded(replies, taken + [e])
    ensures Follows(replies, taken + [e]) <==> Follows(replies, taken)
  {
    forall i | 0 <= i < |replies|
      ensures HasTurn(replies, i, taken + [e]) && (OnTurn(replies, i, taken + [e]) <==> OnTurn(replies, i, taken))
    {
      assert HasTurn(replies, i, taken);
    }
  }

  // ---------------------------------------------------------------- order over a run

  /** Authorization is fixed over the run, and every restart finds the queue as it was. */
  ghost predicate Fixed(states: seq<System>, actions: seq<Action>)
    requires |states| > |actions|
  {
    forall i :: 0 <= i < |actions| ==> Steady(states[i], actions[i])
  }

  /** The replies on a thread follow the order of ingestion. */
  ghost predicate InOrder(s: System, actions: seq<Action>, t: int) {
    Follows(RepliesOn(s.replies, t), OnThread(Taken(actions), t))
  }

  /** A step does not reply to an event of the thread past an earlier one that is pending. */
  ghost predicate TakesHead(s: System, a: Action, t: int) {
    var r := ReplyOf(s, a);
    r.Some? && r.value.event.threadId == t ==> IsHead(s.pending, r.value.event)
  }

  /** Everything accepted on a thread, in order: first what was replied to for good, then what is pending. */
  ghost predicate Queued(s: System, actions: seq<Action>, t: int) {
    OnThread(Taken(actions), t) == Recorded(RepliesOn(s.replies, t)) + OnThread(s.pending, t)
  }

  /** What is known of one thread after some steps of a run: nothing accepted is lost, and order decides where it is. */
  ghost predicate Accounted(s: System, actions: seq<Action>, t: int) {
    && |Recorded(RepliesOn(s.replies, t))| + |OnThread(s.pending, t)| == |OnThread(Taken(actions), t)|
    && Bounded(RepliesOn(s.replies, t), OnThread(Taken(actions), t))
    && (InOrder(s, actions, t) ==> Queued(s, actions, t))
  }

  lemma TakenSnoc(actions: seq<Action>, a: Action)
    ensures Taken(actions + [a]) == if a.Accept? then Taken(actions) + [a.e] else Taken(actions)
  {
    assert (actions + [a])[..|actions|] == actions;
  }

  /** A reply on the thread, seen from its lists. */
  lemma ReplyOnThread(replies: seq<Reply>, pending: seq<HeyEvent>, taken: seq<HeyEvent>, r: Reply,
          pending': seq<HeyEvent>)
    requires |Recorded(replies)| + |pending| == |taken| && r.event in pending && Bounded(replies, taken)
    requires r.recorded ==> |pending'| + 1 == |pending| && (pending[0] == r.event ==> pending' == pending[1..])
    requires !r.recorded ==> pending' == pending
    requires Follows(replies, taken) ==> taken == Recorded(replies) + pending
    ensures |Recorded(replies + [r])| + |pending'| == |taken| && Bounded(replies + [r], taken)
    ensures Follows(replies + [r], taken) <==> Follows(replies, taken) && pending[0] == r.event
    ensures Follows(replies + [r], taken) ==> taken == Recorded(replies + [r]) + pending'
  {
    RecordedSnoc(replies, r);
    FollowsSnoc(replies, r, taken);
    if Follows(replies, taken) {
      assert taken[|Recorded(replies)|] == pending[0];
      assert pending == [pending[0]] + pending[1..];
    }
  }

  lemma StepOnThread(s: System, a: Action, s': System, before: seq<Action>, t: int)
    requires Distinct(Ids(s.pending)) && Moves(s, a, s') && Accounted(s, before, t)
    ensures Accounted(s', before + [a], t)
    ensures InOrder(s', before + [a], t) <==> InOrder(s, before, t) && TakesHead(s, a, t)
  {
    TakenSnoc(before, a);
    var taken := OnThread(Taken(before), t);
    match ReplyOf(s, a)
    case Some(r) =>
      RepliesOnSnoc(s.replies, r, t);
      OnThreadRemove(s.pending, r.event, t);
      OnThreadMembers(s.pending, t);
      if r.event.threadId == t {
        ReplyOnThread(RepliesOn(s.replies, t), OnThread(s.pending, t), taken, r, OnThread(s'.pending, t));
      }
    case None =>
      if a.Accept? {
        AcceptOnThread(s, a.e, s', before, t);
      }
  }

  lemma AcceptOnThread(s: System, e: HeyEvent, s': System, before: seq<Action>, t: int)
    requires s'.pending == s.pending + [e] && s'.replies == s.replies && Accounted(s, before, t)
    ensures Accounted(s', before + [Accept(e)], t)
    ensures InOrder(s', before + [Accept(e)], t) <==> InOrder(s, before, t)
  {
    var taken := OnThread(Taken(before), t);
    TakenSnoc(before, Accept(e));
    OnThreadSnoc(s.pending, e, t);
    OnThreadSnoc(Taken(before), e, t);
    FollowsTaken(RepliesOn(s.replies, t), taken, e);
    if e.threadId == t && Queued(s, before, t) {
      assert taken + [e] == Recorded(RepliesOn(s.replies, t)) + (OnThread(s.pending, t) + [e]);
    }
  }

  /** What a run's step `i` starts from. */
  lemma RunStep(states: seq<System>, actions: seq<Action>, i: nat)
    requires Run(states, actions) && i < |actions|
    ensures Inv(states[i]) && Enabled(states[i], actions[i]) && states[i + 1] == Step(states[i], actions[i])
  {
    RunInv(states, actions, i);
  }

  ghost predicate HeadsTaken(states: seq<System>, actions: seq<Action>, n: nat, t: int)
    requires n <= |actions| < |states|
  {
    forall i :: 0 <= i < n ==> TakesHead(states[i], actions[i], t)
  }

  lemma RunMoves(states: seq<System>, actions: seq<Action>, i: nat)
    requires Run(states, actions) && Fixed(states, actions) && i < |actions| && CallsPending(states[i])
    ensures Distinct(Ids(states[i].pending))
    ensures Moves(states[i], actions[i], states[i + 1]) && CallsPending(states[i + 1])
  {
    RunStep(states, actions, i);
    StepMoves(states[i], actions[i]);
  }

  lemma {:induction false} CallsPendingUpTo(states: seq<System>, actions: seq<Action>, n: nat)
    requires Run(states, actions) && Fixed(states, actions) && n <= |actions|
    ensures CallsPending(states[n])
  {
    if n > 0 {
      CallsPendingUpTo(states, actions, n - 1);
      RunMoves(states, actions, n - 1);
    }
  }

  lemma {:induction false} OrderUpTo(states: seq<System>, actions: seq<Action>, n: nat, t: int)
    requires Run(states, actions) && Fixed(states, actions) && n <= |actions|
    ensures Accounted(states[n], actions[..n], t)
    ensures InOrder(states[n], actions[..n], t) <==> HeadsTaken(states, actions, n, t)
  {
    if n > 0 {
      OrderUpTo(states, actions, n - 1, t);
      OrderStep(states, actions, n - 1, t);
    } else {
      assert actions[..0] == [];
    }
  }

  lemma OrderStep(states: seq<System>, actions: seq<Action>, i: nat, t: int)
    requires Run(states, actions) && Fixed(states, actions) && i < |actions| && Accounted(states[i], actions[..i], t)
    ensures Accounted(states[i + 1], actions[..i + 1], t)
    ensures InOrder(states[i + 1], actions[..i + 1], t) <==>
              InOrder(states[i], actions[..i], t) && TakesHead(states[i], actions[i], t)
  {
    assert actions[..i + 1] == actions[..i] + [actions[i]];
    CallsPendingUpTo(states, actions, i);
    RunMoves(states, actions, i);
    StepOnThread(states[i], actions[i], states[i + 1], actions[..i], t);
  }

  /**
   Exactly when order is kept, completions that fail included: with authorization fixed, the replies on a
   thread follow the order of ingestion if and only if each was to the first pending event of the thread;
   then all accepted events of the thread are, in order, those replied to for good and those pending. In
   any case none is lost: their number is that of the recorded replies and the pending events.
   */
  lemma OrderExact(states: seq<System>, actions: seq<Action>, t: int)
    requires Run(states, actions) && Fixed(states, actions)
    ensures InOrder(states[|actions|], actions, t) <==>
              forall i :: 0 <= i < |actions| ==> TakesHead(states[i], actions[i], t)
    ensures InOrder(states[|actions|], actions, t) ==> Queued(states[|actions|], actions, t)
    ensures |Recorded(RepliesOn(states[|actions|].replies, t))| + |OnThread(states[|actions|].pending, t)|
            == |OnThread(Taken(actions), t)|
  {
    OrderUpTo(states, actions, |actions|, t);
    assert actions[..|actions|] == actions;
  }

  // ---------------------------------------------------------------- the claim behind a reply

  /** The identity is claimed for the thread, and pending. */
  ghost predicate ClaimedPending(s: System, t: int, id: string) {
    t in s.claims && s.claims[t] == id && exists e :: e in OnThread(s.pending, t) && e.eventId == id
  }

  /** The thread's first pending event has this identity: what a drain could check before it claims. */
  predicate HeadIs(s: System, t: int, id: string) {
    OnThread(s.pending, t) != [] && OnThread(s.pending, t)[0].eventId == id
  }

  /** At step `i` the identity came to be claimed and pending. */
  ghost predicate Begins(states: seq<System>, i: nat, t: int, id: string)
    requires i + 1 < |states|
  {
    !ClaimedPending(states[i], t, id) && ClaimedPending(states[i + 1], t, id)
  }

  ghost predicate HeldSince(states: seq<System>, i: nat, k: nat, t: int, id: string)
    requires k < |states|
  {
    forall m :: i < m <= k ==> ClaimedPending(states[m], t, id)
  }

  /** Step `k` replies to an identity that has been claimed and pending since step `i`. */
  ghost predicate RepliesUnder(states: seq<System>, actions: seq<Action>, i: nat, k: nat, t: int)
    requires |states| == |actions| + 1
  {
    && i < k < |actions|
    && var r := ReplyOf(states[k], actions[k]);
       r.Some? && r.value.event.threadId == t
       && Begins(states, i, t, r.value.event.eventId) && HeldSince(states, i, k, t, r.value.event.eventId)
  }

  lemma ReplyIsClaimed(s: System, a: Action)
    requires Inv(s) && CallsPending(s) && Enabled(s, a) && ReplyOf(s, a).Some?
    ensures var e := ReplyOf(s, a).value.event; ClaimedPending(s, e.threadId, e.eventId) && e in s.pending
  {
    assert JobHolds(s, a.j);
    OnThreadMembers(s.pending, s.jobs[a.j].phase.event.threadId);
  }

  /** While an identity is claimed and pending, whether it is first on its thread does not change. */
  lemma RankStays(s: System, a: Action, s': System, t: int, id: string)
    requires Inv(s) && CallsPending(s) && Enabled(s, a) && Steady(s, a) && s' == Step(s, a)
    requires ClaimedPending(s, t, id) && ClaimedPending(s', t, id)
    ensures HeadIs(s', t, id) <==> HeadIs(s, t, id)
  {
    StepMoves(s, a);
    match ReplyOf(s, a)
    case Some(r) =>
      ReplyIsClaimed(s, a);
      if r.recorded {
        OnThreadRemove(s.pending, r.event, t);
        OnThreadMembers(s'.pending, t);
        RemoveMembers(s.pending, r.event.eventId);
      }
    case None =>
      if a.Accept? {
        OnThreadSnoc(s.pending, a.e, t);
      }
  }

  lemma {:induction false} RankSince(states: seq<System>, actions: seq<Action>, i: nat, k: nat, t: int, id: string)
    requires Run(states, actions) && Fixed(states, actions) && i < k <= |actions| && HeldSince(states, i, k, t, id)
    ensures HeadIs(states[k], t, id) <==> HeadIs(states[i + 1], t, id)
  {
    if i + 1 < k {
      RankSince(states, actions, i, k - 1, t, id);
      RunStep(states, actions, k - 1);
      CallsPendingUpTo(states, actions, k - 1);
      RankStays(states[k - 1], actions[k - 1], states[k], t, id);
    }
  }

  /** Every hold has a beginning. */
  lemma {:induction false} FindBegin(states: seq<System>, actions: seq<Action>, k: nat, t: int, id: string)
    returns (i: nat)
    requires Run(states, actions) && k <= |actions| && ClaimedPending(states[k], t, id)
    ensures i < k && Begins(states, i, t, id) && HeldSince(states, i, k, t, id)
  {
    assert k > 0;
    if ClaimedPending(states[k - 1], t, id) {
      i := FindBegin(states, actions, k - 1, t, id);
    } else {
      i := k - 1;
    }
  }

  lemma HeadOfReply(states: seq<System>, actions: seq<Action>, k: nat, t: int)
    requires Run(states, actions) && Fixed(states, actions) && k < |actions|
    requires ReplyOf(states[k], actions[k]).Some? && ReplyOf(states[k], actions[k]).value.event.threadId == t
    ensures TakesHead(states[k], actions[k], t) <==>
              HeadIs(states[k], t, ReplyOf(states[k], actions[k]).value.event.eventId)
    ensures ClaimedPending(states[k], t, ReplyOf(states[k], actions[k]).value.event.eventId)
  {
    var s, e := states[k], ReplyOf(states[k], actions[k]).value.event;
    RunStep(states, actions, k);
    CallsPendingUpTo(states, actions, k);
    ReplyIsClaimed(s, actions[k]);
    OnThreadMembers(s.pending, t);
    if HeadIs(s, t, e.eventId) {
      var head := OnThread(s.pending, t)[0];
      assert head in OnThread(s.pending, t);
      OnlyOne(s.pending, head, e);
    }
  }

  /**
   Order, at the claims: with authorization fixed, the replies on a thread follow the order of ingestion if
   and only if every claim under which a reply was confirmed was made for the first pending event of the
   thread.
   */
  lemma OrderByClaims(states: seq<System>, actions: seq<Action>, t: int)
    requires Run(states, actions) && Fixed(states, actions)
    ensures InOrder(states[|actions|], actions, t) <==>
            forall i: nat, k: nat :: RepliesUnder(states, actions, i, k, t) ==>
                HeadIs(states[i + 1], t, ReplyOf(states[k], actions[k]).value.event.eventId)
  {
    OrderExact(states, actions, t);
    forall i: nat, k: nat | RepliesUnder(states, actions, i, k, t)
      ensures TakesHead(states[k], actions[k], t) <==>
                HeadIs(states[i + 1], t, ReplyOf(states[k], actions[k]).value.event.eventId)
    {
      HeadOfReply(states, actions, k, t);
      RankSince(states, actions, i, k, t, ReplyOf(states[k], actions[k]).value.event.eventId);
    }
    forall k | 0 <= k < |actions| && !TakesHead(states[k], actions[k], t)
      ensures exists i: nat :: RepliesUnder(states, actions, i, k, t)
    {
      HeadOfReply(states, actions, k, t);
      var i := FindBegin(states, actions, k, t, ReplyOf(states[k], actions[k]).value.event.eventId);
      assert RepliesUnder(states, actions, i, k, t);
    }
  }

  /**
   Such a hold begins in one of two ways: a drain claims a pending event of a free thread, and then the
   queue is as it was before the claim; or an identity that is claimed already is taken in again.
   */
  lemma BeginsByClaim(states: seq<System>, actions: seq<Action>, i: nat, t: int, id: string)
    requires Run(states, actions) && Fixed(states, actions) && i < |actions| && Begins(states, i, t, id)
    ensures var s, a := states[i], actions[i];
            || (a.DrainStep? && a.verdict == Cleared && Current(s, a.d) && At(s, a.d).threadId == t
                && At(s, a.d).eventId == id
                && t !in s.claims && states[i + 1].pending == s.pending)
            || (a.Accept? && a.e.threadId == t && a.e.eventId == id && t in s.claims && s.claims[t] == id)
  {
    RunStep(states, actions, i);
    CallsPendingUpTo(states, actions, i);
    StepMoves(states[i], actions[i]);
    ClaimOrigin(states[i], actions[i], t);
    BeginsCases(states[i], actions[i], t, id);
  }

  lemma BeginsCases(s: System, a: Action, t: int, id: string)
    requires Enabled(s, a) && Moves(s, a, Step(s, a)) && !ClaimedPending(s, t, id) && ClaimedPending(Step(s, a), t, id)
    requires (t in s.claims && Step(s, a).claims[t] == s.claims[t]) || (a.DrainStep? && a.verdict == Cleared)
    requires a.DrainStep? && a.verdict == Cleared ==> Step(s, a).pending == s.pending
    ensures || (a.DrainStep? && a.verdict == Cleared && t !in s.claims)
            || (a.Accept? && a.e.threadId == t && a.e.eventId == id)
  {
    if ReplyOf(s, a).Some? && ReplyOf(s, a).value.recorded {
      OnThreadMembers(s.pending, t);
      OnThreadMembers(Step(s, a).pending, t);
      RemoveMembers(s.pending, ReplyOf(s, a).value.event.eventId);
    } else if a.Accept? {
      OnThreadSnoc(s.pending, a.e, t);
    }
  }

  /** What a drain could check before it claims, and an ingest before it takes a claimed identity in again. */
  ghost predicate ClaimsInOrder(s: System, a: Action) {
    match a
    case DrainStep(d, Cleared) =>
      Current(s, d) && At(s, d).threadId !in s.claims && At(s, d).eventId in Ids(s.pending) ==>
        HeadIs(s, At(s, d).threadId, At(s, d).eventId)
    case Accept(e) => e.threadId in s.claims && s.claims[e.threadId] == e.eventId ==>
        OnThread(s.pending, e.threadId) == []
    case _ => true
  }

  /**
   If every claim of a pending event is for the first one of its thread, the replies on every thread follow
   the order of ingestion, over every run and however stale the snapshots.
   */
  lemma ClaimedInOrder(states: seq<System>, actions: seq<Action>, t: int)
    requires Run(states, actions) && Fixed(states, actions)
    requires forall i :: 0 <= i < |actions| ==> ClaimsInOrder(states[i], actions[i])
    ensures InOrder(states[|actions|], actions, t) && Queued(states[|actions|], actions, t)
  {
    forall i: nat, k: nat | RepliesUnder(states, actions, i, k, t)
      ensures HeadIs(states[i + 1], t, ReplyOf(states[k], actions[k]).value.event.eventId)
    {
      BeginsInOrder(states, actions, i, t, ReplyOf(states[k], actions[k]).value.event.eventId);
    }
    OrderByClaims(states, actions, t);
    OrderExact(states, actions, t);
  }

  lemma BeginsInOrder(states: seq<System>, actions: seq<Action>, i: nat, t: int, id: string)
    requires Run(states, actions) && Fixed(states, actions) && i < |actions| && Begins(states, i, t, id)
    requires ClaimsInOrder(states[i], actions[i])
    ensures HeadIs(states[i + 1], t, id)
  {
    BeginsByClaim(states, actions, i, t, id);
    var s, a := states[i], actions[i];
    OnThreadMembers(states[i + 1].pending, t);
    if a.Accept? {
      RunStep(states, actions, i);
      OnThreadSnoc(s.pending, a.e, t);
    } else {
      var e :| e in OnThread(states[i + 1].pending, t) && e.eventId == id;
      IdIn(s.pending, e);
    }
  }

  lemma ClaimOrigin(s: System, a: Action, t: int)
    requires Enabled(s, a) && t in Step(s, a).claims
    ensures (t in s.claims && Step(s, a).claims[t] == s.claims[t])
            || (t !in s.claims && a.DrainStep? && a.verdict == Cleared && Current(s, a.d) && At(s, a.d).threadId == t
                && Step(s, a).claims[t] == At(s, a.d).eventId)
  {
    match a
    case DrainStep(d, verdict) =>
      if !(verdict == Cleared && At(s, d).threadId !in s.claims) {
        QuietDrainStep(s, d, verdict);
      }
    case DispatchFails(_) =>
    case EndJob(_) =>
    case Restart(_) =>
    case _ => ClaimsSame(s, a);
  }

  lemma ClaimsSame(s: System, a: Action)
    requires Enabled(s, a) && !a.DrainStep? && !a.DispatchFails? && !a.EndJob? && !a.Restart?
    ensures Step(s, a).claims == s.claims
  {
  }
}
