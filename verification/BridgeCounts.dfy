/** Conservation: what was acknowledged as taken in, what is pending, and what was answered, counted. */
module BridgeCounts {
  import opened Wrappers
  import opened Sequences
  import opened Events
  import opened QueueModel
  import opened QueueRefinement
  import opened Bridge
  import A = Adapters
  import D = Delivery
  import DS = DeliverySafety

  // ---------------------------------------------------------------- counting in lists

  lemma TimesSnoc(list: seq<string>, x: string, id: string)
    ensures Times(list + [x], id) == Times(list, id) + if x == id then 1 else 0
  {
  }

  lemma {:induction false} TimesDistinct(list: seq<string>, id: string)
    requires Distinct(list)
    ensures Times(list, id) == if id in list then 1 else 0
  {
    if list != [] {
      var n := |list| - 1;
      assert list == list[..n] + [list[n]];
      TimesDistinct(list[..n], id);
      TimesSnoc(list[..n], list[n], id);
    }
  }

  lemma TimesWithout(list: seq<string>, x: string, id: string)
    requires Distinct(list)
    ensures Times(Without(list, {x}), id) == if id == x then 0 else Times(list, id)
  {
    WithoutOne(list, x);
    WithoutMembers(list, {x});
    TimesDistinct(list, id);
    TimesDistinct(Without(list, {x}), id);
  }

  lemma PendingDistinct(l: Log, lim: Limits)
    requires LogOk(l, lim)
    ensures Distinct(Ids(l.pending))
  {
    DistinctConcat(Window(l, lim), Ids(l.pending));
  }

  // ---------------------------------------------------------------- what came into the queue

  lemma AcceptEnters(l: Log, e: HeyEvent, id: string)
    ensures Entered(Effect(l, IngestOp(e, true)), id) == Entered(l, id) + if id == e.eventId then 1 else 0
  {
    IdsAppend(l.pending, e);
    TimesSnoc(Ids(l.pending), e.eventId, id);
  }

  lemma CompleteEnters(l: Log, done: string, lim: Limits, id: string)
    requires LogOk(l, lim)
    ensures Entered(Effect(l, CompleteOp(done)), id) == Entered(l, id)
  {
    if done in Ids(l.pending) {
      PendingDistinct(l, lim);
      RemoveMembers(l.pending, done);
      TimesWithout(Ids(l.pending), done, id);
      TimesSnoc(l.completed, done, id);
      TimesDistinct(Ids(l.pending), id);
    }
  }

  /** No operation takes an entry back. */
  lemma StepEnters(l: Log, op: Op, outcome: SaveOutcome, lim: Limits, id: string)
    requires LogOk(l, lim)
    ensures Entered(l, id) <= Entered(LogStep(l, op, outcome, lim).0, id)
  {
    match op
    case IngestOp(e, authorized) => AcceptEnters(l, e, id);
    case CompleteOp(done) => CompleteEnters(l, done, lim, id);
  }

  /** An operation by which the host comes to owe nothing new keeps the account. */
  lemma KeptEnters(cfg: D.Config, s: D.Pipeline, s': D.Pipeline, op: Op, outcome: SaveOutcome)
    requires s.logs != [] && LogsOk(cfg, s.logs) && AllEntered(s) && s'.logs == D.Kept(s.logs, op, outcome, cfg.lim)
    requires s'.record.start == s.record.start && s'.record.acked == s.record.acked
    requires forall id :: OwedCount(s'.host, id) <= OwedCount(s.host, id)
    ensures AllEntered(s')
  {
    var now := D.Current(s.logs);
    assert now in s.logs && LogOk(now, cfg.lim);
    DS.KeptFrom(s.logs, op, outcome, cfg.lim);
    forall l | l in s'.logs ensures EnteredIn(s'.record, s'.host, l) {
      if l in s.logs {
        assert EnteredIn(s.record, s.host, l);
      } else {
        assert EnteredIn(s.record, s.host, now);
        forall id
          ensures TakenCount(s'.record.acked, id) + OwedCount(s'.host, id) + Entered(s'.record.start, id)
                  <= Entered(l, id)
        {
          StepEnters(now, op, outcome, cfg.lim, id);
        }
      }
    }
  }

  /** An event that is taken in, and will be acknowledged as new. */
  lemma AcceptedEnters(s: D.Pipeline, s': D.Pipeline, e: HeyEvent)
    requires s.logs != [] && AllEntered(s) && s'.logs == [Effect(D.Current(s.logs), IngestOp(e, true))]
    requires s'.record.start == s.record.start && s'.record.acked == s.record.acked
    requires forall id :: OwedCount(s.host, id) == 0 && OwedCount(s'.host, id) <= if id == e.eventId then 1 else 0
    ensures AllEntered(s')
  {
    var now := D.Current(s.logs);
    assert now in s.logs && EnteredIn(s.record, s.host, now);
    forall id
      ensures TakenCount(s'.record.acked, id) + OwedCount(s'.host, id) + Entered(s'.record.start, id)
              <= Entered(s'.logs[0], id)
    {
      AcceptEnters(now, e, id);
    }
  }

  /** Contents may go, and debts be paid or forgotten. */
  lemma QuietEnters(s: D.Pipeline, s': D.Pipeline)
    requires AllEntered(s) && (forall l :: l in s'.logs ==> l in s.logs) && s'.record.start == s.record.start
    requires forall id ::
               TakenCount(s'.record.acked, id) + OwedCount(s'.host, id)
               <= TakenCount(s.record.acked, id) + OwedCount(s.host, id)
    ensures AllEntered(s')
  {
    forall l | l in s'.logs ensures EnteredIn(s'.record, s'.host, l) {
      assert EnteredIn(s.record, s.host, l);
    }
  }

  lemma TakenSnoc(acked: seq<D.Receipt>, receipt: D.Receipt, id: string)
    ensures TakenCount(acked + [receipt], id) ==
            TakenCount(acked, id) + if receipt.why.New? && receipt.id == id then 1 else 0
  {
    assert (acked + [receipt])[..|acked|] == acked;
  }

  // ---------------------------------------------------------------- what was answered

  lemma RecordedSnoc(replies: seq<A.Reply>, r: A.Reply, id: string)
    ensures Recorded(replies + [r], id) == Recorded(replies, id) + if r.recorded && r.event.eventId == id then 1 else 0
  {
    assert (replies + [r])[..|replies|] == replies;
  }

  /** Answers are never taken back. */
  ghost predicate DoneGrew(s: A.System, s': A.System) {
    forall id :: DoneCount(s, id) <= DoneCount(s', id)
  }

  /** And the identity was answered once more. */
  ghost predicate DoneOnce(s: A.System, s': A.System, done: string) {
    DoneGrew(s, s') && DoneCount(s, done) + 1 <= DoneCount(s', done)
  }

  lemma DoneGrows(start: Log, s: A.System, s': A.System, logs: seq<Log>)
    requires AllDone(start, s, logs) && DoneGrew(s, s')
    ensures AllDone(start, s', logs)
  {
    forall l | l in logs ensures DoneIn(start, s', l) {
      assert DoneIn(start, s, l);
    }
  }

  /** An ingest completes nothing. */
  lemma IngestDone(start: Log, host: A.System, logs: seq<Log>, e: HeyEvent, authorized: bool, outcome: SaveOutcome,
          lim: Limits)
    requires logs != [] && AllDone(start, host, logs)
    ensures AllDone(start, host, D.Kept(logs, IngestOp(e, authorized), outcome, lim))
  {
    DS.KeptFrom(logs, IngestOp(e, authorized), outcome, lim);
    var now := D.Current(logs);
    assert now in logs && DoneIn(start, host, now);
    forall l | l in D.Kept(logs, IngestOp(e, authorized), outcome, lim) ensures DoneIn(start, host, l) {
      if l !in logs {
        assert l.completed == now.completed;
      }
    }
  }

  /** A completion has an answer of its own. */
  lemma CompleteDone(start: Log, host: A.System, host': A.System, logs: seq<Log>, done: string, outcome: SaveOutcome,
          lim: Limits)
    requires logs != [] && AllDone(start, host, logs) && DoneGrew(host, host')
    requires CompletionOf(D.Current(logs), done, outcome, lim).Kept() && done in Ids(D.Current(logs).pending) ==>
               DoneOnce(host, host', done)
    ensures AllDone(start, host', D.Kept(logs, CompleteOp(done), outcome, lim))
  {
    DS.KeptFrom(logs, CompleteOp(done), outcome, lim);
    DoneGrows(start, host, host', logs);
    var now := D.Current(logs);
    assert now in logs && DoneIn(start, host, now);
    forall l | l in D.Kept(logs, CompleteOp(done), outcome, lim) ensures DoneIn(start, host', l) {
      if l !in logs {
        CompletedOnce(now, done, outcome, lim);
        forall id ensures Times(l.completed, id) <= Times(start.completed, id) + DoneCount(host', id) {
          TimesSnoc(now.completed, done, id);
        }
      }
    }
  }

  lemma CompletedOnce(l: Log, done: string, outcome: SaveOutcome, lim: Limits)
    ensures var l' := LogStep(l, CompleteOp(done), outcome, lim).0;
            || l' == l
            || (done in Ids(l.pending) && CompletionOf(l, done, outcome, lim).Kept()
                && l'.completed == l.completed + [done])
  {
  }
}
