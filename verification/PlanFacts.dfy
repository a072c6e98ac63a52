/** What a poll emits, in terms of the API's answers and the cursors on disk alone. */
module PlanFacts {
  import opened Wrappers
  import opened Sequences
  import opened Decimal
  import opened Events
  import opened Hydration
  import opened PollPlan

  // ---------------------------------------------------------------- what a box owes

  /** A box can be read: it has a cursor of some time, and the API has a usable answer since it. */
  predicate Readable(api: Api, cursors: Cursors, box: Box) {
    && box.id in cursors && api.parseTime(cursors[box.id].since).Some?
    && api.changes(box.id, cursors[box.id]).Some?
    && var c := api.changes(box.id, cursors[box.id]).value;
       && !c.fullSyncRequired
       && (c.added != [] || c.updated != [] || c.deleted > 0 ==> c.next.Some?)
       && (c.next.Some? ==> c.next.value.since != "")
  }

  /** The cursor the API names as the box's next, if any. */
  function NextOf(api: Api, cursors: Cursors, box: Box): Option<Cursor>
    requires Readable(api, cursors, box)
  {
    api.changes(box.id, cursors[box.id]).value.next
  }

  /** The topic was added or updated in the box since its cursor. */
  predicate Touched(api: Api, cursors: Cursors, box: Box, p: Posting)
    requires Readable(api, cursors, box)
  {
    var c := api.changes(box.id, cursors[box.id]).value;
    (p in c.added || p in c.updated) && p.id > 0 && p.kind == "topic"
  }

  /** What hydrating the posting since the box's cursor gives. */
  function Fresh(api: Api, cursors: Cursors, box: Box, p: Posting): Result<seq<HeyEvent>, WatchError>
    requires Readable(api, cursors, box)
  {
    EventsSince(api, p, box.kind, api.parseTime(cursors[box.id].since).value)
  }

  /** The event is one of a touched posting since the box's cursor, and not the owner's own. */
  predicate Owes(api: Api, own: string, cursors: Cursors, box: Box, p: Posting, e: HeyEvent) {
    && Readable(api, cursors, box) && Touched(api, cursors, box, p)
    && Fresh(api, cursors, box, p).Ok? && e in Fresh(api, cursors, box, p).value
    && !api.sameAddress(e.senderEmail, own)
  }

  ghost predicate OwesId(api: Api, own: string, cursors: Cursors, box: Box, id: string) {
    exists p, e :: Owes(api, own, cursors, box, p, e) && e.eventId == id
  }

  // ---------------------------------------------------------------- reading a box

  lemma {:induction false} InsertMembers<T>(less: (T, T) -> bool, x: T, s: seq<T>)
    ensures forall y :: y in Insert(less, x, s) <==> y == x || y in s
  {
    if s != [] && less(s[0], x) {
      InsertMembers(less, x, s[1..]);
    }
  }

  lemma {:induction false} SortMembers<T>(less: (T, T) -> bool, s: seq<T>)
    ensures forall y :: y in SortBy(less, s) <==> y in s
  {
    if s != [] {
      SortMembers(less, s[1..]);
      InsertMembers(less, s[0], SortBy(less, s[1..]));
    }
  }

  /** A box is read exactly when it can be, and then for the touched postings and the next cursor. */
  lemma ReadExactly(api: Api, own: string, cursors: Cursors, box: Box)
    ensures ReadIncrement(api, cursors, box).Ok? <==> Readable(api, cursors, box)
    ensures Readable(api, cursors, box) ==>
              var inc := ReadIncrement(api, cursors, box).value;
              && inc.key == box.id && inc.next == NextOf(api, cursors, box)
              && (forall p :: p in inc.postings && Relevant(p) <==> Touched(api, cursors, box, p))
              && (forall p :: EventsSince(api, p, inc.kind, inc.since) == Fresh(api, cursors, box, p))
  {
    if Readable(api, cursors, box) {
      var c := api.changes(box.id, cursors[box.id]).value;
      SortMembers(PostingLess, c.added + c.updated);
    }
  }

  lemma DueExactly(api: Api, own: string, cursors: Cursors, box: Box, id: string)
    requires Readable(api, cursors, box) && ReadIncrement(api, cursors, box).Ok?
    ensures var inc := ReadIncrement(api, cursors, box).value;
            Due(api, own, inc, inc.postings, id) <==> OwesId(api, own, cursors, box, id)
  {
    ReadExactly(api, own, cursors, box);
    var inc := ReadIncrement(api, cursors, box).value;
    if Due(api, own, inc, inc.postings, id) {
      var p :| p in inc.postings && Relevant(p) && DueFrom(api, own, inc, p, id);
      assert Touched(api, cursors, box, p);
      var e :| && e in EventsSince(api, p, inc.kind, inc.since).value
               && e.eventId == id && !api.sameAddress(e.senderEmail, own);
      assert Owes(api, own, cursors, box, p, e);
    }
    if OwesId(api, own, cursors, box, id) {
      var p, e :| Owes(api, own, cursors, box, p, e) && e.eventId == id;
      assert Touched(api, cursors, box, p);
      assert Foreign(api, own, EventsSince(api, p, inc.kind, inc.since).value, id);
      assert DueFrom(api, own, inc, p, id);
    }
  }

  // ---------------------------------------------------------------- what a plan is

  /** Oldest first, ties by thread and then by entry. */
  predicate OldestFirst(items: seq<Item>) {
    forall i, j :: 0 <= i < j < |items| ==> Earlier(items[i], items[j])
  }

  predicate Earlier(a: Item, b: Item) {
    || a.created < b.created
    || (a.created == b.created && a.event.threadId < b.event.threadId)
    || (a.created == b.created && a.event.threadId == b.event.threadId && a.event.entryId < b.event.entryId)
  }

  lemma PlanOldestFirst(plan: Plan, base: Cursors)
    requires PlanOk(plan, base)
    ensures OldestFirst(plan.items)
  {
    forall i, j | 0 <= i < j < |plan.items| ensures Earlier(plan.items[i], plan.items[j]) {
      var a, b := plan.items[i], plan.items[j];
      assert ItemLess(a, b) && a.event.Identified() && b.event.Identified();
      assert a.event.eventId != b.event.eventId;
    }
  }

  /**
   A plan is complete and exact, in terms of what the API answers since the cursors: a box's identities in it
   are those it owes, from the topics added and from those updated; the box may move to the cursor the API
   names; each identity appears once, oldest first.
   */
  lemma PlanExact(api: Api, boxes: seq<Box>, own: string, cursors: Cursors)
    requires DistinctBoxes(boxes) && PlanOf(api, Some(boxes), own, cursors).Ok?
    ensures var plan := PlanOf(api, Some(boxes), own, cursors).value;
            && PlanOk(plan, cursors) && OldestFirst(plan.items)
            && forall box :: box in boxes ==>
                 && Readable(api, cursors, box)
                 && NextIs(plan, box.id, NextOf(api, cursors, box))
                 && forall id :: Emits(plan, id, box.id) <==> OwesId(api, own, cursors, box, id)
  {
    var plan := PlanOf(api, Some(boxes), own, cursors).value;
    PlanDue(api, boxes, own, cursors);
    PlanOldestFirst(plan, cursors);
    forall box | box in boxes
      ensures Readable(api, cursors, box) && NextIs(plan, box.id, NextOf(api, cursors, box))
      ensures forall id :: Emits(plan, id, box.id) <==> OwesId(api, own, cursors, box, id)
    {
      ReadExactly(api, own, cursors, box);
      forall id ensures Emits(plan, id, box.id) <==> OwesId(api, own, cursors, box, id) {
        DueExactly(api, own, cursors, box, id);
      }
    }
  }

  // ---------------------------------------------------------------- repeating a poll

  /** After `k` acknowledgements the box has its next cursor on disk. */
  ghost predicate Moved(plan: Plan, k: nat, b: int) {
    b in plan.nexts && Settled(plan.items, k, b)
  }

  /**
   What a poll emits when it is repeated after a stop at `k` acknowledgements, with the same answers for the
   boxes that did not move and nothing new for those that did: for each box that did not move exactly the
   identities it emitted before, and nothing for the others. So an event that was not acknowledged is
   emitted again for each of its boxes, and one that was, only for boxes that still wait for another.
   */
  lemma ReplayExact(api: Api, boxes: seq<Box>, own: string, base: Cursors, k: nat)
    requires DistinctBoxes(boxes) && PlanOf(api, Some(boxes), own, base).Ok?
    requires PlanOf(api, Some(boxes), own, AfterAcks(PlanOf(api, Some(boxes), own, base).value, base, k)).Ok?
    requires var plan := PlanOf(api, Some(boxes), own, base).value;
             forall box :: box in boxes && Moved(plan, k, box.id) ==> Untouched(api, AfterAcks(plan, base, k), box)
    ensures var plan := PlanOf(api, Some(boxes), own, base).value;
            var replay := PlanOf(api, Some(boxes), own, AfterAcks(plan, base, k)).value;
            && (forall box, id :: box in boxes ==>
                  (Emits(replay, id, box.id) <==> Emits(plan, id, box.id) && !Moved(plan, k, box.id)))
            && (forall i, box :: k <= i < |plan.items| && box in boxes && box.id in plan.items[i].boxes ==>
                  Emits(replay, plan.items[i].event.eventId, box.id))
  {
    var plan := PlanOf(api, Some(boxes), own, base).value;
    var after := AfterAcks(plan, base, k);
    var replay := PlanOf(api, Some(boxes), own, after).value;
    PlanExact(api, boxes, own, base);
    PlanExact(api, boxes, own, after);
    forall box, id | box in boxes
      ensures Emits(replay, id, box.id) <==> Emits(plan, id, box.id) && !Moved(plan, k, box.id)
    {
      ReplayOfBox(api, box, own, base, plan, k, id);
    }
    forall i, box | k <= i < |plan.items| && box in boxes && box.id in plan.items[i].boxes
      ensures Emits(replay, plan.items[i].event.eventId, box.id)
    {
      assert Emits(plan, plan.items[i].event.eventId, box.id);
    }
  }

  /** The API reports no posting of the box since its cursor. */
  predicate Untouched(api: Api, cursors: Cursors, box: Box) {
    box.id in cursors && api.changes(box.id, cursors[box.id]).Some? ==>
      var c := api.changes(box.id, cursors[box.id]).value;
      c.added == [] && c.updated == []
  }

  lemma ReplayOfBox(api: Api, box: Box, own: string, base: Cursors, plan: Plan, k: nat, id: string)
    requires Readable(api, base, box) && Readable(api, AfterAcks(plan, base, k), box)
    requires Moved(plan, k, box.id) ==> Untouched(api, AfterAcks(plan, base, k), box)
    ensures OwesId(api, own, AfterAcks(plan, base, k), box, id) <==>
              OwesId(api, own, base, box, id) && !Moved(plan, k, box.id)
  {
    var after := AfterAcks(plan, base, k);
    if !Moved(plan, k, box.id) {
      assert after[box.id] == base[box.id];
      assert forall p, e :: Owes(api, own, after, box, p, e) <==> Owes(api, own, base, box, p, e);
    }
  }

  // ---------------------------------------------------------------- why a poll makes no plan

  /** The box cannot be read, for this reason. */
  predicate Refuses(api: Api, cursors: Cursors, box: Box, error: WatchError) {
    if box.id !in cursors then error == MissingBox
    else if error == BadTimestamp then api.parseTime(cursors[box.id].since).None?
    else
      var answer := api.changes(box.id, cursors[box.id]);
      if answer.None? then error == ChangesFailed
      else
        var c := answer.value;
        match error
        case FullSyncRequired => c.fullSyncRequired
        case MissingNextCursor => c.next.None? && (c.added != [] || c.updated != [] || c.deleted > 0)
        case BadNextCursor => c.next.Some? && c.next.value.since == ""
        case _ => false
  }

  /** What must be the case for a plan to fail with this error. */
  ghost predicate Explains(api: Api, boxes: seq<Box>, own: string, cursors: Cursors, error: WatchError) {
    || (exists box :: box in boxes && Refuses(api, cursors, box, error))
    || HydrationFails(api, boxes, cursors, error)
    || (error == BadEventTime
        && exists box, p, e :: box in boxes && Owes(api, own, cursors, box, p, e) && api.parseTime(e.createdAt).None?)
  }

  ghost predicate HydrationFails(api: Api, boxes: seq<Box>, cursors: Cursors, error: WatchError) {
    exists box, p :: box in boxes && FailsOn(api, cursors, box, p, error)
  }

  predicate FailsOn(api: Api, cursors: Cursors, box: Box, p: Posting, error: WatchError) {
    Readable(api, cursors, box) && Touched(api, cursors, box, p) && Fresh(api, cursors, box, p) == Err(error)
  }

  lemma ReadFails(api: Api, own: string, cursors: Cursors, boxes: seq<Box>, box: Box)
    requires box in boxes && ReadIncrement(api, cursors, box).Err?
    ensures Explains(api, boxes, own, cursors, ReadIncrement(api, cursors, box).error)
  {
    assert Refuses(api, cursors, box, ReadIncrement(api, cursors, box).error);
  }

  lemma {:induction false} ReadsFail(api: Api, cursors: Cursors, boxes: seq<Box>)
    ensures ReadIncrements(api, cursors, boxes).Err? ==>
              exists box :: box in boxes && FailsWith(api, cursors, box, ReadIncrements(api, cursors, boxes).error)
    ensures ReadIncrements(api, cursors, boxes).Ok? ==>
              forall inc :: inc in ReadIncrements(api, cursors, boxes).value ==> ReadFrom(api, cursors, boxes, inc)
  {
    if boxes != [] {
      ReadsFail(api, cursors, boxes[1..]);
      var first := ReadIncrement(api, cursors, boxes[0]);
      if first.Err? {
        assert FailsWith(api, cursors, boxes[0], first.error);
      } else {
        assert Reads(api, cursors, boxes[0], first.value);
      }
    }
  }

  ghost predicate ReadFrom(api: Api, cursors: Cursors, boxes: seq<Box>, inc: Increment) {
    exists box :: box in boxes && Reads(api, cursors, box, inc)
  }

  predicate FailsWith(api: Api, cursors: Cursors, box: Box, error: WatchError) {
    ReadIncrement(api, cursors, box) == Err(error)
  }

  lemma {:induction false} AddEventsFail(api: Api, own: string, key: int, events: seq<HeyEvent>, m: PollPlan.Pending)
    requires AddEvents(api, own, key, events, m).Err?
    ensures AddEvents(api, own, key, events, m).error == BadEventTime
    ensures exists e :: e in events && !api.sameAddress(e.senderEmail, own) && api.parseTime(e.createdAt).None?
  {
    if api.sameAddress(events[0].senderEmail, own) {
      AddEventsFail(api, own, key, events[1..], m);
    } else if AddEvent(api, key, events[0], m).Ok? {
      AddEventsFail(api, own, key, events[1..], AddEvent(api, key, events[0], m).value);
    }
  }

  lemma {:induction false} AddPostingsFail(api: Api, own: string, cursors: Cursors, boxes: seq<Box>, box: Box,
          inc: Increment, postings: seq<Posting>, m: PollPlan.Pending)
    requires box in boxes && Reads(api, cursors, box, inc) && (forall p :: p in postings ==> p in inc.postings)
    requires AddPostings(api, own, inc, postings, m).Err?
    ensures Explains(api, boxes, own, cursors, AddPostings(api, own, inc, postings, m).error)
  {
    ReadExactly(api, own, cursors, box);
    var p, rest := postings[0], postings[1..];
    if !Relevant(p) {
      AddPostingsFail(api, own, cursors, boxes, box, inc, rest, m);
    } else {
      assert Touched(api, cursors, box, p);
      var events := EventsSince(api, p, inc.kind, inc.since);
      if events.Err? {
        assert FailsOn(api, cursors, box, p, events.error);
        SinceErrors(api, p, inc.kind, inc.since);
      } else if AddEvents(api, own, inc.key, events.value, m).Err? {
        AddEventsFail(api, own, inc.key, events.value, m);
        var e :| e in events.value && !api.sameAddress(e.senderEmail, own) && api.parseTime(e.createdAt).None?;
        assert Owes(api, own, cursors, box, p, e);
      } else {
        AddPostingsFail(api, own, cursors, boxes, box, inc, rest, AddEvents(api, own, inc.key, events.value, m).value);
      }
    }
  }

  lemma SinceErrors(api: Api, p: Posting, boxKind: string, since: Time)
    requires EventsSince(api, p, boxKind, since).Err?
    ensures EventsSince(api, p, boxKind, since).error in {BadTopicUrl, EntriesFailed, HydrateFailed}
  {
    var thread := api.topicOf(p.appUrl);
    if thread.Some? && thread.value > 0 && api.entries(thread.value).Some? {
      PrefixErrors(api, p, thread.value, api.entries(thread.value).value, boxKind, since);
    }
  }

  lemma {:induction false} PrefixErrors(api: Api, p: Posting, thread: nat, entries: seq<Entry>, boxKind: string,
          since: Time)
    ensures NewerPrefix(api, p, thread, entries, boxKind, since).Err? ==>
              NewerPrefix(api, p, thread, entries, boxKind, since).error == HydrateFailed
  {
    if entries != [] {
      PrefixErrors(api, p, thread, entries[1..], boxKind, since);
    }
  }

  lemma {:induction false} AddIncrementsFail(api: Api, own: string, cursors: Cursors, boxes: seq<Box>,
          incs: seq<Increment>, m: PollPlan.Pending)
    requires forall inc :: inc in incs ==> ReadFrom(api, cursors, boxes, inc)
    requires AddIncrements(api, own, incs, m).Err?
    ensures Explains(api, boxes, own, cursors, AddIncrements(api, own, incs, m).error)
  {
    var inc := incs[0];
    assert ReadFrom(api, cursors, boxes, inc);
    var box :| box in boxes && Reads(api, cursors, box, inc);
    if AddPostings(api, own, inc, inc.postings, m).Err? {
      AddPostingsFail(api, own, cursors, boxes, box, inc, inc.postings, m);
    } else {
      AddIncrementsFail(api, own, cursors, boxes, incs[1..], AddPostings(api, own, inc, inc.postings, m).value);
    }
  }

  /** A plan that is not made has the reason its error names. */
  lemma PlanFails(api: Api, boxes: seq<Box>, own: string, cursors: Cursors)
    requires DistinctBoxes(boxes) && PlanOf(api, Some(boxes), own, cursors).Err?
    ensures Explains(api, boxes, own, cursors, PlanOf(api, Some(boxes), own, cursors).error)
  {
    var sorted := SortBy(BoxLess, boxes);
    SortedIds(boxes);
    ReadsFail(api, cursors, sorted);
    var incs := ReadIncrements(api, cursors, sorted);
    if incs.Err? {
      var box :| box in sorted && FailsWith(api, cursors, box, incs.error);
      ReadFails(api, own, cursors, boxes, box);
    } else {
      forall inc | inc in incs.value ensures ReadFrom(api, cursors, boxes, inc) {
        var box :| box in sorted && Reads(api, cursors, box, inc);
      }
      AddIncrementsFail(api, own, cursors, boxes, incs.value, map[]);
    }
  }

  /** Every touched topic of every box hydrates. */
  ghost predicate AllHydrate(api: Api, boxes: seq<Box>, cursors: Cursors) {
    forall box, p :: box in boxes && Readable(api, cursors, box) && Touched(api, cursors, box, p) ==>
        Fresh(api, cursors, box, p).Ok?
  }

  /** The times of the events owed can be read back. */
  ghost predicate AllDated(api: Api, boxes: seq<Box>, own: string, cursors: Cursors) {
    forall box, p, e :: box in boxes && Owes(api, own, cursors, box, p, e) ==> api.parseTime(e.createdAt).Some?
  }

  /**
   When events are dated so that their times can be read back: a plan is made exactly when every box can be
   read and every touched topic hydrates.
   */
  lemma PlanSucceedsExactly(api: Api, boxes: seq<Box>, own: string, cursors: Cursors)
    requires DistinctBoxes(boxes) && AllDated(api, boxes, own, cursors)
    ensures PlanOf(api, Some(boxes), own, cursors).Ok? <==>
            (forall box :: box in boxes ==> Readable(api, cursors, box)) && AllHydrate(api, boxes, cursors)
  {
    if PlanOf(api, Some(boxes), own, cursors).Ok? {
      PlanExact(api, boxes, own, cursors);
      PlanHydrates(api, boxes, own, cursors);
    } else {
      PlanFails(api, boxes, own, cursors);
    }
  }

  lemma {:induction false} PostingsHydrate(api: Api, own: string, inc: Increment, postings: seq<Posting>,
          m: PollPlan.Pending)
    requires AddPostings(api, own, inc, postings, m).Ok?
    ensures forall p :: p in postings && Relevant(p) ==> EventsSince(api, p, inc.kind, inc.since).Ok?
  {
    if postings != [] {
      var rest := postings[1..];
      if !Relevant(postings[0]) {
        PostingsHydrate(api, own, inc, rest, m);
      } else {
        var events := EventsSince(api, postings[0], inc.kind, inc.since).value;
        PostingsHydrate(api, own, inc, rest, AddEvents(api, own, inc.key, events, m).value);
      }
    }
  }

  lemma {:induction false} IncrementsHydrate(api: Api, own: string, incs: seq<Increment>, m: PollPlan.Pending)
    requires AddIncrements(api, own, incs, m).Ok?
    ensures forall inc, p :: inc in incs && p in inc.postings && Relevant(p) ==>
              EventsSince(api, p, inc.kind, inc.since).Ok?
  {
    if incs != [] {
      PostingsHydrate(api, own, incs[0], incs[0].postings, m);
      IncrementsHydrate(api, own, incs[1..], AddPostings(api, own, incs[0], incs[0].postings, m).value);
    }
  }

  lemma PlanHydrates(api: Api, boxes: seq<Box>, own: string, cursors: Cursors)
    requires DistinctBoxes(boxes) && PlanOf(api, Some(boxes), own, cursors).Ok?
    ensures AllHydrate(api, boxes, cursors)
  {
    var incs := ReadIncrements(api, cursors, SortBy(BoxLess, boxes)).value;
    SortedReads(api, boxes, cursors);
    IncrementsHydrate(api, own, incs, map[]);
    forall box, p | box in boxes && Readable(api, cursors, box) && Touched(api, cursors, box, p)
      ensures Fresh(api, cursors, box, p).Ok?
    {
      ReadExactly(api, own, cursors, box);
      var inc := ReadIncrement(api, cursors, box).value;
      assert p in inc.postings && Relevant(p);
      assert EventsSince(api, p, inc.kind, inc.since).Ok?;
    }
  }

  // ---------------------------------------------------------------- which event stands for an identity

  /** The event is the first of the list with its identity that is not the owner's. */
  ghost predicate FirstIn(api: Api, own: string, events: seq<HeyEvent>, e: HeyEvent) {
    exists i :: 0 <= i < |events| && events[i] == e && !api.sameAddress(e.senderEmail, own)
      && !Foreign(api, own, events[..i], e.eventId)
  }

  /** It is the first of the first posting that has one with its identity. */
  ghost predicate FirstOf(api: Api, own: string, inc: Increment, postings: seq<Posting>, e: HeyEvent) {
    exists j :: 0 <= j < |postings| && FirstAt(api, own, inc, postings, j, e)
  }

  ghost predicate FirstAt(api: Api, own: string, inc: Increment, postings: seq<Posting>, j: nat, e: HeyEvent)
    requires j < |postings|
  {
    && Relevant(postings[j]) && EventsSince(api, postings[j], inc.kind, inc.since).Ok?
    && FirstIn(api, own, EventsSince(api, postings[j], inc.kind, inc.since).value, e)
    && !Due(api, own, inc, postings[..j], e.eventId)
  }

  /** And of the first increment. */
  ghost predicate FirstOver(api: Api, own: string, incs: seq<Increment>, e: HeyEvent) {
    exists i :: 0 <= i < |incs| && FirstOf(api, own, incs[i], incs[i].postings, e)
      && NoneDue(api, own, incs[..i], e.eventId)
  }

  ghost predicate NoneDue(api: Api, own: string, incs: seq<Increment>, id: string) {
    forall inc :: inc in incs ==> !Due(api, own, inc, inc.postings, id)
  }

  /** The item's time is its event's. */
  predicate Dated(api: Api, item: Item) {
    api.parseTime(item.event.createdAt) == Some(item.created)
  }

  lemma ForeignCons(api: Api, own: string, e: HeyEvent, rest: seq<HeyEvent>, id: string)
    ensures Foreign(api, own, [e] + rest, id) <==>
              Foreign(api, own, rest, id) || (e.eventId == id && !api.sameAddress(e.senderEmail, own))
  {
    assert forall x :: x in [e] + rest <==> x == e || x in rest;
  }

  lemma FirstInCons(api: Api, own: string, first: HeyEvent, rest: seq<HeyEvent>, e: HeyEvent)
    requires FirstIn(api, own, rest, e) && (first.eventId != e.eventId || api.sameAddress(first.senderEmail, own))
    ensures FirstIn(api, own, [first] + rest, e)
  {
    var i :| 0 <= i < |rest| && rest[i] == e && !api.sameAddress(e.senderEmail, own)
             && !Foreign(api, own, rest[..i], e.eventId);
    var all := [first] + rest;
    assert all[..i + 1] == [first] + rest[..i];
    ForeignCons(api, own, first, rest[..i], e.eventId);
    assert all[i + 1] == e;
  }

  lemma {:induction false} AddEventsFirst(api: Api, own: string, key: int, events: seq<HeyEvent>,
          m: PollPlan.Pending, id: string)
    requires AddEvents(api, own, key, events, m).Ok? && id in AddEvents(api, own, key, events, m).value
    ensures var item := AddEvents(api, own, key, events, m).value[id];
            if id in m then item.event == m[id].event && item.created == m[id].created
            else item.event.eventId == id && Dated(api, item) && FirstIn(api, own, events, item.event)
  {
    if events != [] {
      var e, rest := events[0], events[1..];
      assert events == [e] + rest;
      if api.sameAddress(e.senderEmail, own) {
        AddEventsFirst(api, own, key, rest, m, id);
        if id !in m {
          FirstInCons(api, own, e, rest, AddEvents(api, own, key, events, m).value[id].event);
        }
      } else {
        var m' := AddEvent(api, key, e, m).value;
        AddEventsFirst(api, own, key, rest, m', id);
        if id !in m && id != e.eventId {
          FirstInCons(api, own, e, rest, AddEvents(api, own, key, events, m).value[id].event);
        } else if id !in m {
          assert events[..0] == [] && events[0] == e;
          assert !Foreign(api, own, events[..0], id);
        }
      }
    }
  }

  lemma DueCons(api: Api, own: string, inc: Increment, p: Posting, rest: seq<Posting>, id: string)
    ensures Due(api, own, inc, [p] + rest, id) <==>
              Due(api, own, inc, rest, id) || (Relevant(p) && DueFrom(api, own, inc, p, id))
  {
    assert forall q :: q in [p] + rest <==> q == p || q in rest;
  }

  lemma FirstOfCons(api: Api, own: string, inc: Increment, p: Posting, rest: seq<Posting>, e: HeyEvent)
    requires FirstOf(api, own, inc, rest, e) && !(Relevant(p) && DueFrom(api, own, inc, p, e.eventId))
    ensures FirstOf(api, own, inc, [p] + rest, e)
  {
    var j :| 0 <= j < |rest| && FirstAt(api, own, inc, rest, j, e);
    var all := [p] + rest;
    assert all[..j + 1] == [p] + rest[..j] && all[j + 1] == rest[j];
    DueCons(api, own, inc, p, rest[..j], e.eventId);
    assert FirstAt(api, own, inc, all, j + 1, e);
  }

  lemma {:induction false} AddPostingsFirst(api: Api, own: string, inc: Increment, postings: seq<Posting>,
          m: PollPlan.Pending, id: string)
    requires PendingOk(m)
    requires AddPostings(api, own, inc, postings, m).Ok? && id in AddPostings(api, own, inc, postings, m).value
    ensures var item := AddPostings(api, own, inc, postings, m).value[id];
            if id in m then item.event == m[id].event && item.created == m[id].created
            else item.event.eventId == id && Dated(api, item) && FirstOf(api, own, inc, postings, item.event)
  {
    if postings != [] {
      var p, rest := postings[0], postings[1..];
      assert postings == [p] + rest;
      var e := AddPostings(api, own, inc, postings, m).value[id].event;
      if !Relevant(p) {
        AddPostingsFirst(api, own, inc, rest, m, id);
        if id !in m {
          FirstOfCons(api, own, inc, p, rest, e);
        }
      } else {
        var events := EventsSince(api, p, inc.kind, inc.since).value;
        var m' := AddEvents(api, own, inc.key, events, m).value;
        forall x | x in events ensures x.Identified() {
          EventsWellBuilt(api, p, inc.kind, inc.since, x);
        }
        AddEventsSpec(api, own, inc.key, events, m);
        AddPostingsFirst(api, own, inc, rest, m', id);
        if id in m' {
          AddEventsFirst(api, own, inc.key, events, m, id);
          if id !in m {
            assert postings[..0] == [];
            assert FirstAt(api, own, inc, postings, 0, e);
          }
        } else {
          FirstOfCons(api, own, inc, p, rest, e);
        }
      }
    }
  }

  lemma FirstOverCons(api: Api, own: string, inc: Increment, rest: seq<Increment>, e: HeyEvent)
    requires FirstOver(api, own, rest, e) && !Due(api, own, inc, inc.postings, e.eventId)
    ensures FirstOver(api, own, [inc] + rest, e)
  {
    var i :| 0 <= i < |rest| && FirstOf(api, own, rest[i], rest[i].postings, e)
             && NoneDue(api, own, rest[..i], e.eventId);
    var all := [inc] + rest;
    assert all[..i + 1] == [inc] + rest[..i] && all[i + 1] == rest[i];
    assert NoneDue(api, own, all[..i + 1], e.eventId);
  }

  lemma {:induction false} AddIncrementsFirst(api: Api, own: string, incs: seq<Increment>, m: PollPlan.Pending,
          id: string)
    requires PendingOk(m) && AddIncrements(api, own, incs, m).Ok? && id in AddIncrements(api, own, incs, m).value
    ensures var item := AddIncrements(api, own, incs, m).value[id];
            if id in m then item.event == m[id].event && item.created == m[id].created
            else item.event.eventId == id && Dated(api, item) && FirstOver(api, own, incs, item.event)
  {
    if incs != [] {
      var inc, rest := incs[0], incs[1..];
      assert incs == [inc] + rest;
      var e := AddIncrements(api, own, incs, m).value[id].event;
      var m' := AddPostings(api, own, inc, inc.postings, m).value;
      AddPostingsSpec(api, own, inc, inc.postings, m);
      AddIncrementsFirst(api, own, rest, m', id);
      if id in m' {
        AddPostingsFirst(api, own, inc, inc.postings, m, id);
        if id !in m {
          assert incs[..0] == [];
          assert NoneDue(api, own, incs[..0], id);
        }
      } else {
        FirstOverCons(api, own, inc, rest, e);
      }
    }
  }

  lemma InPrefix<T>(s: seq<T>, k: nat, n: nat)
    requires k < |s| && n <= |s|
    ensures k < n ==> s[k] in s[..n]
  {
    assert k < n ==> s[..n][k] == s[k];
  }

  /** Postings in order of number, ties by address. */
  predicate InOrder(postings: seq<Posting>) {
    forall i, j :: 0 <= i < j < |postings| ==> !Before(postings[j], postings[i])
  }

  predicate Before(a: Posting, b: Posting) {
    a.id < b.id || (a.id == b.id && LexLess(a.appUrl, b.appUrl))
  }

  lemma BeforeChains(a: Posting, b: Posting, c: Posting)
    requires !Before(b, a) && !Before(c, b)
    ensures !Before(c, a)
  {
    LexTotal(a.appUrl, b.appUrl);
    LexTotal(b.appUrl, c.appUrl);
    LexTotal(a.appUrl, c.appUrl);
    if LexLess(a.appUrl, b.appUrl) && LexLess(b.appUrl, c.appUrl) {
      LexTransitive(a.appUrl, b.appUrl, c.appUrl);
    }
  }

  lemma {:induction false} InsertInOrder(x: Posting, s: seq<Posting>)
    requires InOrder(s)
    ensures InOrder(Insert(PostingLess, x, s))
  {
    if s == [] || !PostingLess(s[0], x) {
      forall j | 0 <= j < |s| ensures !Before(s[j], x) {
        if j > 0 {
          BeforeChains(x, s[0], s[j]);
        }
      }
    } else {
      var rest := Insert(PostingLess, x, s[1..]);
      InsertInOrder(x, s[1..]);
      InsertMembers(PostingLess, x, s[1..]);
      LexTotal(s[0].appUrl, x.appUrl);
      forall j | 0 <= j < |rest| ensures !Before(rest[j], s[0]) {
        assert rest[j] in rest;
        if rest[j] != x {
          var k :| 0 <= k < |s[1..]| && s[1..][k] == rest[j];
          assert s[k + 1] == rest[j];
        }
      }
    }
  }

  lemma {:induction false} SortInOrder(s: seq<Posting>)
    ensures InOrder(SortBy(PostingLess, s))
  {
    if s != [] {
      SortInOrder(s[1..]);
      InsertInOrder(s[0], SortBy(PostingLess, s[1..]));
    }
  }

  /** The event is the one that stands for its identity: of the lowest box, and there of the first posting. */
  ghost predicate StandsFor(api: Api, own: string, cursors: Cursors, item: Item, box: Box, p: Posting) {
    && box.id in item.boxes && (forall b :: b in item.boxes ==> box.id <= b)
    && Owes(api, own, cursors, box, p, item.event)
    && forall q, e :: Owes(api, own, cursors, box, q, e) && e.eventId == item.event.eventId ==> !Before(q, p)
  }

  lemma FirstStands(api: Api, own: string, cursors: Cursors, box: Box, inc: Increment, item: Item) returns (p: Posting)
    requires Reads(api, cursors, box, inc) && box.id in item.boxes && (forall b :: b in item.boxes ==> box.id <= b)
    requires FirstOf(api, own, inc, inc.postings, item.event)
    ensures StandsFor(api, own, cursors, item, box, p)
  {
    ReadExactly(api, own, cursors, box);
    var c := api.changes(box.id, cursors[box.id]).value;
    SortInOrder(c.added + c.updated);
    var j :| 0 <= j < |inc.postings| && FirstAt(api, own, inc, inc.postings, j, item.event);
    p := inc.postings[j];
    assert p in inc.postings && Touched(api, cursors, box, p);
    forall q, e | Owes(api, own, cursors, box, q, e) && e.eventId == item.event.eventId ensures !Before(q, p) {
      assert Touched(api, cursors, box, q) && q in inc.postings;
      var k :| 0 <= k < |inc.postings| && inc.postings[k] == q;
      assert Foreign(api, own, EventsSince(api, q, inc.kind, inc.since).value, e.eventId);
      assert Relevant(q) && DueFrom(api, own, inc, q, e.eventId);
      InPrefix(inc.postings, k, j);
      LexTotal(p.appUrl, p.appUrl);
    }
  }

  /**
   Each item of a plan is dated by its event's own time, and its event is the one of the lowest of its boxes and
   there of the first posting, by number and address, that has the identity.
   */
  lemma ItemsStand(api: Api, boxes: seq<Box>, own: string, cursors: Cursors, i: nat) returns (box: Box, p: Posting)
    requires DistinctBoxes(boxes) && PlanOf(api, Some(boxes), own, cursors).Ok?
    requires i < |PlanOf(api, Some(boxes), own, cursors).value.items|
    ensures var item := PlanOf(api, Some(boxes), own, cursors).value.items[i];
            && api.parseTime(item.event.createdAt) == Some(item.created)
            && box in boxes && StandsFor(api, own, cursors, item, box, p)
  {
    var item := PlanOf(api, Some(boxes), own, cursors).value.items[i];
    var sorted := SortBy(BoxLess, boxes);
    var incs := ReadIncrements(api, cursors, sorted).value;
    var m := AddIncrements(api, own, incs, map[]).value;
    var k := ItemIsFirst(api, own, incs, m, item, Arrange(m), i);
    SortedIds(boxes);
    SortedReads(api, boxes, cursors);
    ReadIncrementsSpec(api, cursors, sorted);
    box := sorted[k];
    assert Reads(api, cursors, sorted[k], incs[k]) && box in sorted;
    LowestBox(api, own, incs, m, item, k);
    p := FirstStands(api, own, cursors, box, incs[k], item);
  }

  lemma ItemIsFirst(api: Api, own: string, incs: seq<Increment>, m: PollPlan.Pending, item: Item, items: seq<Item>,
          i: nat) returns (k: nat)
    requires AddIncrements(api, own, incs, map[]) == Ok(m) && items == Arrange(m) && i < |items| && items[i] == item
    ensures PendingOk(m) && item.event.eventId in m && m[item.event.eventId] == item && Dated(api, item)
    ensures k < |incs| && FirstOf(api, own, incs[k], incs[k].postings, item.event)
    ensures NoneDue(api, own, incs[..k], item.event.eventId)
  {
    AddIncrementsSpec(api, own, incs, map[]);
    ArrangeSpec(m);
    assert item in items;
    AddIncrementsFirst(api, own, incs, map[], item.event.eventId);
    k :| 0 <= k < |incs| && FirstOf(api, own, incs[k], incs[k].postings, item.event)
         && NoneDue(api, own, incs[..k], item.event.eventId);
  }

  lemma LowestBox(api: Api, own: string, incs: seq<Increment>, m: PollPlan.Pending, item: Item, k: nat)
    requires AddIncrements(api, own, incs, map[]) == Ok(m) && KeysIncrease(incs)
    requires item.event.eventId in m && m[item.event.eventId] == item
    requires k < |incs| && FirstOf(api, own, incs[k], incs[k].postings, item.event)
    requires NoneDue(api, own, incs[..k], item.event.eventId)
    ensures incs[k].key in item.boxes && forall b :: b in item.boxes ==> incs[k].key <= b
  {
    var id := item.event.eventId;
    AddIncrementsSpec(api, own, incs, map[]);
    FirstIsDue(api, own, incs, k, item.event);
    assert Files(m, id, incs[k].key);
    forall b | b in item.boxes ensures incs[k].key <= b {
      assert Files(m, id, b);
      var inc :| inc in incs && inc.key == b && Due(api, own, inc, inc.postings, id);
      var n :| 0 <= n < |incs| && incs[n] == inc;
      InPrefix(incs, n, k);
    }
  }

  lemma FirstIsDue(api: Api, own: string, incs: seq<Increment>, k: nat, e: HeyEvent)
    requires k < |incs| && FirstOf(api, own, incs[k], incs[k].postings, e)
    ensures DueIn(api, own, incs, incs[k].key, e.eventId)
  {
    var inc := incs[k];
    var j :| 0 <= j < |inc.postings| && FirstAt(api, own, inc, inc.postings, j, e);
    var events := EventsSince(api, inc.postings[j], inc.kind, inc.since).value;
    assert Foreign(api, own, events, e.eventId);
    assert DueFrom(api, own, inc, inc.postings[j], e.eventId);
    assert Due(api, own, inc, inc.postings, e.eventId) && inc in incs;
  }
}
