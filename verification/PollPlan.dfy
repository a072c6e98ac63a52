/**
 What one poll sets out to do, as a function of the API's answers and the cursors on disk:
 which events it will emit, in which order, and which cursor each box may move to.
 */
module PollPlan {
  import opened Wrappers
  import opened Sequences
  import opened Decimal
  import opened Events
  import opened Hydration

  /** The cursor of each box, by box number. */
  type Cursors = map<int, Cursor>

  datatype Increment = Increment(key: int, kind: string, since: Time, postings: seq<Posting>, next: Option<Cursor>)

  datatype Item = Item(event: HeyEvent, created: Time, boxes: set<int>)

  datatype Plan = Plan(nexts: Cursors, items: seq<Item>)

  // ---------------------------------------------------------------- sorting

  function Insert<T>(less: (T, T) -> bool, x: T, s: seq<T>): seq<T> {
    if s == [] || !less(s[0], x) then [x] + s else [s[0]] + Insert(less, x, s[1..])
  }

  /** A stable sort: equal elements keep their order. */
  function SortBy<T>(less: (T, T) -> bool, s: seq<T>): seq<T> {
    if s == [] then [] else Insert(less, s[0], SortBy(less, s[1..]))
  }

  /** `less` decides every pair of different elements of `s`, one way, and chains. */
  ghost predicate StrictTotalOn<T(!new)>(less: (T, T) -> bool, s: set<T>) {
    && (forall x, y :: x in s && y in s && x != y ==> less(x, y) || less(y, x))
    && (forall x, y :: x in s && y in s && less(x, y) ==> !less(y, x))
    && (forall x, y, z :: x in s && y in s && z in s && less(x, y) && less(y, z) ==> less(x, z))
  }

  lemma {:induction false} InsertSpec<T(!new)>(less: (T, T) -> bool, x: T, s: seq<T>, all: set<T>)
    requires StrictTotalOn(less, all) && x in all && (forall y :: y in s ==> y in all) && x !in s
    requires StrictlySorted(less, s)
    ensures StrictlySorted(less, Insert(less, x, s))
    ensures forall y :: y in Insert(less, x, s) <==> y == x || y in s
  {
    if s != [] && less(s[0], x) {
      InsertSpec(less, x, s[1..], all);
      var r := Insert(less, x, s[1..]);
      forall i | 0 <= i < |r| ensures less(s[0], r[i]) {
        assert r[i] in r;
        if r[i] in s[1..] {
          var k :| 1 <= k < |s| && s[k] == r[i];
        }
      }
    } else if s != [] {
      assert s[0] in s;
      forall i | 0 <= i < |s| ensures less(x, s[i]) {
        assert s[i] in s;
        assert i > 0 ==> less(s[0], s[i]);
      }
    }
  }

  lemma {:induction false} SortSpec<T(!new)>(less: (T, T) -> bool, s: seq<T>, all: set<T>)
    requires StrictTotalOn(less, all) && (forall y :: y in s ==> y in all) && Distinct(s)
    ensures StrictlySorted(less, SortBy(less, s))
    ensures forall y :: y in SortBy(less, s) <==> y in s
  {
    if s != [] {
      SortSpec(less, s[1..], all);
      assert s[0] !in s[1..];
      InsertSpec(less, s[0], SortBy(less, s[1..]), all);
    }
  }

  /** Sorting is blind to the order of its input, when every two elements differ in rank. */
  lemma SortCanonical<T(!new)>(less: (T, T) -> bool, a: seq<T>, b: seq<T>)
    requires Distinct(a) && (forall x :: x in a <==> x in b)
    requires StrictTotalOn(less, set x | x in a) && StrictlySorted(less, b)
    ensures b == SortBy(less, a)
  {
    var all := set x | x in a;
    SortSpec(less, a, all);
    var sorted := SortBy(less, a);
    assert forall x :: x in sorted ==> x in all;
    SortedUnique(less, sorted, b);
  }

  predicate BoxLess(a: Box, b: Box) {
    a.id < b.id
  }

  predicate PostingLess(a: Posting, b: Posting) {
    if a.id != b.id then a.id < b.id else LexLess(a.appUrl, b.appUrl)
  }

  /** Oldest first; ties by thread, then entry, then identity. */
  predicate ItemLess(a: Item, b: Item) {
    if a.created != b.created then a.created < b.created
    else if a.event.threadId != b.event.threadId then a.event.threadId < b.event.threadId
    else if a.event.entryId != b.event.entryId then a.event.entryId < b.event.entryId
    else LexLess(a.event.eventId, b.event.eventId)
  }

  // ---------------------------------------------------------------- increments

  ghost predicate DistinctBoxes(boxes: seq<Box>) {
    forall i, j :: 0 <= i < j < |boxes| ==> boxes[i].id != boxes[j].id
  }

  function ReadIncrement(api: Api, cursors: Cursors, box: Box): (r: Result<Increment, WatchError>)
    ensures r.Ok? ==> r.value.key == box.id && box.id in cursors
  {
    if box.id !in cursors then Err(MissingBox)
    else
      var cursor := cursors[box.id];
      var since := api.parseTime(cursor.since);
      if since.None? then Err(BadTimestamp)
      else
        var changes := api.changes(box.id, cursor);
        if changes.None? then Err(ChangesFailed)
        else if changes.value.fullSyncRequired then Err(FullSyncRequired)
        else
          var c := changes.value;
          if |c.added| + |c.updated| + c.deleted > 0 && c.next.None? then Err(MissingNextCursor)
          else if c.next.Some? && c.next.value.since == "" then Err(BadNextCursor)
          else Ok(Increment(box.id, box.kind, since.value, SortBy(PostingLess, c.added + c.updated), c.next))
  }

  function ReadIncrements(api: Api, cursors: Cursors, boxes: seq<Box>): Result<seq<Increment>, WatchError> {
    if boxes == [] then Ok([])
    else
      var inc :- ReadIncrement(api, cursors, boxes[0]);
      var rest :- ReadIncrements(api, cursors, boxes[1..]);
      Ok([inc] + rest)
  }

  // ---------------------------------------------------------------- gathering

  type Pending = map<string, Item>

  function AddEvent(api: Api, key: int, e: HeyEvent, m: Pending): Result<Pending, WatchError> {
    if e.eventId in m then Ok(m[e.eventId := m[e.eventId].(boxes := m[e.eventId].boxes + {key})])
    else
      var created := api.parseTime(e.createdAt);
      if created.None? then Err(BadEventTime) else Ok(m[e.eventId := Item(e, created.value, {key})])
  }

  function AddEvents(api: Api, own: string, key: int, events: seq<HeyEvent>, m: Pending): Result<Pending, WatchError> {
    if events == [] then Ok(m)
    else if api.sameAddress(events[0].senderEmail, own) then AddEvents(api, own, key, events[1..], m)
    else
      var m' :- AddEvent(api, key, events[0], m);
      AddEvents(api, own, key, events[1..], m')
  }

  predicate Relevant(posting: Posting) {
    posting.id > 0 && posting.kind == "topic"
  }

  function AddPostings(api: Api, own: string, inc: Increment, postings: seq<Posting>,
          m: Pending): Result<Pending, WatchError>
  {
    if postings == [] then Ok(m)
    else if !Relevant(postings[0]) then AddPostings(api, own, inc, postings[1..], m)
    else
      var events :- EventsSince(api, postings[0], inc.kind, inc.since);
      var m' :- AddEvents(api, own, inc.key, events, m);
      AddPostings(api, own, inc, postings[1..], m')
  }

  function AddIncrements(api: Api, own: string, incs: seq<Increment>, m: Pending): Result<Pending, WatchError> {
    if incs == [] then Ok(m)
    else
      var m' :- AddPostings(api, own, incs[0], incs[0].postings, m);
      AddIncrements(api, own, incs[1..], m')
  }

  function Nexts(incs: seq<Increment>): Cursors {
    if incs == [] then map[]
    else if incs[0].next.Some? then Nexts(incs[1..])[incs[0].key := incs[0].next.value]
    else Nexts(incs[1..])
  }

  // ---------------------------------------------------------------- the plan

  /** The pending items in some order; the plan does not depend on which. */
  ghost function Listed(m: Pending): seq<Item> {
    if m == map[] then [] else var id :| id in m; [m[id]] + Listed(m - {id})
  }

  ghost function Arrange(m: Pending): seq<Item> {
    SortBy(ItemLess, Listed(m))
  }

  ghost function PlanOf(api: Api, boxes: Option<seq<Box>>, own: string, cursors: Cursors): Result<Plan, WatchError> {
    if boxes.None? then Err(ListBoxesFailed)
    else
      var incs :- ReadIncrements(api, cursors, SortBy(BoxLess, boxes.value));
      var m :- AddIncrements(api, own, incs, map[]);
      Ok(Plan(Nexts(incs), Arrange(m)))
  }

  /** All of a box's items are among the first `k`. */
  ghost predicate Settled(items: seq<Item>, k: nat, box: int) {
    forall i :: k <= i < |items| ==> box !in items[i].boxes
  }

  /** The cursors a poll has earned after `k` acknowledgements. */
  ghost function AfterAcks(plan: Plan, base: Cursors, k: nat): Cursors {
    map b | b in base :: if b in plan.nexts && Settled(plan.items, k, b) then plan.nexts[b] else base[b]
  }

  // ---------------------------------------------------------------- what gathering produces

  /** Each item is filed under its event's identity, with a well-formed event. */
  ghost predicate PendingOk(m: Pending) {
    forall id :: id in m ==> m[id].event.eventId == id && m[id].event.Identified()
  }

  lemma FileItem(m: Pending, id: string, item: Item)
    requires PendingOk(m) && item.event.eventId == id && item.event.Identified()
    ensures PendingOk(m[id := item])
  {
    var m' := m[id := item];
    forall k | k in m' ensures m'[k].event.eventId == k && m'[k].event.Identified() {
      assert k != id ==> m'[k] == m[k];
    }
  }

  lemma AddEventSpec(api: Api, key: int, e: HeyEvent, m: Pending)
    requires PendingOk(m) && e.Identified() && AddEvent(api, key, e, m).Ok?
    ensures PendingOk(AddEvent(api, key, e, m).value)
    ensures AddEvent(api, key, e, m).value.Keys == m.Keys + {e.eventId}
    ensures Extends(m, AddEvent(api, key, e, m).value)
    ensures forall id, b :: Files(AddEvent(api, key, e, m).value, id, b) <==>
              Files(m, id, b) || (id == e.eventId && b == key)
  {
    var m' := AddEvent(api, key, e, m).value;
    FileItem(m, e.eventId, m'[e.eventId]);
    forall id, b ensures Files(m', id, b) <==> Files(m, id, b) || (id == e.eventId && b == key) {
      if id != e.eventId {
        assert id in m' <==> id in m;
      }
    }
  }

  lemma {:induction false} AddEventsSpec(api: Api, own: string, key: int, events: seq<HeyEvent>, m: Pending)
    requires PendingOk(m) && (forall e :: e in events ==> e.Identified())
    requires AddEvents(api, own, key, events, m).Ok?
    ensures var m' := AddEvents(api, own, key, events, m).value;
            && PendingOk(m') && Extends(m, m')
            && (forall id, b :: Files(m', id, b) <==> Files(m, id, b) || (b == key && Foreign(api, own, events, id)))
            && (forall id :: id in m' <==> id in m || Foreign(api, own, events, id))
  {
    if events != [] {
      var e, rest := events[0], events[1..];
      assert forall x :: x in events <==> x == e || x in rest;
      assert forall id :: Foreign(api, own, events, id) <==>
                            Foreign(api, own, rest, id) || (id == e.eventId && !api.sameAddress(e.senderEmail, own));
      if api.sameAddress(e.senderEmail, own) {
        AddEventsSpec(api, own, key, rest, m);
      } else {
        AddEventSpec(api, key, e, m);
        AddEventsSpec(api, own, key, rest, AddEvent(api, key, e, m).value);
      }
    }
  }

  /** The identity is pending for the box. */
  ghost predicate Files(m: Pending, id: string, key: int) {
    id in m && key in m[id].boxes
  }

  ghost predicate Foreign(api: Api, own: string, events: seq<HeyEvent>, id: string) {
    exists e :: e in events && e.eventId == id && !api.sameAddress(e.senderEmail, own)
  }

  ghost predicate Extends(m: Pending, m': Pending) {
    forall id :: id in m ==>
        id in m' && m'[id].event == m[id].event && m'[id].created == m[id].created && m[id].boxes <= m'[id].boxes
  }

  /** Some event with this identity, not sent by the owner, was hydrated from the box's postings since its cursor. */
  ghost predicate Due(api: Api, own: string, inc: Increment, postings: seq<Posting>, id: string) {
    exists p :: p in postings && Relevant(p) && DueFrom(api, own, inc, p, id)
  }

  ghost predicate DueFrom(api: Api, own: string, inc: Increment, p: Posting, id: string) {
    EventsSince(api, p, inc.kind, inc.since).Ok?
      && Foreign(api, own, EventsSince(api, p, inc.kind, inc.since).value, id)
  }

  lemma {:induction false} AddPostingsSpec(api: Api, own: string, inc: Increment, postings: seq<Posting>, m: Pending)
    requires PendingOk(m) && AddPostings(api, own, inc, postings, m).Ok?
    ensures var m' := AddPostings(api, own, inc, postings, m).value;
            && PendingOk(m') && Extends(m, m')
            && (forall id, b :: Files(m', id, b) <==>
                  Files(m, id, b) || (b == inc.key && Due(api, own, inc, postings, id)))
            && (forall id :: id in m' <==> id in m || Due(api, own, inc, postings, id))
  {
    if postings != [] {
      var p, rest := postings[0], postings[1..];
      assert forall q :: q in postings <==> q == p || q in rest;
      assert forall id :: Due(api, own, inc, postings, id) <==>
                            Due(api, own, inc, rest, id) || (Relevant(p) && DueFrom(api, own, inc, p, id));
      if !Relevant(p) {
        AddPostingsSpec(api, own, inc, rest, m);
      } else {
        var events := EventsSince(api, p, inc.kind, inc.since).value;
        forall e | e in events ensures e.Identified() {
          EventsWellBuilt(api, p, inc.kind, inc.since, e);
        }
        AddEventsSpec(api, own, inc.key, events, m);
        AddPostingsSpec(api, own, inc, rest, AddEvents(api, own, inc.key, events, m).value);
      }
    }
  }

  lemma {:induction false} AddIncrementsSpec(api: Api, own: string, incs: seq<Increment>, m: Pending)
    requires PendingOk(m) && AddIncrements(api, own, incs, m).Ok?
    ensures var m' := AddIncrements(api, own, incs, m).value;
            && PendingOk(m') && Extends(m, m')
            && (forall id, b :: Files(m', id, b) <==> Files(m, id, b) || DueIn(api, own, incs, b, id))
  {
    if incs != [] {
      var inc, rest := incs[0], incs[1..];
      assert forall x :: x in incs <==> x == inc || x in rest;
      assert forall id, b :: DueIn(api, own, incs, b, id) <==>
                               DueIn(api, own, rest, b, id) || (b == inc.key && Due(api, own, inc, inc.postings, id));
      AddPostingsSpec(api, own, inc, inc.postings, m);
      AddIncrementsSpec(api, own, rest, AddPostings(api, own, inc, inc.postings, m).value);
    }
  }

  /** The identity is due for the box numbered `b`. */
  ghost predicate DueIn(api: Api, own: string, incs: seq<Increment>, b: int, id: string) {
    exists inc :: inc in incs && inc.key == b && Due(api, own, inc, inc.postings, id)
  }

  // ---------------------------------------------------------------- arranging

  lemma {:induction false} ListedSpec(m: Pending)
    requires PendingOk(m)
    ensures Distinct(Listed(m)) && |Listed(m)| == |m|
    ensures forall x :: x in Listed(m) <==> x.event.eventId in m && m[x.event.eventId] == x
  {
    if m != map[] {
      var id :| id in m && Listed(m) == [m[id]] + Listed(m - {id});
      ListedSpec(m - {id});
      assert (m - {id}).Keys == m.Keys - {id};
      DistinctConcat([m[id]], Listed(m - {id}));
    }
  }

  lemma ItemsRanked(m: Pending, s: seq<Item>)
    requires PendingOk(m) && forall x :: x in s ==> x.event.eventId in m && m[x.event.eventId] == x
    ensures StrictTotalOn(ItemLess, set x | x in s)
  {
    var all := set x | x in s;
    forall x, y | x in all && y in all
      ensures (x != y ==> ItemLess(x, y) || ItemLess(y, x)) && (ItemLess(x, y) ==> !ItemLess(y, x))
    {
      LexTotal(x.event.eventId, y.event.eventId);
    }
    forall x, y, z | x in all && y in all && z in all && ItemLess(x, y) && ItemLess(y, z) ensures ItemLess(x, z) {
      if LexLess(x.event.eventId, y.event.eventId) && LexLess(y.event.eventId, z.event.eventId) {
        LexTransitive(x.event.eventId, y.event.eventId, z.event.eventId);
      }
    }
  }

  /** The pending items in emission order: all of them, each once, in strictly increasing rank. */
  lemma ArrangeSpec(m: Pending)
    requires PendingOk(m)
    ensures StrictlySorted(ItemLess, Arrange(m))
    ensures forall x :: x in Arrange(m) <==> x.event.eventId in m && m[x.event.eventId] == x
  {
    var s := Listed(m);
    ListedSpec(m);
    ItemsRanked(m, s);
    SortSpec(ItemLess, s, set x | x in s);
  }

  /** Any strictly sorted listing of the pending items is that order: the map's iteration order is invisible. */
  lemma ArrangeCanonical(m: Pending, s: seq<Item>)
    requires PendingOk(m) && StrictlySorted(ItemLess, s)
    requires forall x :: x in s <==> x.event.eventId in m && m[x.event.eventId] == x
    ensures s == Arrange(m)
  {
    ListedSpec(m);
    ItemsRanked(m, Listed(m));
    SortCanonical(ItemLess, Listed(m), s);
  }

  // ---------------------------------------------------------------- main facts about plans

  lemma BoxesRanked(boxes: seq<Box>)
    requires DistinctBoxes(boxes)
    ensures StrictTotalOn(BoxLess, set x | x in boxes) && Distinct(boxes)
  {
    var all := set x | x in boxes;
    forall x, y | x in all && y in all && x != y ensures BoxLess(x, y) || BoxLess(y, x) {
      var i :| 0 <= i < |boxes| && boxes[i] == x;
      var j :| 0 <= j < |boxes| && boxes[j] == y;
      assert if i < j then boxes[i].id != boxes[j].id else boxes[j].id != boxes[i].id;
    }
  }

  lemma SortedBoxesSame(boxes: seq<Box>, other: seq<Box>)
    requires DistinctBoxes(boxes) && DistinctBoxes(other)
    requires forall x :: x in other <==> x in boxes
    ensures SortBy(BoxLess, other) == SortBy(BoxLess, boxes)
  {
    BoxesRanked(boxes);
    BoxesRanked(other);
    assert (set x | x in other) == set x | x in boxes;
    SortSpec(BoxLess, other, set x | x in other);
    SortCanonical(BoxLess, boxes, SortBy(BoxLess, other));
  }

  /** The plan does not depend on the order in which the boxes are listed. */
  lemma PlanIgnoresBoxOrder(api: Api, boxes: seq<Box>, other: seq<Box>, own: string, cursors: Cursors)
    requires DistinctBoxes(boxes) && DistinctBoxes(other)
    requires forall x :: x in other <==> x in boxes
    ensures PlanOf(api, Some(other), own, cursors) == PlanOf(api, Some(boxes), own, cursors)
  {
    SortedBoxesSame(boxes, other);
  }

  lemma {:induction false} ReadIncrementsSpec(api: Api, cursors: Cursors, boxes: seq<Box>)
    requires ReadIncrements(api, cursors, boxes).Ok?
    ensures var incs := ReadIncrements(api, cursors, boxes).value;
            && |incs| == |boxes|
            && forall i :: 0 <= i < |boxes| ==> Reads(api, cursors, boxes[i], incs[i])
  {
    if boxes != [] {
      ReadIncrementsSpec(api, cursors, boxes[1..]);
    }
  }

  /** `inc` is what the poll reads for `box`. */
  ghost predicate Reads(api: Api, cursors: Cursors, box: Box, inc: Increment) {
    ReadIncrement(api, cursors, box) == Ok(inc)
  }

  lemma {:induction false} SortLength<T>(less: (T, T) -> bool, s: seq<T>)
    ensures |SortBy(less, s)| == |s|
  {
    if s != [] {
      SortLength(less, s[1..]);
      InsertLength(less, s[0], SortBy(less, s[1..]));
    }
  }

  lemma {:induction false} InsertLength<T>(less: (T, T) -> bool, x: T, s: seq<T>)
    ensures |Insert(less, x, s)| == |s| + 1
  {
    if s != [] && less(s[0], x) {
      InsertLength(less, x, s[1..]);
    }
  }

  lemma {:induction false} NextsSpec(incs: seq<Increment>)
    requires forall i, j :: 0 <= i < j < |incs| ==> incs[i].key != incs[j].key
    ensures forall b :: b in Nexts(incs) <==> exists inc :: inc in incs && inc.key == b && inc.next.Some?
    ensures forall inc :: inc in incs && inc.next.Some? ==> Nexts(incs)[inc.key] == inc.next.value
  {
    if incs != [] {
      var inc, rest := incs[0], incs[1..];
      NextsSpec(rest);
      assert forall x :: x in incs <==> x == inc || x in rest;
      forall x | x in rest ensures x.key != inc.key {
        var i :| 0 <= i < |rest| && rest[i] == x;
        assert incs[i + 1] == x;
      }
    }
  }

  // ---------------------------------------------------------------- plans are complete and exact

  ghost predicate KeysIncrease(incs: seq<Increment>) {
    forall i, j :: 0 <= i < j < |incs| ==> incs[i].key < incs[j].key
  }

  lemma SortedIds(boxes: seq<Box>)
    requires DistinctBoxes(boxes)
    ensures forall i, j :: 0 <= i < j < |SortBy(BoxLess, boxes)| ==>
              SortBy(BoxLess, boxes)[i].id < SortBy(BoxLess, boxes)[j].id
    ensures forall box :: box in SortBy(BoxLess, boxes) <==> box in boxes
  {
    var sorted := SortBy(BoxLess, boxes);
    BoxesRanked(boxes);
    SortSpec(BoxLess, boxes, set x | x in boxes);
    forall i, j | 0 <= i < j < |sorted| ensures sorted[i].id < sorted[j].id {
      assert BoxLess(sorted[i], sorted[j]);
    }
  }

  lemma SortedReads(api: Api, boxes: seq<Box>, cursors: Cursors)
    requires DistinctBoxes(boxes) && ReadIncrements(api, cursors, SortBy(BoxLess, boxes)).Ok?
    ensures KeysIncrease(ReadIncrements(api, cursors, SortBy(BoxLess, boxes)).value)
    ensures forall box :: box in boxes ==>
              ReadIncrement(api, cursors, box).Ok?
                && ReadIncrement(api, cursors, box).value in ReadIncrements(api, cursors, SortBy(BoxLess, boxes)).value
  {
    SortedIds(boxes);
    ReadsInOrder(api, SortBy(BoxLess, boxes), cursors);
  }

  lemma ReadsInOrder(api: Api, sorted: seq<Box>, cursors: Cursors)
    requires forall i, j :: 0 <= i < j < |sorted| ==> sorted[i].id < sorted[j].id
    requires ReadIncrements(api, cursors, sorted).Ok?
    ensures KeysIncrease(ReadIncrements(api, cursors, sorted).value)
    ensures forall box :: box in sorted ==>
              ReadIncrement(api, cursors, box).Ok?
                && ReadIncrement(api, cursors, box).value in ReadIncrements(api, cursors, sorted).value
  {
    var incs := ReadIncrements(api, cursors, sorted).value;
    ReadIncrementsSpec(api, cursors, sorted);
    forall box | box in sorted
      ensures ReadIncrement(api, cursors, box).Ok? && ReadIncrement(api, cursors, box).value in incs
    {
      var i :| 0 <= i < |sorted| && sorted[i] == box;
      assert Reads(api, cursors, sorted[i], incs[i]);
    }
    forall i, j | 0 <= i < j < |incs| ensures incs[i].key < incs[j].key {
      assert Reads(api, cursors, sorted[i], incs[i]) && Reads(api, cursors, sorted[j], incs[j]);
    }
  }

  /** A box with postings has a next cursor, and every increment belongs to a box with a cursor. */
  lemma ReadsSpec(api: Api, cursors: Cursors, boxes: seq<Box>, inc: Increment)
    requires ReadIncrements(api, cursors, boxes).Ok? && inc in ReadIncrements(api, cursors, boxes).value
    ensures inc.key in cursors && (inc.postings != [] ==> inc.next.Some?)
  {
    var incs := ReadIncrements(api, cursors, boxes).value;
    ReadIncrementsSpec(api, cursors, boxes);
    var i :| 0 <= i < |incs| && incs[i] == inc;
    assert Reads(api, cursors, boxes[i], incs[i]);
    var c := api.changes(boxes[i].id, cursors[boxes[i].id]).value;
    SortLength(PostingLess, c.added + c.updated);
  }

  lemma OneIncrement(incs: seq<Increment>, a: Increment, b: Increment)
    requires KeysIncrease(incs) && a in incs && b in incs && a.key == b.key
    ensures a == b
  {
    var i :| 0 <= i < |incs| && incs[i] == a;
    var j :| 0 <= j < |incs| && incs[j] == b;
    assert i == j;
  }

  /** The identity is emitted for the box. */
  ghost predicate Emits(plan: Plan, id: string, b: int) {
    exists i :: 0 <= i < |plan.items| && plan.items[i].event.eventId == id && b in plan.items[i].boxes
  }

  /** What a plan's items are: identified events in strict order, each identity once, for boxes that may advance. */
  ghost predicate PlanOk(plan: Plan, base: Cursors) {
    && plan.nexts.Keys <= base.Keys
    && StrictlySorted(ItemLess, plan.items)
    && ItemsFit(plan.items, plan.nexts)
    && OnceEach(plan.items)
  }

  ghost predicate ItemsFit(items: seq<Item>, nexts: Cursors) {
    forall i :: 0 <= i < |items| ==> items[i].event.Identified() && items[i].boxes <= nexts.Keys
  }

  ghost predicate OnceEach(items: seq<Item>) {
    forall i, j :: 0 <= i < j < |items| ==> items[i].event.eventId != items[j].event.eventId
  }

  /** A plan in terms of the increments read: what it emits for each box, and where the box may move. */
  lemma PlanDue(api: Api, boxes: seq<Box>, own: string, cursors: Cursors)
    requires DistinctBoxes(boxes) && PlanOf(api, Some(boxes), own, cursors).Ok?
    ensures PlanOk(PlanOf(api, Some(boxes), own, cursors).value, cursors)
    ensures forall box :: box in boxes ==> ReadIncrement(api, cursors, box).Ok?
    ensures forall box, id :: box in boxes ==>
              (Emits(PlanOf(api, Some(boxes), own, cursors).value, id, box.id) <==>
               Due(api, own, ReadIncrement(api, cursors, box).value, ReadIncrement(api, cursors, box).value.postings,
                 id))
    ensures forall box :: box in boxes ==>
              NextIs(PlanOf(api, Some(boxes), own, cursors).value, box.id, ReadIncrement(api, cursors, box).value.next)
  {
    SortedReads(api, boxes, cursors);
    PlanItems(api, own, cursors, boxes);
    forall box | box in boxes
      ensures NextIs(PlanOf(api, Some(boxes), own, cursors).value, box.id, ReadIncrement(api, cursors, box).value.next)
    {
      NextOfBox(ReadIncrements(api, cursors, SortBy(BoxLess, boxes)).value, ReadIncrement(api, cursors, box).value);
    }
    forall box, id | box in boxes
      ensures Emits(PlanOf(api, Some(boxes), own, cursors).value, id, box.id) <==>
              Due(api, own, ReadIncrement(api, cursors, box).value, ReadIncrement(api, cursors, box).value.postings, id)
    {
      EmitsDue(api, boxes, own, cursors, ReadIncrement(api, cursors, box).value, id);
    }
  }

  lemma EmitsDue(api: Api, boxes: seq<Box>, own: string, cursors: Cursors, inc: Increment, id: string)
    requires DistinctBoxes(boxes) && PlanOf(api, Some(boxes), own, cursors).Ok?
    requires inc in ReadIncrements(api, cursors, SortBy(BoxLess, boxes)).value
    ensures Emits(PlanOf(api, Some(boxes), own, cursors).value, id, inc.key) <==> Due(api, own, inc, inc.postings, id)
  {
    var incs := ReadIncrements(api, cursors, SortBy(BoxLess, boxes)).value;
    var m := AddIncrements(api, own, incs, map[]).value;
    SortedReads(api, boxes, cursors);
    AddIncrementsSpec(api, own, incs, map[]);
    ArrangeSpec(m);
    EmitsFiles(PlanOf(api, Some(boxes), own, cursors).value, m, id, inc.key);
    if DueIn(api, own, incs, inc.key, id) {
      var other :| other in incs && other.key == inc.key && Due(api, own, other, other.postings, id);
      OneIncrement(incs, inc, other);
    }
  }

  ghost predicate NextIs(plan: Plan, b: int, next: Option<Cursor>) {
    if next.Some? then b in plan.nexts && plan.nexts[b] == next.value else b !in plan.nexts
  }

  lemma NextOfBox(incs: seq<Increment>, inc: Increment)
    requires KeysIncrease(incs) && inc in incs
    ensures NextIs(Plan(Nexts(incs), []), inc.key, inc.next)
  {
    NextsSpec(incs);
    if inc.key in Nexts(incs) {
      var other :| other in incs && other.key == inc.key && other.next.Some?;
      OneIncrement(incs, inc, other);
    }
  }

  lemma PlanItems(api: Api, own: string, cursors: Cursors, boxes: seq<Box>)
    requires DistinctBoxes(boxes) && PlanOf(api, Some(boxes), own, cursors).Ok?
    ensures PlanOk(PlanOf(api, Some(boxes), own, cursors).value, cursors)
  {
    var sorted := SortBy(BoxLess, boxes);
    var incs := ReadIncrements(api, cursors, sorted).value;
    var m := AddIncrements(api, own, incs, map[]).value;
    SortedReads(api, boxes, cursors);
    AddIncrementsSpec(api, own, incs, map[]);
    ArrangeSpec(m);
    ItemsDistinct(m);
    NextsSpec(incs);
    var items := Arrange(m);
    forall i | 0 <= i < |items| ensures items[i].event.Identified() && items[i].boxes <= Nexts(incs).Keys {
      var item := items[i];
      assert item in items;
      forall b | b in item.boxes ensures b in Nexts(incs) {
        assert Files(m, item.event.eventId, b);
        var inc :| inc in incs && inc.key == b && Due(api, own, inc, inc.postings, item.event.eventId);
        ReadsSpec(api, cursors, sorted, inc);
      }
    }
    forall b | b in Nexts(incs) ensures b in cursors {
      var inc :| inc in incs && inc.key == b && inc.next.Some?;
      ReadsSpec(api, cursors, sorted, inc);
    }
  }

  lemma EmitsFiles(plan: Plan, m: Pending, id: string, b: int)
    requires PendingOk(m) && forall x :: x in plan.items <==> x.event.eventId in m && m[x.event.eventId] == x
    ensures Emits(plan, id, b) <==> Files(m, id, b)
  {
    if Files(m, id, b) {
      assert m[id] in plan.items;
    }
    if Emits(plan, id, b) {
      var i :| 0 <= i < |plan.items| && plan.items[i].event.eventId == id && b in plan.items[i].boxes;
      assert plan.items[i] in plan.items;
    }
  }

  lemma ItemsDistinct(m: Pending)
    requires PendingOk(m)
    ensures OnceEach(Arrange(m))
  {
    var s := Arrange(m);
    ArrangeSpec(m);
    forall i, j | 0 <= i < j < |s| ensures s[i].event.eventId != s[j].event.eventId {
      assert s[i] in s && s[j] in s && ItemLess(s[i], s[j]);
      LexTotal(s[i].event.eventId, s[j].event.eventId);
    }
  }
}
