/** From a posting to events: entry hydration and the bounded burst newer than a cursor. */
module Hydration {
  import opened Wrappers
  import opened Sequences
  import opened Decimal
  import opened Events

  /** Instants, counted from Go's zero time. */
  type Time = int
  const ZERO_TIME: Time := 0

  datatype Contact = Contact(id: int, name: string, email: string)
  datatype Entry = Entry(id: int, kind: string, createdAt: Time, creator: Contact, summary: string)
  datatype MessageData = MessageData(id: int, createdAt: Time, creator: Contact, content: string)
  datatype Posting = Posting(id: int, accountId: int, kind: string, appUrl: string, name: string)
  datatype Box = Box(id: int, kind: string, changesUrl: string)
  datatype Cursor = Cursor(since: string, version: string)
  datatype Changes =
    Changes(fullSyncRequired: bool, added: seq<Posting>, updated: seq<Posting>, deleted: nat, next: Option<Cursor>)
  datatype Page = Page(entries: seq<Entry>, nextPage: string)

  datatype WatchError =
    | ListBoxesFailed | BadCursorState | NotInitialized | BadBoxCursor | MissingBox | BadTimestamp
    | ChangesFailed | FullSyncRequired | MissingNextCursor | BadNextCursor
    | BadTopicUrl | EntriesFailed | HydrateFailed | BadEventTime

  /**
   The environment of one poll: the API's answers other than the box listing (`None` for an error
   or no data) and the text functions of the Go library that the watch code calls.
   */
  datatype Api = Api(
    changes: (int, Cursor) -> Option<Changes>,
    entries: int -> Option<seq<Entry>>,
    message: int -> Option<MessageData>,
    topicOf: string -> Option<int>,
    cursorOf: string -> Option<Cursor>,
    formatTime: Time -> string,
    parseTime: string -> Option<Time>,
    normalize: string -> string,
    sameAddress: (string, string) -> bool)

  datatype Hydrated = Hydrated(event: HeyEvent, createdAt: Time)

  predicate Supported(entry: Entry) {
    entry.kind == "message" || entry.kind == "comment"
  }

  function BuildEvent(api: Api, posting: Posting, thread: nat, entry: nat, kind: Kind, creator: Contact,
                      content: string, createdAt: Time, boxKind: string): HeyEvent {
    HeyEvent(EventId(thread, entry), kind, posting.id, thread, entry, posting.accountId, creator.id,
             creator.name, api.normalize(creator.email), posting.name, content, TopicUrl(thread),
             api.formatTime(createdAt), boxKind)
  }

  predicate CommentComplete(entry: Entry) {
    entry.id > 0 && entry.createdAt != ZERO_TIME && entry.creator.id > 0
    && !Blank(entry.creator.email) && !Blank(entry.summary)
  }

  predicate MessageMatches(id: int, message: MessageData) {
    id > 0 && message.id > 0 && message.id == id
  }

  /** `hydrateEntry`: a comment is taken from its entry, a message is fetched. */
  function HydrateEntry(api: Api, posting: Posting, thread: nat, entry: Entry,
          boxKind: string): Result<Hydrated, WatchError>
  {
    if entry.kind == "message" then
      var message := api.message(entry.id);
      if message.None? || !MessageMatches(entry.id, message.value) then Err(HydrateFailed)
      else
        var m := message.value;
        Ok(Hydrated(
          BuildEvent(api, posting, thread, entry.id, Message, m.creator, m.content, m.createdAt, boxKind),
          m.createdAt))
    else if entry.kind == "comment" then
      if !CommentComplete(entry) then Err(HydrateFailed)
      else
        Ok(Hydrated(
          BuildEvent(
            api, posting, thread, entry.id, Comment, entry.creator, entry.summary, entry.createdAt, boxKind),
          entry.createdAt))
    else Err(HydrateFailed)
  }

  /** Hydrated supported entries from the front, up to the first that is not newer than `since`. */
  function NewerPrefix(api: Api, posting: Posting, thread: nat, entries: seq<Entry>, boxKind: string, since: Time)
    : Result<seq<HeyEvent>, WatchError>
  {
    if entries == [] then Ok([])
    else if !Supported(entries[0]) then NewerPrefix(api, posting, thread, entries[1..], boxKind, since)
    else
      var h :- HydrateEntry(api, posting, thread, entries[0], boxKind);
      if h.createdAt <= since then Ok([])
      else
        var rest :- NewerPrefix(api, posting, thread, entries[1..], boxKind, since);
        Ok([h.event] + rest)
  }

  /** What `hydratePostingSince` returns: that prefix, oldest first. */
  function EventsSince(api: Api, posting: Posting, boxKind: string, since: Time): Result<seq<HeyEvent>, WatchError> {
    var thread := api.topicOf(posting.appUrl);
    if thread.None? || thread.value <= 0 then Err(BadTopicUrl)
    else
      var entries := api.entries(thread.value);
      if entries.None? then Err(EntriesFailed)
      else
        var events :- NewerPrefix(api, posting, thread.value, entries.value, boxKind, since);
        Ok(Reverse(events))
  }

  /** `hydratePostingSince`: the loop with its early break, then the reversal in place. */
  method HydratePostingSince(api: Api, posting: Posting, boxKind: string, since: Time)
    returns (r: Result<seq<HeyEvent>, WatchError>)
    ensures r == EventsSince(api, posting, boxKind, since)
  {
    var thread := api.topicOf(posting.appUrl);
    if thread.None? || thread.value <= 0 {
      return Err(BadTopicUrl);
    }
    var listed := api.entries(thread.value);
    if listed.None? {
      return Err(EntriesFailed);
    }
    var t: nat, entries := thread.value, listed.value;
    ghost var whole := NewerPrefix(api, posting, t, entries, boxKind, since);
    var events: seq<HeyEvent> := [];
    var i := 0;
    assert entries[0..] == entries;
    PrependNothing(whole);
    while i < |entries|
      invariant 0 <= i <= |entries|
      invariant whole == Prepend(events, NewerPrefix(api, posting, t, entries[i..], boxKind, since))
    {
      var entry := entries[i];
      assert entries[i..][1..] == entries[i + 1..];
      if Supported(entry) {
        var h := HydrateEntry(api, posting, t, entry, boxKind);
        if h.Err? {
          return Err(h.error);
        }
        if h.value.createdAt <= since {
          assert whole == Ok(events + []);
          break;
        }
        PrependAssoc(events, h.value.event, NewerPrefix(api, posting, t, entries[i + 1..], boxKind, since));
        events := events + [h.value.event];
      }
      i := i + 1;
    }
    assert events + [] == events;
    events := ReverseInPlace(events);
    return Ok(events);
  }

  method ReverseInPlace<T>(before: seq<T>) returns (events: seq<T>)
    ensures events == Reverse(before)
  {
    events := before;
    ghost var mirror := Reverse(before);
    var left, right := 0, |events| - 1;
    while left < right
      invariant 0 <= left && left + right == |before| - 1 && |events| == |before| && left <= right + 1
      invariant forall k :: 0 <= k < left ==> events[k] == mirror[k]
      invariant forall k :: right < k < |before| ==> events[k] == mirror[k]
      invariant forall k :: left <= k <= right ==> events[k] == before[k]
    {
      assert mirror[left] == before[right] && mirror[right] == before[left];
      events := events[left := events[right]][right := events[left]];
      left, right := left + 1, right - 1;
    }
    assert left == right ==> mirror[left] == before[left];
    assert forall k :: 0 <= k < |before| ==> events[k] == mirror[k];
  }

  lemma PrependNothing(tail: Result<seq<HeyEvent>, WatchError>)
    ensures Prepend([], tail) == tail
  {
    if tail.Ok? {
      assert [] + tail.value == tail.value;
    }
  }

  ghost function Prepend(head: seq<HeyEvent>, tail: Result<seq<HeyEvent>, WatchError>)
    : Result<seq<HeyEvent>, WatchError>
  {
    if tail.Ok? then Ok(head + tail.value) else tail
  }

  lemma PrependAssoc(head: seq<HeyEvent>, e: HeyEvent, tail: Result<seq<HeyEvent>, WatchError>)
    ensures Prepend(head, Prepend([e], tail)) == Prepend(head + [e], tail)
  {
    if tail.Ok? {
      assert head + ([e] + tail.value) == head + [e] + tail.value;
    }
  }

  // ---------------------------------------------------------------- the events, in terms of the entries alone

  /** A message or a comment; entries of other kinds are no concern of the bridge. */
  predicate IsOfAThread(entry: Entry) {
    entry.kind in {"message", "comment"}
  }

  /** When the entry was created: a message's time is that of the message fetched, a comment's its own. */
  function CreatedAt(api: Api, entry: Entry): Option<Time> {
    if entry.kind == "message" && api.message(entry.id).Some? then Some(api.message(entry.id).value.createdAt)
    else if entry.kind == "comment" then Some(entry.createdAt)
    else None
  }

  predicate CreatedAfter(api: Api, entry: Entry, since: Time) {
    CreatedAt(api, entry).Some? && CreatedAt(api, entry).value > since
  }

  /** The entry has all that its event needs. */
  predicate Complete(api: Api, entry: Entry) {
    || (entry.kind == "message" && entry.id > 0
        && api.message(entry.id).Some? && api.message(entry.id).value.id == entry.id)
    || (entry.kind == "comment" && entry.id > 0 && entry.createdAt != ZERO_TIME
        && entry.creator.id > 0 && !Blank(entry.creator.email) && !Blank(entry.summary))
  }

  /** The event tells of this entry of the posting's thread. */
  predicate TellsOf(api: Api, posting: Posting, thread: nat, entry: Entry, boxKind: string, e: HeyEvent) {
    && entry.id > 0 && e.eventId == EventId(thread, entry.id) && e.threadId == thread && e.entryId == entry.id
    && e.postingId == posting.id && e.accountId == posting.accountId && e.subject == posting.name
    && e.boxKind == boxKind && e.appUrl == "https://app.hey.com/topics/" + Render(thread)
    && match e.kind
       case Message =>
         && entry.kind == "message" && api.message(entry.id).Some?
         && var m := api.message(entry.id).value;
            && e.senderId == m.creator.id && e.senderName == m.creator.name
            && e.senderEmail == api.normalize(m.creator.email)
            && e.content == m.content && e.createdAt == api.formatTime(m.createdAt)
       case Comment =>
         && entry.kind == "comment"
         && e.senderId == entry.creator.id && e.senderName == entry.creator.name
         && e.senderEmail == api.normalize(entry.creator.email)
         && e.content == entry.summary && e.createdAt == api.formatTime(entry.createdAt)
  }

  /** The listing never goes forward in time. */
  ghost predicate Descends(api: Api, entries: seq<Entry>) {
    forall i, j :: 0 <= i < j < |entries| && CreatedAt(api, entries[i]).Some? && CreatedAt(api, entries[j]).Some? ==>
        CreatedAt(api, entries[i]).value >= CreatedAt(api, entries[j]).value
  }

  /** `picked` lists, in order, the places of the entries created after `since`. */
  ghost predicate Places(api: Api, entries: seq<Entry>, since: Time, picked: seq<nat>) {
    && (forall k :: 0 <= k < |picked| ==> picked[k] < |entries|)
    && (forall k, n :: 0 <= k < n < |picked| ==> picked[k] < picked[n])
    && (forall i :: 0 <= i < |entries| ==> (i in picked <==> CreatedAfter(api, entries[i], since)))
  }

  /** The events tell of the entries at these places, in turn. */
  ghost predicate TellInTurn(api: Api, posting: Posting, thread: nat, entries: seq<Entry>, boxKind: string,
          picked: seq<nat>, events: seq<HeyEvent>)
  {
    |events| == |picked| && forall k :: 0 <= k < |picked| ==>
      picked[k] < |entries| && TellsOf(api, posting, thread, entries[picked[k]], boxKind, events[k])
  }

  lemma HydratesExactly(api: Api, posting: Posting, thread: nat, entry: Entry, boxKind: string)
    ensures Supported(entry) <==> IsOfAThread(entry)
    ensures HydrateEntry(api, posting, thread, entry, boxKind).Ok? <==> Complete(api, entry)
    ensures Complete(api, entry) ==>
              var h := HydrateEntry(api, posting, thread, entry, boxKind).value;
              CreatedAt(api, entry) == Some(h.createdAt) && TellsOf(api, posting, thread, entry, boxKind, h.event)
    ensures !Complete(api, entry) ==> HydrateEntry(api, posting, thread, entry, boxKind) == Err(HydrateFailed)
  {
    assert "comment"[0] != "message"[0];
  }

  lemma {:induction false} PrefixPicks(api: Api, posting: Posting, thread: nat, entries: seq<Entry>, boxKind: string,
          since: Time)
    returns (picked: seq<nat>)
    requires Descends(api, entries) && NewerPrefix(api, posting, thread, entries, boxKind, since).Ok?
    ensures Places(api, entries, since, picked)
    ensures TellInTurn(api, posting, thread, entries, boxKind, picked,
                       NewerPrefix(api, posting, thread, entries, boxKind, since).value)
  {
    picked := [];
    if entries != [] {
      var entry, rest := entries[0], entries[1..];
      HydratesExactly(api, posting, thread, entry, boxKind);
      assert forall i :: 0 <= i < |rest| ==> rest[i] == entries[i + 1];
      if Supported(entry) && HydrateEntry(api, posting, thread, entry, boxKind).value.createdAt <= since {
        forall i | 0 <= i < |entries| ensures !CreatedAfter(api, entries[i], since) {
        }
      } else {
        var later := PrefixPicks(api, posting, thread, rest, boxKind, since);
        var events := NewerPrefix(api, posting, thread, rest, boxKind, since).value;
        PlacesShift(api, entries, since, later);
        TellShift(api, posting, thread, entries, boxKind, later, events);
        picked := Shifted(later);
        if Supported(entry) {
          TellCons(api, posting, thread, entries, boxKind, picked,
                   HydrateEntry(api, posting, thread, entry, boxKind).value.event, events);
          picked := [0] + picked;
        }
      }
    }
  }

  function Shifted(places: seq<nat>): (r: seq<nat>)
    ensures |r| == |places| && forall k :: 0 <= k < |r| ==> r[k] == places[k] + 1
  {
    if places == [] then [] else [places[0] + 1] + Shifted(places[1..])
  }

  lemma ShiftedPlaces(places: seq<nat>, i: nat)
    ensures i in Shifted(places) <==> i > 0 && i - 1 in places
  {
    if i > 0 && i - 1 in places {
      var k :| 0 <= k < |places| && places[k] == i - 1;
      assert Shifted(places)[k] == i;
    }
  }

  lemma PlacesShift(api: Api, entries: seq<Entry>, since: Time, later: seq<nat>)
    requires entries != [] && Places(api, entries[1..], since, later)
    ensures !CreatedAfter(api, entries[0], since) ==> Places(api, entries, since, Shifted(later))
    ensures CreatedAfter(api, entries[0], since) ==> Places(api, entries, since, [0] + Shifted(later))
  {
    var picked := [0] + Shifted(later);
    forall i | 0 <= i < |entries| && i > 0 ensures i in Shifted(later) <==> CreatedAfter(api, entries[i], since) {
      ShiftedPlaces(later, i);
      assert entries[1..][i - 1] == entries[i];
    }
    ShiftedPlaces(later, 0);
    assert forall i :: i in picked <==> i == 0 || i in Shifted(later);
  }

  lemma TellShift(api: Api, posting: Posting, thread: nat, entries: seq<Entry>, boxKind: string, later: seq<nat>,
          events: seq<HeyEvent>)
    requires entries != [] && TellInTurn(api, posting, thread, entries[1..], boxKind, later, events)
    ensures TellInTurn(api, posting, thread, entries, boxKind, Shifted(later), events)
  {
    forall k | 0 <= k < |later| ensures entries[1..][later[k]] == entries[later[k] + 1] {
    }
  }

  lemma TellCons(api: Api, posting: Posting, thread: nat, entries: seq<Entry>, boxKind: string, picked: seq<nat>,
          e: HeyEvent, events: seq<HeyEvent>)
    requires entries != [] && TellInTurn(api, posting, thread, entries, boxKind, picked, events)
    requires TellsOf(api, posting, thread, entries[0], boxKind, e)
    ensures TellInTurn(api, posting, thread, entries, boxKind, [0] + picked, [e] + events)
  {
  }

  /**
   `hydratePostingSince` on a listing that goes back in time: its events tell, oldest first, of exactly the
   messages and the comments created after `since`, and of no entry of another kind.
   */
  lemma SinceTellsExactly(api: Api, posting: Posting, boxKind: string, since: Time, thread: nat, entries: seq<Entry>)
    returns (picked: seq<nat>)
    requires EventsSince(api, posting, boxKind, since).Ok?
    requires api.topicOf(posting.appUrl) == Some(thread) && api.entries(thread) == Some(entries)
    requires Descends(api, entries)
    ensures Places(api, entries, since, picked)
    ensures TellInTurn(api, posting, thread, entries, boxKind, picked,
                       Reverse(EventsSince(api, posting, boxKind, since).value))
  {
    picked := PrefixPicks(api, posting, thread, entries, boxKind, since);
    ReverseTwice(NewerPrefix(api, posting, thread, entries, boxKind, since).value);
  }

  lemma ReverseTwice<T>(s: seq<T>)
    ensures Reverse(Reverse(s)) == s
  {
    assert forall i :: 0 <= i < |s| ==> Reverse(Reverse(s))[i] == s[i];
  }

  /** Some message or comment is incomplete, and all before it are complete and newer than the cursor. */
  ghost predicate IncompleteFirst(api: Api, entries: seq<Entry>, since: Time) {
    exists i :: 0 <= i < |entries| && StopsAt(api, entries, since, i)
  }

  ghost predicate StopsAt(api: Api, entries: seq<Entry>, since: Time, i: nat)
    requires i < |entries|
  {
    && IsOfAThread(entries[i]) && !Complete(api, entries[i])
    && forall j :: 0 <= j < i && IsOfAThread(entries[j]) ==>
         Complete(api, entries[j]) && CreatedAfter(api, entries[j], since)
  }

  lemma StopsLater(api: Api, entries: seq<Entry>, since: Time, i: nat)
    requires 0 < i < |entries|
    ensures StopsAt(api, entries, since, i) <==>
              && StopsAt(api, entries[1..], since, i - 1)
              && (IsOfAThread(entries[0]) ==> Complete(api, entries[0]) && CreatedAfter(api, entries[0], since))
  {
    var rest := entries[1..];
    assert forall j :: 0 < j < |entries| ==> entries[j] == rest[j - 1];
    assert forall j :: 0 <= j < |rest| ==> rest[j] == entries[j + 1];
  }

  /** How `hydratePostingSince` ends: the walk fails only on an incomplete entry before any that is not newer. */
  lemma SinceEnds(api: Api, posting: Posting, boxKind: string, since: Time)
    ensures var thread, r := api.topicOf(posting.appUrl), EventsSince(api, posting, boxKind, since);
            if thread.None? || thread.value <= 0 then r == Err(BadTopicUrl)
            else if api.entries(thread.value).None? then r == Err(EntriesFailed)
            else if IncompleteFirst(api, api.entries(thread.value).value, since) then r == Err(HydrateFailed)
            else r.Ok?
  {
    var thread := api.topicOf(posting.appUrl);
    if thread.Some? && thread.value > 0 && api.entries(thread.value).Some? {
      PrefixEnds(api, posting, thread.value, api.entries(thread.value).value, boxKind, since);
    }
  }

  lemma {:induction false} PrefixEnds(api: Api, posting: Posting, thread: nat, entries: seq<Entry>, boxKind: string,
          since: Time)
    ensures var r := NewerPrefix(api, posting, thread, entries, boxKind, since);
            if IncompleteFirst(api, entries, since) then r == Err(HydrateFailed) else r.Ok?
  {
    if entries != [] {
      var entry, rest := entries[0], entries[1..];
      HydratesExactly(api, posting, thread, entry, boxKind);
      PrefixEnds(api, posting, thread, rest, boxKind, since);
      if IncompleteFirst(api, rest, since) {
        var i :| 0 <= i < |rest| && StopsAt(api, rest, since, i);
        StopsLater(api, entries, since, i + 1);
      }
      if IncompleteFirst(api, entries, since) {
        var i :| 0 <= i < |entries| && StopsAt(api, entries, since, i);
        if i > 0 {
          StopsLater(api, entries, since, i);
        }
      } else {
        assert !StopsAt(api, entries, since, 0);
      }
    }
  }

  // ---------------------------------------------------------------- the break and the plain filter

  predicate Newer(api: Api, posting: Posting, thread: nat, entry: Entry, boxKind: string, since: Time) {
    IsOfAThread(entry) && HydrateEntry(api, posting, thread, entry, boxKind).Ok?
    && HydrateEntry(api, posting, thread, entry, boxKind).value.createdAt > since
  }

  /** Every message or comment created strictly after `since`, in listing order. */
  function AllNewer(api: Api, posting: Posting, thread: nat, entries: seq<Entry>, boxKind: string,
          since: Time): seq<HeyEvent>
  {
    if entries == [] then []
    else
      var rest := AllNewer(api, posting, thread, entries[1..], boxKind, since);
      if Newer(api, posting, thread, entries[0], boxKind, since)
      then [HydrateEntry(api, posting, thread, entries[0], boxKind).value.event] + rest
      else rest
  }

  /** The listing never goes forward in time, over the entries that hydrate. */
  ghost predicate NewestFirst(api: Api, posting: Posting, thread: nat, entries: seq<Entry>, boxKind: string) {
    forall i, j :: 0 <= i < j < |entries| && IsOfAThread(entries[i]) && IsOfAThread(entries[j]) ==>
      var a := HydrateEntry(api, posting, thread, entries[i], boxKind);
      var b := HydrateEntry(api, posting, thread, entries[j], boxKind);
      a.Ok? && b.Ok? ==> a.value.createdAt >= b.value.createdAt
  }

  lemma {:induction false} NoneNewer(api: Api, posting: Posting, thread: nat, entries: seq<Entry>, boxKind: string,
          since: Time)
    requires forall i :: 0 <= i < |entries| ==> !Newer(api, posting, thread, entries[i], boxKind, since)
    ensures AllNewer(api, posting, thread, entries, boxKind, since) == []
  {
    if entries != [] {
      NoneNewer(api, posting, thread, entries[1..], boxKind, since);
    }
  }

  /** Over a newest-first listing the early break loses nothing. */
  lemma {:induction false} BreakLosesNothing(api: Api, posting: Posting, thread: nat, entries: seq<Entry>,
          boxKind: string, since: Time)
    requires NewestFirst(api, posting, thread, entries, boxKind)
    requires NewerPrefix(api, posting, thread, entries, boxKind, since).Ok?
    ensures NewerPrefix(api, posting, thread, entries, boxKind, since).value
            == AllNewer(api, posting, thread, entries, boxKind, since)
  {
    if entries != [] {
      var rest := entries[1..];
      forall i | 0 <= i < |rest| ensures rest[i] == entries[i + 1] {
      }
      if Supported(entries[0]) && HydrateEntry(api, posting, thread, entries[0], boxKind).value.createdAt <= since {
        forall i | 0 <= i < |rest| ensures !Newer(api, posting, thread, rest[i], boxKind, since) {
          assert entries[i + 1] == rest[i];
        }
        NoneNewer(api, posting, thread, rest, boxKind, since);
      } else {
        BreakLosesNothing(api, posting, thread, rest, boxKind, since);
      }
    }
  }

  /** `hydratePostingSince` on a newest-first listing: exactly the newer messages and comments, oldest first. */
  lemma SinceIsExact(api: Api, posting: Posting, boxKind: string, since: Time, thread: nat, entries: seq<Entry>)
    requires EventsSince(api, posting, boxKind, since).Ok?
    requires api.topicOf(posting.appUrl) == Some(thread) && api.entries(thread) == Some(entries)
    requires NewestFirst(api, posting, thread, entries, boxKind)
    ensures EventsSince(api, posting, boxKind, since).value
            == Reverse(AllNewer(api, posting, thread, entries, boxKind, since))
  {
    BreakLosesNothing(api, posting, thread, entries, boxKind, since);
  }

  /** Without that ordering: the newer entries of the longest prefix whose supported entries are all newer. */
  lemma {:induction false} SinceIsLongestPrefix(api: Api, posting: Posting, thread: nat, entries: seq<Entry>,
          boxKind: string, since: Time)
    returns (n: nat)
    requires NewerPrefix(api, posting, thread, entries, boxKind, since).Ok?
    ensures n <= |entries|
    ensures NewerPrefix(api, posting, thread, entries, boxKind, since).value
            == AllNewer(api, posting, thread, entries[..n], boxKind, since)
    ensures forall i :: 0 <= i < n && IsOfAThread(entries[i]) ==>
              Newer(api, posting, thread, entries[i], boxKind, since)
    ensures n < |entries| ==> IsOfAThread(entries[n]) && !Newer(api, posting, thread, entries[n], boxKind, since)
  {
    if entries == [] {
      n := 0;
    } else if Supported(entries[0])
      && HydrateEntry(api, posting, thread, entries[0], boxKind).value.createdAt <= since {
      n := 0;
    } else {
      var m := SinceIsLongestPrefix(api, posting, thread, entries[1..], boxKind, since);
      n := m + 1;
      assert entries[..n][1..] == entries[1..][..m];
    }
  }

  // ---------------------------------------------------------------- what the events are

  /** A produced event carries the identity of its thread and entry, and its entry's kind. */
  ghost predicate WellBuilt(e: HeyEvent, posting: Posting, thread: nat) {
    && e.Identified() && e.threadId == thread && e.appUrl == TopicUrl(thread)
    && e.postingId == posting.id && e.accountId == posting.accountId
  }

  lemma {:induction false} PrefixWellBuilt(api: Api, posting: Posting, thread: nat, entries: seq<Entry>,
          boxKind: string, since: Time)
    requires thread > 0 && NewerPrefix(api, posting, thread, entries, boxKind, since).Ok?
    ensures forall e :: e in NewerPrefix(api, posting, thread, entries, boxKind, since).value ==>
              WellBuilt(e, posting, thread)
              && exists k :: 0 <= k < |entries| && entries[k].id == e.entryId && entries[k].kind == KindText(e.kind)
  {
    if entries != [] {
      var rest := entries[1..];
      if NewerPrefix(api, posting, thread, rest, boxKind, since).Ok? {
        PrefixWellBuilt(api, posting, thread, rest, boxKind, since);
        forall e | e in NewerPrefix(api, posting, thread, rest, boxKind, since).value
          ensures exists k :: 0 <= k < |entries| && entries[k].id == e.entryId && entries[k].kind == KindText(e.kind)
        {
          var k :| 0 <= k < |rest| && rest[k].id == e.entryId && rest[k].kind == KindText(e.kind);
          assert entries[k + 1] == rest[k];
        }
      }
    }
  }

  /**
   Every event of a posting is well built and has the kind of the entry it came from.
   */
  lemma EventsWellBuilt(api: Api, posting: Posting, boxKind: string, since: Time, e: HeyEvent)
    requires EventsSince(api, posting, boxKind, since).Ok?
    requires e in EventsSince(api, posting, boxKind, since).value
    ensures api.topicOf(posting.appUrl).Some? && api.topicOf(posting.appUrl).value == e.threadId > 0
    ensures WellBuilt(e, posting, e.threadId)
    ensures api.entries(e.threadId).Some?
    ensures exists k :: 0 <= k < |api.entries(e.threadId).value|
              && api.entries(e.threadId).value[k].id == e.entryId
              && api.entries(e.threadId).value[k].kind == KindText(e.kind)
  {
    var thread := api.topicOf(posting.appUrl).value;
    var entries := api.entries(thread).value;
    PrefixWellBuilt(api, posting, thread, entries, boxKind, since);
    assert e in NewerPrefix(api, posting, thread, entries, boxKind, since).value;
  }

  /**
   A host takes the frame of a posting's event, unchanged, exactly when the posting and sender numbers are
   positive and the posting is of its own account, a positive number.
   */
  lemma HostTakesExactly(api: Api, posting: Posting, boxKind: string, since: Time, e: HeyEvent, account: int)
    requires EventsSince(api, posting, boxKind, since).Ok?
    requires e in EventsSince(api, posting, boxKind, since).value
    ensures PostReady(account, EventFrame(e)) ==
            if posting.id > 0 && posting.accountId == account > 0 && e.senderId > 0 then Some(e) else None
  {
    EventsWellBuilt(api, posting, boxKind, since, e);
    PostReadyExact(account, e);
  }

  /** An API with one topic, of one entry: a message whose creator has this number. */
  function OneMessage(creator: int): Api {
    Api((box: int, cursor: Cursor) => None,
        (thread: int) => Some([Entry(7, "message", 5, Contact(creator, "Ann", "ann@example.com"), "")]),
        (id: int) => Some(MessageData(id, 5, Contact(creator, "Ann", "ann@example.com"), "Hello")),
        (url: string) => Some(3), (url: string) => None,
        (time: Time) => "", (text: string) => Some(5), (email: string) => email, (a: string, b: string) => a == b)
  }

  /** A message is built into an event whatever its creator's number; with 0 no host takes it, of any account. */
  lemma ZeroCreatorRefused(account: nat, creator: nat)
    requires account > 0
    ensures var events := EventsSince(OneMessage(creator), Posting(1, account, "topic", "", ""), "imbox", 0);
            && events.Ok? && |events.value| == 1 && events.value[0].senderId == creator
            && PostReady(account, EventFrame(events.value[0])) == if creator == 0 then None else Some(events.value[0])
  {
    var api, posting := OneMessage(creator), Posting(1, account, "topic", "", "");
    var entries := api.entries(3).value;
    assert entries[1..] == [];
    assert NewerPrefix(api, posting, 3, [], "imbox", 0) == Ok([]);
    var h := HydrateEntry(api, posting, 3, entries[0], "imbox");
    assert h.Ok? && h.value.createdAt == 5;
    assert [h.value.event] + [] == [h.value.event];
    assert NewerPrefix(api, posting, 3, entries, "imbox", 0) == Ok([h.value.event]);
    assert Reverse([h.value.event]) == [h.value.event];
    PostReadyExact(account, h.value.event);
  }

  // ---------------------------------------------------------------- listing pages

  const MAX_PAGES: nat := 100

  /** The pages reached from `page` by following links, `budget` of them at most, all present. */
  ghost predicate Chain(fetch: string -> Option<Page>, page: string, pages: seq<Page>)
    decreases pages
  {
    pages != [] && fetch(page) == Some(pages[0])
    && (if |pages| == 1 then pages[0].nextPage == ""
        else pages[0].nextPage != "" && Chain(fetch, pages[0].nextPage, pages[1..]))
  }

  function Joined(pages: seq<Page>): seq<Entry> {
    if pages == [] then [] else pages[0].entries + Joined(pages[1..])
  }

  function Listing(fetch: string -> Option<Page>, page: string, budget: nat): Option<seq<Entry>>
    decreases budget
  {
    if budget == 0 || fetch(page).None? then None
    else if fetch(page).value.nextPage == "" then Some(fetch(page).value.entries)
    else
      var rest := Listing(fetch, fetch(page).value.nextPage, budget - 1);
      if rest.None? then None else Some(fetch(page).value.entries + rest.value)
  }

  /** `TopicEntries`: the bounded page loop. It returns the chain of pages when there is one of at most a hundred. */
  method TopicEntries(fetch: string -> Option<Page>) returns (r: Option<seq<Entry>>)
    ensures r == Listing(fetch, "", MAX_PAGES)
    ensures IsListing(fetch, "", 100, r)
  {
    ListingExact(fetch, "", MAX_PAGES);
    var entries: seq<Entry>, page, count := [], "", 0;
    ghost var whole := Listing(fetch, "", MAX_PAGES);
    assert whole.Some? ==> [] + whole.value == whole.value;
    while count < MAX_PAGES
      invariant 0 <= count <= MAX_PAGES && whole == After(entries, Listing(fetch, page, MAX_PAGES - count))
    {
      var result := fetch(page);
      if result.None? {
        return None;
      }
      ListingStep(fetch, page, MAX_PAGES - count, entries);
      entries := entries + result.value.entries;
      if result.value.nextPage == "" {
        return Some(entries);
      }
      page := result.value.nextPage;
      count := count + 1;
    }
    return None;
  }

  /** The entries of a chain of pages within the budget, exactly when there is one. */
  ghost predicate IsListing(fetch: string -> Option<Page>, page: string, budget: nat, r: Option<seq<Entry>>) {
    && (r.Some? <==> exists pages :: Chain(fetch, page, pages) && |pages| <= budget)
    && forall pages :: Chain(fetch, page, pages) && |pages| <= budget ==> r == Some(Joined(pages))
  }

  lemma ListingExact(fetch: string -> Option<Page>, page: string, budget: nat)
    ensures IsListing(fetch, page, budget, Listing(fetch, page, budget))
  {
    forall pages | Chain(fetch, page, pages) && |pages| <= budget
      ensures Listing(fetch, page, budget) == Some(Joined(pages))
    {
      ListingComplete(fetch, page, budget, pages);
    }
    if Listing(fetch, page, budget).Some? {
      var pages := ListingIsChain(fetch, page, budget);
    }
  }

  lemma {:induction false} ListingIsChain(fetch: string -> Option<Page>, page: string, budget: nat)
    returns (pages: seq<Page>)
    requires Listing(fetch, page, budget).Some?
    ensures Chain(fetch, page, pages) && |pages| <= budget
    decreases budget
  {
    var first := fetch(page).value;
    if first.nextPage == "" {
      pages := [first];
    } else {
      var rest := ListingIsChain(fetch, first.nextPage, budget - 1);
      pages := [first] + rest;
      assert pages[1..] == rest;
    }
  }

  ghost function After(entries: seq<Entry>, rest: Option<seq<Entry>>): Option<seq<Entry>> {
    if rest.None? then None else Some(entries + rest.value)
  }

  /** One page of a listing. */
  lemma ListingStep(fetch: string -> Option<Page>, page: string, budget: nat, entries: seq<Entry>)
    requires budget > 0 && fetch(page).Some?
    ensures var p := fetch(page).value;
            After(entries, Listing(fetch, page, budget)) ==
              if p.nextPage == "" then Some(entries + p.entries)
              else After(entries + p.entries, Listing(fetch, p.nextPage, budget - 1))
  {
    var p := fetch(page).value;
    var rest := Listing(fetch, p.nextPage, budget - 1);
    if rest.Some? {
      EntriesRegroup(entries, p.entries, rest.value);
    }
  }

  lemma EntriesRegroup(a: seq<Entry>, b: seq<Entry>, c: seq<Entry>)
    ensures a + (b + c) == a + b + c
  {
  }

  /** A listing is the whole chain of pages or nothing: it is never cut short. */
  lemma {:induction false} ListingComplete(fetch: string -> Option<Page>, page: string, budget: nat, pages: seq<Page>)
    requires Chain(fetch, page, pages)
    ensures Listing(fetch, page, budget) == if |pages| <= budget then Some(Joined(pages)) else None
    decreases budget
  {
    if budget > 0 {
      if |pages| == 1 {
        assert pages[1..] == [] && Joined(pages) == pages[0].entries + [];
        assert pages[0].entries + [] == pages[0].entries;
      } else {
        ListingComplete(fetch, pages[0].nextPage, budget - 1, pages[1..]);
      }
    }
  }
}
