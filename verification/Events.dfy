/**
 Events and frames as they cross the process boundary: the Go side's `event` and envelopes,
 the Python side's `HeyEvent`, its strict readers, and the persisted form.
 JSON is modelled as values; its text syntax is not part of this model.
 */
module Events {
  import opened Wrappers
  import opened Decimal

  /** Object keys. Every key the protocol names has its own constructor. */
  datatype Key =
    | EventIdKey | KindKey | PostingIdKey | ThreadIdKey | EntryIdKey | AccountIdKey | SenderIdKey
    | SenderNameKey | SenderEmailKey | SubjectKey | ContentKey | AppUrlKey | CreatedAtKey | BoxKindKey
    | TypeKey | EventKey | ProtocolVersionKey | ErrorKey | SeenKey | PendingKey
    | OtherKey(name: string)

  datatype Json =
    | Null
    | Bool(b: bool)
    | Int(n: int)
    | Float(r: real)
    | Str(s: string)
    | Arr(items: seq<Json>)
    | Obj(fields: map<Key, Json>)

  datatype Kind = Message | Comment

  datatype HeyEvent = HeyEvent(
    eventId: string, kind: Kind, postingId: int, threadId: int, entryId: int, accountId: int, senderId: int,
    senderName: string, senderEmail: string, subject: string, content: string, appUrl: string,
    createdAt: string, boxKind: string)
  {
    /** What the Python reader demands of an event. */
    predicate Valid() {
      && Identified()
      && appUrl == TopicUrl(threadId)
      && postingId > 0 && accountId > 0 && senderId > 0
    }

    predicate Identified() {
      threadId > 0 && entryId > 0 && eventId == EventId(threadId, entryId)
    }
  }

  datatype EventError =
    | BadKeys | NotString | NotPositiveInt | BadKind | IdentityMismatch | UrlMismatch
    | NotObject | BadPostReadyFrame | BadReadyFrame | BadFatalFrame | Coerced

  const EVENT_KEYS: set<Key> := {
    EventIdKey, KindKey, PostingIdKey, ThreadIdKey, EntryIdKey, AccountIdKey, SenderIdKey,
    SenderNameKey, SenderEmailKey, SubjectKey, ContentKey, AppUrlKey, CreatedAtKey, BoxKindKey}

  function TopicUrl(t: nat): string {
    "https://app.hey.com/topics/" + Render(t)
  }

  function KindText(k: Kind): string {
    match k case Message => "message" case Comment => "comment"
  }

  function PositiveInt(j: Json): Result<nat, EventError> {
    if j.Int? && j.n > 0 then Ok(j.n) else Err(NotPositiveInt)
  }

  function Text(j: Json): Result<string, EventError> {
    if j.Str? then Ok(j.s) else Err(NotString)
  }

  /** The value `to_dict` stores under a key. */
  function FieldOf(e: HeyEvent, k: Key): Json {
    match k
    case EventIdKey => Str(e.eventId)
    case KindKey => Str(KindText(e.kind))
    case PostingIdKey => Int(e.postingId)
    case ThreadIdKey => Int(e.threadId)
    case EntryIdKey => Int(e.entryId)
    case AccountIdKey => Int(e.accountId)
    case SenderIdKey => Int(e.senderId)
    case SenderNameKey => Str(e.senderName)
    case SenderEmailKey => Str(e.senderEmail)
    case SubjectKey => Str(e.subject)
    case ContentKey => Str(e.content)
    case AppUrlKey => Str(e.appUrl)
    case CreatedAtKey => Str(e.createdAt)
    case BoxKindKey => Str(e.boxKind)
    case _ => Null
  }

  /** `HeyEvent.to_dict`. */
  function ToDict(e: HeyEvent): map<Key, Json> {
    map k | k in EVENT_KEYS :: FieldOf(e, k)
  }

  /** `HeyEvent.from_dict`, its checks in order: the identifying fields first, then the rest. */
  function FromDict(v: map<Key, Json>): Result<HeyEvent, EventError> {
    if v.Keys != EVENT_KEYS then Err(BadKeys)
    else
      var head :- ReadHead(v);
      ReadBody(v, head)
  }

  datatype Head = Head(eventId: string, kind: Kind, threadId: nat, entryId: nat, appUrl: string)

  function ReadHead(v: map<Key, Json>): Result<Head, EventError>
    requires v.Keys == EVENT_KEYS
  {
    var eventId :- Text(v[EventIdKey]);
    var kindText :- Text(v[KindKey]);
    var kind :- ReadKind(kindText);
    var threadId :- PositiveInt(v[ThreadIdKey]);
    var entryId :- PositiveInt(v[EntryIdKey]);
    if eventId != EventId(threadId, entryId) then Err(IdentityMismatch)
    else
      var appUrl :- Text(v[AppUrlKey]);
      if appUrl != TopicUrl(threadId) then Err(UrlMismatch)
      else Ok(Head(eventId, kind, threadId, entryId, appUrl))
  }

  function ReadBody(v: map<Key, Json>, h: Head): Result<HeyEvent, EventError>
    requires v.Keys == EVENT_KEYS
  {
    var postingId :- PositiveInt(v[PostingIdKey]);
    var accountId :- PositiveInt(v[AccountIdKey]);
    var senderId :- PositiveInt(v[SenderIdKey]);
    var senderName :- Text(v[SenderNameKey]);
    var senderEmail :- Text(v[SenderEmailKey]);
    var subject :- Text(v[SubjectKey]);
    var content :- Text(v[ContentKey]);
    var createdAt :- Text(v[CreatedAtKey]);
    var boxKind :- Text(v[BoxKindKey]);
    Ok(HeyEvent(h.eventId, h.kind, postingId, h.threadId, h.entryId, accountId, senderId,
                senderName, senderEmail, subject, content, h.appUrl, createdAt, boxKind))
  }

  function ReadKind(s: string): Result<Kind, EventError> {
    if s == "message" then Ok(Message) else if s == "comment" then Ok(Comment) else Err(BadKind)
  }

  lemma KindReadBack(k: Kind)
    ensures ReadKind(KindText(k)) == Ok(k)
  {
    assert "comment"[0] != "message"[0];
  }

  lemma HeadRead(e: HeyEvent)
    requires e.Valid()
    ensures ToDict(e).Keys == EVENT_KEYS
    ensures ReadHead(ToDict(e)) == Ok(Head(e.eventId, e.kind, e.threadId, e.entryId, e.appUrl))
  {
    var v := ToDict(e);
    assert v[EventIdKey] == Str(e.eventId) && v[KindKey] == Str(KindText(e.kind));
    assert v[ThreadIdKey] == Int(e.threadId) && v[EntryIdKey] == Int(e.entryId) && v[AppUrlKey] == Str(e.appUrl);
    KindReadBack(e.kind);
  }

  lemma ToDictRead(e: HeyEvent)
    requires e.Valid()
    ensures FromDict(ToDict(e)) == Ok(e)
  {
    HeadRead(e);
    var h := Head(e.eventId, e.kind, e.threadId, e.entryId, e.appUrl);
    assert ReadBody(ToDict(e), h) == Ok(e);
  }

  lemma FromDictWritten(v: map<Key, Json>)
    requires FromDict(v).Ok?
    ensures FromDict(v).value.Valid() && v == ToDict(FromDict(v).value)
  {
    var e := FromDict(v).value;
    assert ReadKind(v[KindKey].s) == Ok(e.kind);
    forall k | k in EVENT_KEYS ensures v[k] == FieldOf(e, k) {
    }
  }

  /** Reading inverts writing, and only what writing produces from a valid event is read. */
  lemma FromDictExact(v: map<Key, Json>, e: HeyEvent)
    ensures FromDict(v) == Ok(e) <==> e.Valid() && v == ToDict(e)
  {
    if FromDict(v) == Ok(e) {
      FromDictWritten(v);
    }
    if e.Valid() {
      ToDictRead(e);
    }
  }

  // ---------------------------------------------------------------- frames

  /** `parse_event_frame`. */
  function ParseEventFrame(v: map<Key, Json>): Result<HeyEvent, EventError> {
    if v.Keys != {TypeKey, EventKey} || v[TypeKey] != Str("event") then Err(BadPostReadyFrame)
    else if !v[EventKey].Obj? then Err(NotObject)
    else
      var payload := v[EventKey].fields;
      var e :- FromDict(payload);
      if ToDict(e) != payload then Err(Coerced) else Ok(e)
  }

  /** `parse_ready_frame`; a boolean is not an integer version. */
  function ParseReadyFrame(v: map<Key, Json>, version: int): Result<(), EventError> {
    if v.Keys != {TypeKey, ProtocolVersionKey} then Err(BadReadyFrame)
    else if v[TypeKey] != Str("ready") then Err(BadReadyFrame)
    else if v[ProtocolVersionKey] != Int(version) then Err(BadReadyFrame)
    else Ok(())
  }

  predicate IsSpace(c: char) {
    c in {' ', '\t', '\n', '\r', 0x0b as char, 0x0c as char}
  }

  predicate Blank(s: string) {
    forall i :: 0 <= i < |s| ==> IsSpace(s[i])
  }

  /** `parse_fatal_frame`: is this a fatal frame, and is it well formed? */
  function ParseFatalFrame(v: map<Key, Json>): Result<bool, EventError> {
    if TypeKey !in v || v[TypeKey] != Str("fatal") then Ok(false)
    else if v.Keys != {TypeKey, ErrorKey} then Err(BadFatalFrame)
    else if !v[ErrorKey].Str? || Blank(v[ErrorKey].s) then Err(BadFatalFrame)
    else Ok(true)
  }

  /** What a frame means to a host, configured for one account, that has seen the ready frame. */
  function PostReady(account: int, frame: map<Key, Json>): Option<HeyEvent> {
    if ParseFatalFrame(frame) != Ok(false) then None
    else
      match ParseEventFrame(frame)
      case Err(_) => None
      case Ok(e) => if e.accountId != account then None else Some(e)
  }

  const PROTOCOL_VERSION := 2

  function ReadyFrame(): map<Key, Json> {
    map[TypeKey := Str("ready"), ProtocolVersionKey := Int(PROTOCOL_VERSION)]
  }

  function FatalFrame(text: string): map<Key, Json> {
    map[TypeKey := Str("fatal"), ErrorKey := Str(text)]
  }

  /** The Go encoding of an event: `omitempty` drops a zero account or sender. */
  function GoDict(e: HeyEvent): map<Key, Json> {
    ToDict(e)
    - (if e.accountId == 0 then {AccountIdKey} else {})
    - (if e.senderId == 0 then {SenderIdKey} else {})
  }

  function EventFrame(e: HeyEvent): map<Key, Json> {
    map[TypeKey := Str("event"), EventKey := Obj(GoDict(e))]
  }

  /** The Go encoding leaves out the account and the sender exactly when their numbers are zero, and nothing else. */
  lemma GoDictKeys(e: HeyEvent, k: Key)
    ensures k in GoDict(e) <==>
              && k in EVENT_KEYS && (k == AccountIdKey ==> e.accountId != 0) && (k == SenderIdKey ==> e.senderId != 0)
    ensures k in GoDict(e) ==> GoDict(e)[k] == FieldOf(e, k)
  {
  }

  /** A Go event frame is accepted exactly when the event is valid, and then unchanged. */
  lemma EventFrameAccepted(e: HeyEvent)
    ensures e.Valid() ==> ParseEventFrame(EventFrame(e)) == Ok(e)
    ensures !e.Valid() ==> ParseEventFrame(EventFrame(e)).Err?
    ensures ParseFatalFrame(EventFrame(e)) == Ok(false)
    ensures ParseReadyFrame(EventFrame(e), PROTOCOL_VERSION).Err?
  {
    var v := EventFrame(e);
    assert v.Keys == {TypeKey, EventKey};
    assert EventKey in v.Keys && EventKey !in {TypeKey, ProtocolVersionKey};
    var payload := GoDict(e);
    if e.accountId == 0 {
      assert AccountIdKey !in payload;
    } else if e.senderId == 0 {
      assert SenderIdKey !in payload;
    } else {
      assert payload == ToDict(e);
    }
    FromDictExact(payload, e);
    if FromDict(payload).Ok? {
      var e' := FromDict(payload).value;
      FromDictExact(payload, e');
      assert AccountIdKey in ToDict(e') && SenderIdKey in ToDict(e');
      ToDictInjective(e, e');
    }
  }

  /** The host takes the frame of a Go event exactly when the event is valid and of its account. */
  lemma PostReadyExact(account: int, e: HeyEvent)
    ensures PostReady(account, EventFrame(e)) == if e.Valid() && e.accountId == account then Some(e) else None
  {
    EventFrameAccepted(e);
  }

  /** Of all frames there are, the host takes exactly the event frames of valid events of its account. */
  lemma PostReadyFrames(account: int, frame: map<Key, Json>, e: HeyEvent)
    ensures PostReady(account, frame) == Some(e) <==>
              e.Valid() && e.accountId == account && frame == map[TypeKey := Str("event"), EventKey := Obj(ToDict(e))]
  {
    if frame.Keys == {TypeKey, EventKey} && frame[EventKey].Obj? {
      var payload := frame[EventKey].fields;
      FromDictExact(payload, e);
      if FromDict(payload).Ok? {
        FromDictExact(payload, FromDict(payload).value);
      }
      assert frame == map[TypeKey := frame[TypeKey], EventKey := frame[EventKey]];
    }
    assert "fatal" != "event";
  }

  /** One frame of all announces readiness: the one that names version 2. */
  lemma ReadyFrameExact(frame: map<Key, Json>)
    ensures ParseFatalFrame(frame) == Ok(false) && ParseReadyFrame(frame, PROTOCOL_VERSION).Ok? <==>
              frame == map[TypeKey := Str("ready"), ProtocolVersionKey := Int(2)]
  {
    if frame.Keys == {TypeKey, ProtocolVersionKey} {
      assert frame == map[TypeKey := frame[TypeKey], ProtocolVersionKey := frame[ProtocolVersionKey]];
    }
    assert "ready" != "fatal";
  }

  /** A fatal frame gives a reason that is not blank; any other frame that claims to be fatal is malformed. */
  lemma FatalFrameExact(frame: map<Key, Json>)
    ensures ParseFatalFrame(frame) == Ok(true) <==>
              exists text :: frame == FatalFrame(text) && exists i :: 0 <= i < |text| && !IsSpace(text[i])
    ensures ParseFatalFrame(frame) == Ok(false) <==> TypeKey !in frame || frame[TypeKey] != Str("fatal")
  {
    if frame.Keys == {TypeKey, ErrorKey} && frame[ErrorKey].Str? {
      assert frame == map[TypeKey := frame[TypeKey], ErrorKey := frame[ErrorKey]];
      assert frame[TypeKey] == Str("fatal") ==> frame == FatalFrame(frame[ErrorKey].s);
    }
  }

  lemma ToDictInjective(a: HeyEvent, b: HeyEvent)
    ensures ToDict(a) == ToDict(b) ==> a == b
  {
    if ToDict(a) == ToDict(b) {
      forall k | k in EVENT_KEYS ensures FieldOf(a, k) == FieldOf(b, k) {
        assert ToDict(a)[k] == ToDict(b)[k];
      }
      assert FieldOf(a, EventIdKey) == FieldOf(b, EventIdKey) && FieldOf(a, KindKey) == FieldOf(b, KindKey);
      assert FieldOf(a, PostingIdKey) == FieldOf(b, PostingIdKey) && FieldOf(a, ThreadIdKey) == FieldOf(b, ThreadIdKey);
      assert FieldOf(a, EntryIdKey) == FieldOf(b, EntryIdKey) && FieldOf(a, AccountIdKey) == FieldOf(b, AccountIdKey);
      assert FieldOf(a, SenderIdKey) == FieldOf(b, SenderIdKey)
        && FieldOf(a, SenderNameKey) == FieldOf(b, SenderNameKey);
      assert FieldOf(a, SenderEmailKey) == FieldOf(b, SenderEmailKey)
        && FieldOf(a, SubjectKey) == FieldOf(b, SubjectKey);
      assert FieldOf(a, ContentKey) == FieldOf(b, ContentKey) && FieldOf(a, AppUrlKey) == FieldOf(b, AppUrlKey);
      assert FieldOf(a, CreatedAtKey) == FieldOf(b, CreatedAtKey) && FieldOf(a, BoxKindKey) == FieldOf(b, BoxKindKey);
    }
  }

  /** The guard against coerced payloads never fires: the strict reader already excludes it. */
  lemma NoCoercionLeft(v: map<Key, Json>)
    ensures ParseEventFrame(v) != Err(Coerced)
  {
    if v.Keys == {TypeKey, EventKey} && v[EventKey].Obj? && FromDict(v[EventKey].fields).Ok? {
      FromDictExact(v[EventKey].fields, FromDict(v[EventKey].fields).value);
    }
  }

  // ---------------------------------------------------------------- persisted events

  /** `_parse_persisted_event`: the exact keys, or those of a message stored before kinds existed. */
  function ParsePersisted(j: Json): Result<HeyEvent, EventError> {
    if !j.Obj? then Err(NotObject)
    else if j.fields.Keys == EVENT_KEYS - {KindKey} then
      ReadExact(j.fields[KindKey := Str("message")])
    else if j.fields.Keys != EVENT_KEYS then Err(BadKeys)
    else ReadExact(j.fields)
  }

  function ReadExact(v: map<Key, Json>): Result<HeyEvent, EventError> {
    var e :- FromDict(v);
    if ToDict(e) != v then Err(Coerced) else Ok(e)
  }

  /** A stored item is the current form of a valid event, or the kindless form of a message. */
  lemma PersistedExact(j: Json, e: HeyEvent)
    ensures ParsePersisted(j) == Ok(e) <==>
            e.Valid() && (j == Obj(ToDict(e)) || (e.kind == Message && j == Obj(ToDict(e) - {KindKey})))
  {
    assert ToDict(e).Keys == EVENT_KEYS;
    assert (ToDict(e) - {KindKey}).Keys == EVENT_KEYS - {KindKey};
    assert KindKey in EVENT_KEYS;
    if j.Obj? {
      var v := j.fields;
      if v.Keys == EVENT_KEYS - {KindKey} {
        var w := v[KindKey := Str("message")];
        FromDictExact(w, e);
        assert w - {KindKey} == v;
        if e.kind == Message && v == ToDict(e) - {KindKey} {
          assert w == ToDict(e);
        }
        if w == ToDict(e) {
          assert Str(KindText(e.kind)) == w[KindKey];
        }
      } else {
        FromDictExact(v, e);
      }
    }
  }
}
