/**
  The event decoder: turns the raw body of an inbound frame into an event of
  one of the known kinds, or of kind `Unknown`.

  An event keeps the body it was decoded from; its attributes are read from
  that body by name. Its timestamp is the body's `ts` field when there is one,
  and otherwise the time the frame was received, which the caller supplies
  (`now`), since the model has no clock.
 */
module Event {
  import opened Values

  datatype Kind =
    | Hello
    | Message
    | ChannelArchive
    | ChannelCreated
    | ChannelDeleted
    | ChannelHistoryChanged
    | ChannelJoined
    | ChannelLeft
    | ChannelMarked
    | ChannelRename
    | ChannelUnarchive
    | ImClose
    | ImCreated
    | ImHistoryChanged
    | ImMarked
    | ImOpen
    | PresenceChange
    | UserChange
    | TeamPrefChange
    | Unknown
  {
    /** The two kinds whose class derives from BaseHistoryChanged. */
    predicate IsHistoryChanged() {
      this == ChannelHistoryChanged || this == ImHistoryChanged
    }
  }

  /** The dispatch table from a frame's `type` tag to the kind of event it decodes to. */
  const EventHandlers: map<string, Kind> := map[
    "hello" := Hello,
    "message" := Message,
    "channel_archive" := ChannelArchive,
    "channel_created" := ChannelCreated,
    "channel_deleted" := ChannelDeleted,
    "channel_history_changed" := ChannelHistoryChanged,
    "channel_joined" := ChannelJoined,
    "channel_left" := ChannelLeft,
    "channel_marked" := ChannelMarked,
    "channel_rename" := ChannelRename,
    "channel_unarchive" := ChannelUnarchive,
    "im_close" := ImClose,
    "im_created" := ImCreated,
    "im_history_changed" := ImHistoryChanged,
    "im_marked" := ImMarked,
    "im_open" := ImOpen,
    "presence_change" := PresenceChange,
    "user_change" := UserChange,
    "team_pref_change" := TeamPrefChange
  ]

  /** Where an event's timestamp came from: the body's `ts` field, or the receipt clock. */
  datatype Stamp = Sent(raw: Value) | Received(at: int)

  datatype Event = Event(kind: Kind, body: Record, ts: Stamp) {
    /** `has_ts`: the timestamp was carried by the message itself. */
    predicate HasTs() {
      ts.Sent?
    }

    /** Reading an attribute that is not one of the event's own fields reads the body. */
    function Attr(name: string): (r: Result<Value>)
      ensures r.Success? <==> name in body
      ensures r.Success? ==> r.value == body[name]
      ensures r.Failure? ==> r.error == AttributeError("event", name)
    {
      if name in body then Success(body[name]) else Failure(AttributeError("event", name))
    }
  }

  /** The constructor shared by every event class: it keeps the body and takes the timestamp from it or from the clock. */
  function BaseEventInit(kind: Kind, body: Record, now: int): (r: Event)
    ensures r.kind == kind && r.body == body
    ensures r.HasTs() <==> "ts" in body
    ensures r.HasTs() ==> r.ts.raw == body["ts"]
    ensures !r.HasTs() ==> r.ts == Received(now)
  {
    Event(kind, body, if "ts" in body then Sent(body["ts"]) else Received(now))
  }

  /** The depth at which the interpreter stops a recursion. */
  const RecursionLimit: nat := 1000

  /**
    BaseHistoryChanged's constructor, run for an event of a history-changed
    kind at call depth `depth`. It first calls
    `super(ChannelHistoryChanged, self).__init__`: for an ImHistoryChanged
    that is a TypeError, since the instance is not a ChannelHistoryChanged;
    for a ChannelHistoryChanged it resolves to BaseHistoryChanged's
    constructor, this very function, one level deeper. Only after that does
    it read `latest` and `event_ts`.
   */
  function HistoryChangedInit(kind: Kind, body: Record, now: int, depth: nat): (r: Result<Event>)
    requires kind.IsHistoryChanged()
    ensures r.Failure?
    ensures depth < RecursionLimit && kind != ChannelHistoryChanged ==>
      r == Failure(TypeError("super(type, obj): obj must be an instance or subtype of type"))
    decreases RecursionLimit - depth
  {
    if depth >= RecursionLimit then
      Failure(RuntimeError("maximum recursion depth exceeded"))
    else if kind != ChannelHistoryChanged then
      Failure(TypeError("super(type, obj): obj must be an instance or subtype of type"))
    else
      var base := HistoryChangedInit(kind, body, now, depth + 1);
      if base.Failure? then base
      else if "latest" !in body then Failure(KeyError(Str("latest")))
      else if "event_ts" !in body then Failure(KeyError(Str("event_ts")))
      else base
  }

  /** Constructing the event class of a kind over a body. */
  function Construct(kind: Kind, body: Record, now: int): (r: Result<Event>)
    ensures r.Success? ==> r.value == BaseEventInit(kind, body, now)
  {
    if kind.IsHistoryChanged() then HistoryChangedInit(kind, body, now, 0)
    else Success(BaseEventInit(kind, body, now))
  }

  /** The kind a `type` value names: the table's entry for a known tag, Unknown for anything else. */
  function KindOfTag(tag: Value): Kind {
    if tag.Str? && tag.s in EventHandlers then EventHandlers[tag.s] else Unknown
  }

  /** A `type` value that the decoder cannot turn into an event. */
  predicate Undecodable(tag: Value) {
    !Hashable(tag) || KindOfTag(tag).IsHistoryChanged()
  }

  /**
    `decode_event`: decodes a copy of the raw body. The body must carry a
    `type`; a tag in the table gives that kind, any other hashable tag gives
    Unknown, and the event keeps the whole body.
   */
  function DecodeEvent(raw: Record, now: int): (r: Result<Event>)
    ensures r.Success? <==> "type" in raw && !Undecodable(raw["type"])
    ensures "type" !in raw ==> r == Failure(KeyError(Str("type")))
    ensures r.Success? ==> r.value.kind == KindOfTag(raw["type"]) && r.value.kind.IsHistoryChanged() == false
    ensures r.Success? ==> r.value.body == raw
    ensures r.Success? ==> (r.value.HasTs() <==> "ts" in raw)
    ensures r.Success? && !r.value.HasTs() ==> r.value.ts == Received(now)
  {
    if "type" !in raw then
      Failure(KeyError(Str("type")))
    else
      var tag := raw["type"];
      if !Hashable(tag) then
        Failure(TypeError("unhashable type"))
      else if tag.Str? && tag.s in EventHandlers then
        HistoryChangedNeverConstructs(EventHandlers[tag.s], raw, now);
        Construct(EventHandlers[tag.s], raw, now)
      else
        Success(BaseEventInit(Unknown, raw, now))
  }

  /** `copy`: decodes the event's own body again. */
  function Copy(e: Event, now: int): (r: Result<Event>)
    ensures r.Success? <==> "type" in e.body && !Undecodable(e.body["type"])
    ensures r.Success? ==> r.value.kind == KindOfTag(e.body["type"]) && r.value.body == e.body
    ensures r.Success? ==> (r.value.HasTs() <==> "ts" in e.body)
  {
    DecodeEvent(e.body, now)
  }

  // ---------------------------------------------------------------------
  // Properties of the decoder
  // ---------------------------------------------------------------------

  /** A ChannelHistoryChanged constructor never returns: it recurses until the recursion limit. */
  lemma {:induction false} ChannelHistoryChangedRecursesToLimit(body: Record, now: int, depth: nat)
    ensures HistoryChangedInit(ChannelHistoryChanged, body, now, depth)
         == Failure(RuntimeError("maximum recursion depth exceeded"))
    decreases RecursionLimit - depth
  {
    if depth < RecursionLimit {
      ChannelHistoryChangedRecursesToLimit(body, now, depth + 1);
    }
  }

  /** Neither history-changed kind can be constructed, whatever the body holds. */
  lemma HistoryChangedNeverConstructs(kind: Kind, body: Record, now: int)
    ensures kind.IsHistoryChanged() ==> Construct(kind, body, now).Failure?
    ensures !kind.IsHistoryChanged() ==> Construct(kind, body, now).Success?
  {
  }

  /** The tag each kind is sent under, written out independently of the table. */
  function TagOf(k: Kind): Option<string> {
    match k
    case Hello => Some("hello")
    case Message => Some("message")
    case ChannelArchive => Some("channel_archive")
    case ChannelCreated => Some("channel_created")
    case ChannelDeleted => Some("channel_deleted")
    case ChannelHistoryChanged => Some("channel_history_changed")
    case ChannelJoined => Some("channel_joined")
    case ChannelLeft => Some("channel_left")
    case ChannelMarked => Some("channel_marked")
    case ChannelRename => Some("channel_rename")
    case ChannelUnarchive => Some("channel_unarchive")
    case ImClose => Some("im_close")
    case ImCreated => Some("im_created")
    case ImHistoryChanged => Some("im_history_changed")
    case ImMarked => Some("im_marked")
    case ImOpen => Some("im_open")
    case PresenceChange => Some("presence_change")
    case UserChange => Some("user_change")
    case TeamPrefChange => Some("team_pref_change")
    case Unknown => None
  }

  /** The table and TagOf are inverse: every kind but Unknown has exactly one tag in the table. */
  lemma HandlerTableShape(k: Kind)
    ensures k == Unknown <==> TagOf(k).None?
    ensures TagOf(k).Some? ==> TagOf(k).value in EventHandlers && EventHandlers[TagOf(k).value] == k
  {
    match k
    case Hello =>
    case Message =>
    case ChannelArchive =>
    case ChannelCreated =>
    case ChannelDeleted =>
    case ChannelHistoryChanged =>
    case ChannelJoined =>
    case ChannelLeft =>
    case ChannelMarked =>
    case ChannelRename =>
    case ChannelUnarchive =>
    case ImClose =>
    case ImCreated =>
    case ImHistoryChanged =>
    case ImMarked =>
    case ImOpen =>
    case PresenceChange =>
    case UserChange =>
    case TeamPrefChange =>
    case Unknown =>
  }

  /** Every tag in the table is the tag of the kind it names, so no two tags name one kind. */
  lemma HandlerTableInjective(t: string)
    requires t in EventHandlers
    ensures TagOf(EventHandlers[t]) == Some(t)
  {
    assert t in EventHandlers.Keys;
  }

  /** A known tag of a constructible kind decodes to exactly its table entry, over the unchanged body. */
  lemma DecodeKnownTag(raw: Record, now: int, tag: string)
    requires "type" in raw && raw["type"] == Str(tag) && tag in EventHandlers
    requires !EventHandlers[tag].IsHistoryChanged()
    ensures DecodeEvent(raw, now).Success?
    ensures DecodeEvent(raw, now).value.kind == EventHandlers[tag]
    ensures DecodeEvent(raw, now).value.body == raw
  {
  }

  /** A hashable tag outside the table decodes to Unknown, carrying the whole payload. */
  lemma DecodeUnknownTag(raw: Record, now: int)
    requires "type" in raw && Hashable(raw["type"])
    requires !(raw["type"].Str? && raw["type"].s in EventHandlers)
    ensures DecodeEvent(raw, now) == Success(BaseEventInit(Unknown, raw, now))
  {
  }

  /** Copying a decoded event decodes the same body to the same kind; only an inferred timestamp is taken afresh. */
  lemma CopyRedecodes(raw: Record, now: int, later: int)
    requires DecodeEvent(raw, now).Success?
    ensures Copy(DecodeEvent(raw, now).value, later).Success?
    ensures Copy(DecodeEvent(raw, now).value, later).value.kind == DecodeEvent(raw, now).value.kind
    ensures Copy(DecodeEvent(raw, now).value, later).value.body == raw
    ensures DecodeEvent(raw, now).value.HasTs() ==> Copy(DecodeEvent(raw, now).value, later) == DecodeEvent(raw, now)
  {
  }
}
