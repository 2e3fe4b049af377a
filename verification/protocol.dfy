/**
  The RTM protocol: the websocket client that numbers outgoing commands,
  routes chat messages to a channel id, and passes every inbound frame first
  to the session store and then to the application's handler.

  The websocket itself is not modelled: the frames handed to it are kept in
  `outbox`, the exceptions the protocol logs in `errorLog` and the events
  given to the application's handler in `delivered`. Replies of REST calls
  are parameters, and the calls themselves are recorded in the store's
  `apiCalls`.
 */
module Protocol {
  import opened Values
  import opened Event
  import opened Resources
  import opened Session

  /** `sys.maxint` of a 64-bit interpreter. */
  const MaxInt: int := 0x7FFF_FFFF_FFFF_FFFF

  /** The message counter after handing out `n`: one more, back to 1 once that reaches MaxInt. */
  function NextId(n: int): int {
    if n + 1 >= MaxInt then 1 else n + 1
  }

  /** The counter after `k` commands have been numbered from a freshly seeded protocol. */
  function Counter(k: nat): int {
    if k == 0 then 1 else NextId(Counter(k - 1))
  }

  /** The counter stays in 1 .. MaxInt - 1 and never hands out the same id twice in a row. */
  lemma NextIdInRange(n: int)
    requires 1 <= n < MaxInt
    ensures 1 <= NextId(n) < MaxInt
    ensures NextId(n) != n
  {
  }

  /** The ids handed out count 1, 2, 3, ... and start again at 1 after MaxInt - 1. */
  lemma {:induction false} CounterCycles(k: nat)
    ensures Counter(k) == k % (MaxInt - 1) + 1
  {
    if k > 0 {
      CounterCycles(k - 1);
      CounterStep(k - 1);
    }
  }

  /** Counting one further moves the remainder modulo MaxInt - 1 on by one, or back to 0 from its last value. */
  lemma CounterStep(x: nat)
    ensures (x + 1) % (MaxInt - 1) == if x % (MaxInt - 1) == MaxInt - 2 then 0 else x % (MaxInt - 1) + 1
  {
    var m := MaxInt - 1;
    if x % m == m - 1 {
      assert x == x / m * m + (m - 1);
      assert x + 1 == (x / m + 1) * m;
    } else {
      assert x == x / m * m + x % m;
      assert x + 1 == x / m * m + (x % m + 1);
    }
  }

  /** Fewer than MaxInt - 1 commands apart, two commands never share an id. */
  lemma CounterDistinct(i: nat, j: nat)
    requires i < j < i + (MaxInt - 1)
    ensures Counter(i) != Counter(j)
  {
    CounterCycles(i);
    CounterCycles(j);
    var m := MaxInt - 1;
    assert i == i / m * m + i % m;
    assert j == j / m * m + j % m;
    if j / m <= i / m {
      assert j / m * m <= i / m * m;
      assert j % m > i % m;
    } else {
      assert j / m * m >= (i / m + 1) * m;
      assert j % m < i % m;
    }
  }

  /** Every frame carries a type, and the k-th carries the k-th id the counter hands out. */
  predicate FramesNumbered(outbox: seq<Record>) {
    forall k :: 0 <= k < |outbox| ==> "type" in outbox[k] && "id" in outbox[k] && outbox[k]["id"] == Int(Counter(k))
  }

  /** Numbered frames sent fewer than MaxInt - 1 commands apart have different ids. */
  lemma FramesDistinct(outbox: seq<Record>, i: nat, j: nat)
    requires FramesNumbered(outbox)
    requires i < j < |outbox| && j - i < MaxInt - 1
    ensures outbox[i]["id"] != outbox[j]["id"]
  {
    CounterDistinct(i, j);
  }

  /** Where a chat message is to go, before any lookup. */
  datatype Target = ById(id: Value) | ToUser(user: string) | ToGroup(group: string) | ToChannel(channel: string)

  /**
    The destination checks of `sendChatMessage`. `id` is Null when not given.
    The first destination given, in the order id, user, group, channel, is the
    one used, and giving any later one as well fails its assertion.
   */
  function ChooseDestination(id: Value, user: Option<string>, group: Option<string>, channel: Option<string>): (r: Result<Target>)
    ensures r.Success? ==> match r.value
      case ById(v) => v == id && v != Null
      case ToUser(u) => id == Null && user == Some(u)
      case ToGroup(g) => id == Null && user == None && group == Some(g)
      case ToChannel(c) => id == Null && user == None && group == None && channel == Some(c)
    ensures r.Failure? ==> r.error.AssertionError? || r.error == Exception("Should not reach here.")
  {
    if id != Null then
      if user.Some? then Failure(AssertionError("id and user cannot both be set."))
      else if group.Some? then Failure(AssertionError("id and group cannot both be set."))
      else if channel.Some? then Failure(AssertionError("id and channel cannot both be set."))
      else Success(ById(id))
    else if user.Some? then
      if group.Some? then Failure(AssertionError("user and group cannot both be set."))
      else if channel.Some? then Failure(AssertionError("user and channel cannot both be set."))
      else Success(ToUser(user.value))
    else if group.Some? then
      if channel.Some? then Failure(AssertionError("group and channel cannot both be set."))
      else Success(ToGroup(group.value))
    else if channel.Some? then
      Success(ToChannel(channel.value))
    else
      Failure(Exception("Should not reach here."))
  }

  /** How many destinations are given. */
  function Given(id: Value, user: Option<string>, group: Option<string>, channel: Option<string>): nat {
    (if id != Null then 1 else 0) + (if user.Some? then 1 else 0)
    + (if group.Some? then 1 else 0) + (if channel.Some? then 1 else 0)
  }

  /**
    A chat message needs exactly one destination: it is accepted exactly when
    one is given, and then goes to that one; none is the catch-all Exception,
    two or more an AssertionError.
   */
  lemma DestinationExactlyOne(id: Value, user: Option<string>, group: Option<string>, channel: Option<string>)
    ensures var r := ChooseDestination(id, user, group, channel);
      && (r.Success? <==> Given(id, user, group, channel) == 1)
      && (r == Failure(Exception("Should not reach here.")) <==> Given(id, user, group, channel) == 0)
      && (Given(id, user, group, channel) > 1 ==> r.Failure? && r.error.AssertionError?)
      && (r.Success? ==> match r.value
            case ById(v) => v == id
            case ToUser(u) => user == Some(u)
            case ToGroup(g) => group == Some(g)
            case ToChannel(c) => channel == Some(c))
  {
  }

  /**
    `[0]` applied to what the IM lookup returns. An existing IM is an
    (id, record) pair, so this is its id. An id answered by `im.open` is a
    string, so this is its first character.
   */
  function FirstItem(found: ImLookup): (r: Result<Value>)
    ensures found.Existing? ==> r == Success(Str(found.imId))
    ensures found.Opened? && found.openedId.Str? ==>
      (r.Success? <==> found.openedId.s != "") && (r.Success? ==> r.value.Str? && r.value.s == found.openedId.s[..1])
    ensures found.Opened? && found.openedId == Str("") ==> r == Failure(IndexError("string index out of range"))
  {
    match found
    case Existing(imId, _) => Success(Str(imId))
    case Opened(v) =>
      match v
      case Str(s) => if s == "" then Failure(IndexError("string index out of range")) else Success(Str(s[..1]))
      case List(xs) => if xs == [] then Failure(IndexError("list index out of range")) else Success(xs[0])
      case Obj(_) => Failure(KeyError(Int(0)))
      case _ => Failure(TypeError("object does not support indexing"))
  }

  /** The channel id a target resolves to over a store; `openReply` answers the `im.open` a user target may need. */
  function ChannelIdFor(s: Store, t: Target, openReply: Result<Record>): (r: Result<Value>)
    ensures t.ById? ==> r == Success(t.id)
    ensures r.Success? && t.ToGroup? ==> r.value.Str? && r.value.s in IdSet(s.groups)
    ensures r.Success? && t.ToChannel? ==> r.value.Str? && r.value.s in IdSet(s.channels)
  {
    match t
    case ById(v) => Success(v)
    case ToUser(u) =>
      var found :- ImByUserName(s, u, true, openReply);
      FirstItem(found)
    case ToGroup(g) =>
      var found :- FindFirst(s.groups, "name", g);
      Success(Str(found.0))
    case ToChannel(c) =>
      var found :- FindFirst(s.channels, "name", c);
      Success(Str(found.0))
  }

  /** The REST calls resolving a target makes. */
  function LookupCalls(s: Store, token: Value, t: Target): seq<ApiCall> {
    if t.ToUser? then ImOpenCalls(s, token, t.user, true) else []
  }

  /**
    A group or channel target resolves to the id of the first group or
    channel of that name, and a user target with an IM to that IM's id.
   */
  lemma ChannelIdForNamed(s: Store, t: Target, openReply: Result<Record>)
    requires ChannelIdFor(s, t, openReply).Success?
    ensures t.ToGroup? ==> exists i :: 0 <= i < |s.groups| && ChannelIdFor(s, t, openReply) == Success(Str(s.groups[i].0))
                                        && Matches(s.groups[i].1, "name", t.group)
    ensures t.ToChannel? ==> exists i :: 0 <= i < |s.channels| && ChannelIdFor(s, t, openReply) == Success(Str(s.channels[i].0))
                                          && Matches(s.channels[i].1, "name", t.channel)
    ensures t.ToUser? && ImByUserName(s, t.user, true, openReply).value.Existing? ==>
      var found := ImByUserName(s, t.user, true, openReply).value;
      ChannelIdFor(s, t, openReply) == Success(Str(found.imId)) && (found.imId, found.record) in s.ims
  {
    if t.ToUser? {
      ImByUserNameSound(s, t.user, true, openReply);
    }
  }

  /**
    The defect in routing to a user without an IM: the IM is opened, but the
    message is addressed to the first character of the new IM's id, which is
    not that id whenever the id is longer than one character.
   */
  lemma OpenedImMisrouted(s: Store, t: Target, openReply: Result<Record>)
    requires t.ToUser?
    requires ImByUserName(s, t.user, true, openReply).Success?
    requires ImByUserName(s, t.user, true, openReply).value.Opened?
    requires ImByUserName(s, t.user, true, openReply).value.openedId.Str?
    requires |ImByUserName(s, t.user, true, openReply).value.openedId.s| > 1
    ensures ChannelIdFor(s, t, openReply).Success?
    ensures ChannelIdFor(s, t, openReply) != Success(ImByUserName(s, t.user, true, openReply).value.openedId)
    ensures ChannelIdFor(s, t, openReply).value.s == [ImByUserName(s, t.user, true, openReply).value.openedId.s[0]]
  {
  }

  /** The optional arguments of `sendChatMessage` that are passed through to the service. */
  datatype ChatOptions = ChatOptions(parse: Value, linkNames: Value, unfurlLinks: Value, unfurlMedia: Value)

  /** The defaults of those arguments. */
  const DefaultChatOptions := ChatOptions(Str("none"), Bool(true), Bool(true), Bool(false))

  /** The fields of a chat message, shared by the websocket command and the REST call. */
  function ChatFields(cid: Value, text: Value, opts: ChatOptions): Record {
    map["channel" := cid, "text" := text, "parse" := opts.parse, "link_names" := opts.linkNames,
        "unfurl_links" := opts.unfurlLinks, "unfurl_media" := opts.unfurlMedia]
  }

  /** The failure `onMessage` logs for one call that raised, if it raised. */
  function Logged(o: Outcome): seq<Error> {
    if o.Fail? then [o.error] else []
  }

  /** The store after an event: the update's result, or the store unchanged when the update raised. */
  function StoreAfter(s: Store, e: Event): Store {
    if ApplyEvent(s, e).Success? then ApplyEvent(s, e).value else s
  }

  /** The outcome of applying an event to a store. */
  function UpdateOutcome(s: Store, e: Event): Outcome {
    if ApplyEvent(s, e).Success? then Pass else Fail(ApplyEvent(s, e).error)
  }

  class RtmProtocol {
    /** The session store this protocol keeps up to date. */
    const meta: SessionMetadata
    /** The id the next command will carry. */
    var nextMessageId: int
    /** Every frame handed to the websocket, oldest first. */
    var outbox: seq<Record>
    /** Every exception `onMessage` caught and logged, oldest first. */
    var errorLog: seq<Error>
    /** Every event passed to the application's handler, oldest first. */
    var delivered: seq<Event>

    ghost predicate Valid()
      reads this, meta
    {
      && meta.Valid()
      && meta.protocol == this
      && nextMessageId == Counter(|outbox|)
      && FramesNumbered(outbox)
    }

    /** `_seedMetadata`: ties the protocol and the store to each other and starts counting at 1. */
    constructor SeedMetadata(meta: SessionMetadata)
      requires meta.Valid()
      modifies meta`protocol
      ensures Valid()
      ensures this.meta == meta && meta.protocol == this
      ensures nextMessageId == 1 && outbox == [] && errorLog == [] && delivered == []
    {
      this.meta := meta;
      nextMessageId := 1;
      outbox := [];
      errorLog := [];
      delivered := [];
      new;
      meta.protocol := this;
    }

    /**
      `sendCommand`: a command must name its type. It is sent with the
      counter's id, which replaces any `id` it had and is returned.
     */
    method SendCommand(msg: Record) returns (r: Result<int>)
      requires Valid()
      modifies this`nextMessageId, this`outbox
      ensures Valid()
      ensures "type" !in msg ==>
        r == Failure(AssertionError("Message type is required."))
        && nextMessageId == old(nextMessageId) && outbox == old(outbox)
      ensures "type" in msg ==>
        r == Success(old(nextMessageId))
        && outbox == old(outbox) + [msg["id" := Int(old(nextMessageId))]]
        && nextMessageId == NextId(old(nextMessageId))
    {
      if "type" !in msg {
        return Failure(AssertionError("Message type is required."));
      }
      var id := nextMessageId;
      var frame := msg["id" := Int(id)];
      nextMessageId := nextMessageId + 1;
      if nextMessageId >= MaxInt {
        nextMessageId := 1;
      }
      outbox := outbox + [frame];
      return Success(id);
    }

    /**
      `sendChatMessage`: resolves the one destination given to a channel id,
      then posts the message through the REST facade (`sendWithApi`, answered
      by `postReply`) or sends it as a `message` command, whose id is returned.
      `openReply` answers the `im.open` call a user without an IM needs. The
      optional arguments default as in the source: no destination, the
      default options, and the websocket path.
     */
    method SendChatMessage(text: Value, openReply: Result<Record>, postReply: Result<Value>,
                           id: Value := Null, user: Option<string> := None, group: Option<string> := None,
                           channel: Option<string> := None, opts: ChatOptions := DefaultChatOptions,
                           sendWithApi: bool := false)
      returns (r: Result<Value>)
      requires Valid()
      modifies this`nextMessageId, this`outbox, meta`apiCalls
      ensures Valid()
      ensures ChooseDestination(id, user, group, channel).Failure? ==>
        r == Failure(ChooseDestination(id, user, group, channel).error)
        && unchanged(this) && meta.apiCalls == old(meta.apiCalls)
      ensures ChooseDestination(id, user, group, channel).Success? ==>
        var t := ChooseDestination(id, user, group, channel).value;
        var cid := ChannelIdFor(meta.Snapshot(), t, openReply);
        var calls := old(meta.apiCalls) + LookupCalls(meta.Snapshot(), meta.token, t);
        && (cid.Failure? ==> r == Failure(cid.error) && unchanged(this) && meta.apiCalls == calls)
        && (cid.Success? && sendWithApi ==>
              r == postReply && unchanged(this)
              && meta.apiCalls == calls + [ApiCall("chat.postMessage", ChatFields(cid.value, text, opts)["token" := meta.token])])
        && (cid.Success? && !sendWithApi ==>
              r == Success(Int(old(nextMessageId)))
              && outbox == old(outbox) + [ChatFields(cid.value, text, opts)["type" := Str("message")]["id" := Int(old(nextMessageId))]]
              && nextMessageId == NextId(old(nextMessageId))
              && meta.apiCalls == calls)
    {
      var dest := ChooseDestination(id, user, group, channel);
      if dest.Failure? {
        return Failure(dest.error);
      }
      var resolved := ResolveChannel(dest.value, openReply);
      if resolved.Failure? {
        return Failure(resolved.error);
      }
      var cid := resolved.value;
      if sendWithApi {
        meta.apiCalls := meta.apiCalls + [ApiCall("chat.postMessage", ChatFields(cid, text, opts)["token" := meta.token])];
        return postReply;
      }
      var sent := SendCommand(ChatFields(cid, text, opts)["type" := Str("message")]);
      return Success(Int(sent.value));
    }

    /** The lookups `sendChatMessage` makes to turn a destination into a channel id; only the REST call log changes. */
    method ResolveChannel(t: Target, openReply: Result<Record>) returns (cid: Result<Value>)
      modifies meta`apiCalls
      ensures meta.Snapshot() == old(meta.Snapshot())
      ensures cid == ChannelIdFor(meta.Snapshot(), t, openReply)
      ensures meta.apiCalls == old(meta.apiCalls) + LookupCalls(meta.Snapshot(), meta.token, t)
    {
      match t {
        case ById(v) =>
          cid := Success(v);
        case ToUser(u) =>
          var found := meta.FindImByUserName(u, true, openReply);
          if found.Failure? {
            return Failure(found.error);
          }
          cid := FirstItem(found.value);
        case ToGroup(g) =>
          var found := meta.FindGroupByName(g);
          if found.Failure? {
            return Failure(found.error);
          }
          cid := Success(Str(found.value.0));
        case ToChannel(c) =>
          var found := meta.FindChannelByName(c);
          if found.Failure? {
            return Failure(found.error);
          }
          cid := Success(Str(found.value.0));
      }
    }

    /**
      `onMessage`: decodes the frame's body, which must succeed or the
      exception leaves `onMessage`; then updates the store and calls the
      application's handler, whose outcome is `handlerOutcome`. A failure of
      either is logged and does not stop the other. `now` is the clock when
      the frame is decoded, `copyTime` the clock when the store copies the
      event; the copy's timestamp differs when the body has no `ts`, but the
      update reads only the event's kind and body.
     */
    method OnMessage(raw: Record, now: int, copyTime: int, handlerOutcome: Outcome) returns (r: Outcome)
      requires Valid()
      modifies this`errorLog, this`delivered, meta
      ensures Valid()
      ensures meta.token == old(meta.token) && meta.apiCalls == old(meta.apiCalls)
      ensures nextMessageId == old(nextMessageId) && outbox == old(outbox)
      ensures DecodeEvent(raw, now).Failure? ==>
        r == Fail(DecodeEvent(raw, now).error)
        && meta.Snapshot() == old(meta.Snapshot()) && errorLog == old(errorLog) && delivered == old(delivered)
      ensures DecodeEvent(raw, now).Success? ==>
        var e := DecodeEvent(raw, now).value;
        && r == Pass
        && meta.Snapshot() == StoreAfter(old(meta.Snapshot()), e)
        && delivered == old(delivered) + [e]
        && errorLog == old(errorLog) + Logged(UpdateOutcome(old(meta.Snapshot()), e)) + Logged(handlerOutcome)
    {
      var decoded := DecodeEvent(raw, now);
      if decoded.Failure? {
        return Fail(decoded.error);
      }
      var e := decoded.value;
      ghost var before := meta.Snapshot();
      CopyRedecodes(raw, now, copyTime);
      ApplyIgnoresStamp(before, e, Copy(e, copyTime).value);
      var updated := meta.Update(e, copyTime);
      if updated.Fail? {
        errorLog := errorLog + [updated.error];
      }
      delivered := delivered + [e];
      if handlerOutcome.Fail? {
        errorLog := errorLog + [handlerOutcome.error];
      }
      return Pass;
    }
  }
}
