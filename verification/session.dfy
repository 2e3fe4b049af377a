/**
  The session metadata store: the client's mirror of the team's users,
  channels, private groups, IMs and bots, built from the bootstrap snapshot
  and kept up to date by applying inbound events.

  `SessionMetadata` is the store itself; its methods change its fields in
  place. `Store` is the value of those fields, and `ApplyEvent` says, as a
  function on that value, what applying one event does; `UpdateDeferred`
  is proved to do exactly that.
 */
module Session {
  import opened Values
  import opened Event
  import opened Resources

  // ---------------------------------------------------------------------
  // The store's state
  // ---------------------------------------------------------------------

  datatype Store = Store(
    url: Value,
    me: Value,
    team: Value,
    users: Collection,
    channels: Collection,
    groups: Collection,
    ims: Collection,
    bots: Collection)

  /** A collection as the store keeps it: each id once, and never inside its own record. */
  predicate CollectionValid(c: Collection) {
    DistinctIds(c) && NoIdField(c)
  }

  predicate StoreValid(s: Store) {
    CollectionValid(s.users) && CollectionValid(s.channels) && CollectionValid(s.groups)
    && CollectionValid(s.ims) && CollectionValid(s.bots)
  }

  /** A call made through the REST facade: its two-part method name and its parameters. */
  datatype ApiCall = ApiCall(name: string, params: map<string, Value>)

  // ---------------------------------------------------------------------
  // Normalising the bootstrap lists
  // ---------------------------------------------------------------------

  /** The element at position `i` of a bootstrap list is a record whose `id` is `k`. */
  predicate HasId(items: seq<Value>, i: int, k: string)
    requires 0 <= i < |items|
  {
    items[i].Obj? && "id" in items[i].fields && items[i].fields["id"] == Str(k)
  }

  /** Every element is a record with a string id. */
  predicate WellFormedItems(items: seq<Value>) {
    forall i :: 0 <= i < |items| ==> items[i].Obj? && "id" in items[i].fields && items[i].fields["id"].Str?
  }

  /**
    The collection made from a bootstrap list: each record stored under its
    id, without the id. A later record with the same id replaces an earlier
    one. The first element that is not a record with a string id is an error.
   */
  function NormaliseItems(items: seq<Value>): (r: Result<Collection>)
    ensures r.Success? <==> WellFormedItems(items)
    ensures r.Success? ==> CollectionValid(r.value)
    decreases |items|
  {
    if items == [] then
      Success([])
    else
      var n := |items| - 1;
      var front := items[..n];
      assert forall i :: 0 <= i < n ==> items[i] == front[i];
      var acc :- NormaliseItems(front);
      var e := items[n];
      if !e.Obj? then Failure(TypeError("resource records are dictionaries"))
      else if "id" !in e.fields then Failure(KeyError(Str("id")))
      else Insert(acc, e.fields["id"], Strip(e.fields))
  }

  /** A normalised list is its front normalised, with its last record put under its id. */
  lemma NormaliseStep(items: seq<Value>)
    requires items != [] && NormaliseItems(items).Success?
    ensures var n := |items| - 1;
      && NormaliseItems(items[..n]).Success?
      && items[n].Obj? && "id" in items[n].fields && items[n].fields["id"].Str?
      && NormaliseItems(items).value == Put(NormaliseItems(items[..n]).value, items[n].fields["id"].s, Strip(items[n].fields))
  {
  }

  /** Every id of the normalised collection is the id of some record of the list. */
  lemma {:induction false} NormaliseIdsSound(items: seq<Value>, k: string)
    requires NormaliseItems(items).Success?
    requires k in IdSet(NormaliseItems(items).value)
    ensures exists i :: 0 <= i < |items| && HasId(items, i, k)
  {
    var n := |items| - 1;
    var front := items[..n];
    NormaliseStep(items);
    var whole := NormaliseItems(items).value;
    var part := NormaliseItems(front).value;
    var id := items[n].fields["id"].s;
    assert whole == Put(part, id, Strip(items[n].fields));
    if k == id {
      assert HasId(items, n, k);
    } else {
      assert k in IdSet(part);
      NormaliseIdsSound(front, k);
      var i :| 0 <= i < |front| && HasId(front, i, k);
      assert front[i] == items[i];
      assert HasId(items, i, k);
    }
  }

  /** The id of every record of the list is an id of the normalised collection. */
  lemma {:induction false} NormaliseIdsComplete(items: seq<Value>, i: int, k: string)
    requires NormaliseItems(items).Success?
    requires 0 <= i < |items| && HasId(items, i, k)
    ensures k in IdSet(NormaliseItems(items).value)
  {
    var n := |items| - 1;
    var front := items[..n];
    NormaliseStep(items);
    var whole := NormaliseItems(items).value;
    var part := NormaliseItems(front).value;
    var id := items[n].fields["id"].s;
    assert whole == Put(part, id, Strip(items[n].fields));
    assert IdSet(whole) == IdSet(part) + {id};
    if i < n {
      assert front[i] == items[i];
      assert HasId(front, i, k);
      NormaliseIdsComplete(front, i, k);
      assert k in IdSet(part);
    } else {
      assert i == n;
      assert items[i] == items[n];
      assert k == id;
      assert k in IdSet(whole);
    }
  }

  /** Each id keeps the record of its last occurrence in the list, without the id. */
  lemma {:induction false} NormaliseLaterWins(items: seq<Value>, i: int, k: string)
    requires NormaliseItems(items).Success?
    requires 0 <= i < |items| && HasId(items, i, k)
    requires forall j :: i < j < |items| ==> !HasId(items, j, k)
    ensures Get(NormaliseItems(items).value, k) == Some(Strip(items[i].fields))
  {
    var n := |items| - 1;
    var front := items[..n];
    NormaliseStep(items);
    var whole := NormaliseItems(items).value;
    var part := NormaliseItems(front).value;
    var id := items[n].fields["id"].s;
    assert whole == Put(part, id, Strip(items[n].fields));
    if i == n {
      assert Get(whole, k) == Some(Strip(items[n].fields));
    } else {
      assert front[i] == items[i];
      assert HasId(front, i, k);
      forall j | i < j < |front| ensures !HasId(front, j, k) {
        assert front[j] == items[j];
        assert !HasId(items, j, k);
      }
      NormaliseLaterWins(front, i, k);
      assert !HasId(items, n, k);
    }
  }

  /**
    `transform_metadata`: iterating over the bootstrap value. A list gives
    its elements; an empty dictionary or string gives none; a non-empty one
    gives keys or characters, which cannot be subscripted by `id`.
   */
  function Normalise(blob: Value): (r: Result<Collection>)
    ensures r.Success? ==> CollectionValid(r.value)
    ensures !blob.List? ==> (r.Success? <==> blob == Obj(map[]) || blob == Str(""))
    ensures !blob.List? && r.Success? ==> r.value == []
  {
    match blob
    case List(items) => NormaliseItems(items)
    case Obj(m) => if m == map[] then Success([]) else Failure(TypeError("string indices must be integers"))
    case Str(s) => if s == "" then Success([]) else Failure(TypeError("string indices must be integers"))
    case _ => Failure(TypeError("object is not iterable"))
  }

  /** Normalising one more item of a list: the step `transform_metadata`'s loop takes. */
  lemma NormaliseNext(items: seq<Value>, i: nat)
    requires i < |items|
    ensures NormaliseItems(items[..i + 1]) ==
      if NormaliseItems(items[..i]).Failure? then NormaliseItems(items[..i])
      else if !items[i].Obj? then Failure(TypeError("resource records are dictionaries"))
      else if "id" !in items[i].fields then Failure(KeyError(Str("id")))
      else Insert(NormaliseItems(items[..i]).value, items[i].fields["id"], Strip(items[i].fields))
  {
    assert items[..i + 1][..i] == items[..i];
  }

  /** Once a prefix of the list is refused, so is the whole list, with the same error. */
  lemma {:induction false} NormaliseFailurePersists(items: seq<Value>, i: nat)
    requires i <= |items|
    requires NormaliseItems(items[..i]).Failure?
    ensures NormaliseItems(items) == NormaliseItems(items[..i])
    decreases |items| - i
  {
    if i < |items| {
      var longer := items[..i + 1];
      assert longer[..i] == items[..i];
      NormaliseFailurePersists(items, i + 1);
    } else {
      assert items[..i] == items;
    }
  }

  /** `transform_metadata`, as the loop the source runs over the list. */
  method TransformMetadata(blob: Value) returns (r: Result<Collection>)
    ensures r == Normalise(blob)
  {
    if !blob.List? {
      return Normalise(blob);
    }
    var items := blob.items;
    var o: Collection := [];
    for i := 0 to |items|
      invariant NormaliseItems(items[..i]) == Success(o)
    {
      var e := items[i];
      NormaliseNext(items, i);
      if !e.Obj? {
        r := Failure(TypeError("resource records are dictionaries"));
        NormaliseFailurePersists(items, i + 1);
        return;
      }
      if "id" !in e.fields {
        r := Failure(KeyError(Str("id")));
        NormaliseFailurePersists(items, i + 1);
        return;
      }
      var stored := Insert(o, e.fields["id"], Strip(e.fields));
      if stored.Failure? {
        r := Failure(stored.error);
        NormaliseFailurePersists(items, i + 1);
        return;
      }
      o := stored.value;
    }
    assert items[..|items|] == items;
    r := Success(o);
  }

  /** `data[key]` on the bootstrap reply. */
  function Field(data: Record, key: string): (r: Result<Value>)
    ensures r.Success? <==> key in data
  {
    if key in data then Success(data[key]) else Failure(KeyError(Str(key)))
  }

  /** The store `SessionMetadata.__init__` builds from the bootstrap reply, reading its fields in the source's order. */
  function Bootstrap(data: Record): (r: Result<Store>)
    ensures r.Success? ==> StoreValid(r.value)
    ensures r.Success? ==> "url" in data && "self" in data && "team" in data
    ensures r.Success? ==> r.value.url == data["url"] && r.value.me == data["self"] && r.value.team == data["team"]
    ensures r.Success? <==>
      && "url" in data && "self" in data && "team" in data
      && "users" in data && Normalise(data["users"]).Success?
      && "channels" in data && Normalise(data["channels"]).Success?
      && "groups" in data && Normalise(data["groups"]).Success?
      && "ims" in data && Normalise(data["ims"]).Success?
      && "bots" in data && Normalise(data["bots"]).Success?
    ensures r.Success? ==>
      && Success(r.value.users) == Normalise(data["users"]) && Success(r.value.channels) == Normalise(data["channels"])
      && Success(r.value.groups) == Normalise(data["groups"]) && Success(r.value.ims) == Normalise(data["ims"])
      && Success(r.value.bots) == Normalise(data["bots"])
    ensures "url" !in data ==> r == Failure(KeyError(Str("url")))
  {
    var url :- Field(data, "url");
    var me :- Field(data, "self");
    var team :- Field(data, "team");
    var usersBlob :- Field(data, "users");
    var users :- Normalise(usersBlob);
    var channelsBlob :- Field(data, "channels");
    var channels :- Normalise(channelsBlob);
    var groupsBlob :- Field(data, "groups");
    var groups :- Normalise(groupsBlob);
    var imsBlob :- Field(data, "ims");
    var ims :- Normalise(imsBlob);
    var botsBlob :- Field(data, "bots");
    var bots :- Normalise(botsBlob);
    Success(Store(url, me, team, users, channels, groups, ims, bots))
  }

  // ---------------------------------------------------------------------
  // Case-insensitive lookup
  // ---------------------------------------------------------------------

  /** The record's `key` attribute equals `value`, ignoring case. */
  predicate Matches(r: Record, key: string, value: string) {
    key in r && r[key].Str? && Upper(r[key].s) == Upper(value)
  }

  /** The record's `key` attribute is not a string, so upper-casing it raises. */
  predicate Raises(r: Record, key: string) {
    key in r && !r[key].Str?
  }

  /** Neither matches nor raises: the scan passes over it. */
  predicate Passes(r: Record, key: string, value: string) {
    !Matches(r, key, value) && !Raises(r, key)
  }

  /**
    The first entry, in the collection's order, whose `key` attribute equals
    `value` ignoring case. Upper-casing a non-string attribute on the way
    raises; when nothing matches the KeyError carries the query as given.
   */
  function FindFirst(c: Collection, key: string, value: string): (r: Result<(string, Record)>)
    ensures r.Success? ==> exists i :: 0 <= i < |c| && c[i] == r.value && Matches(c[i].1, key, value)
                                     && forall j :: 0 <= j < i ==> Passes(c[j].1, key, value)
    ensures r == Failure(KeyError(Str(value))) <==> forall j :: 0 <= j < |c| ==> Passes(c[j].1, key, value)
    ensures r.Failure? && r != Failure(KeyError(Str(value))) ==>
              r.error == AttributeError("value", "upper")
              && exists i :: 0 <= i < |c| && Raises(c[i].1, key) && forall j :: 0 <= j < i ==> Passes(c[j].1, key, value)
  {
    if c == [] then
      Failure(KeyError(Str(value)))
    else if Raises(c[0].1, key) then
      Failure(AttributeError("value", "upper"))
    else if Matches(c[0].1, key, value) then
      Success(c[0])
    else
      var r := FindFirst(c[1..], key, value);
      assert forall j :: 0 <= j < |c[1..]| ==> c[1..][j] == c[j + 1];
      if r.Success? then
        var i :| 0 <= i < |c[1..]| && c[1..][i] == r.value && Matches(c[1..][i].1, key, value)
                 && forall j :: 0 <= j < i ==> Passes(c[1..][j].1, key, value);
        assert forall j :: 0 <= j < i + 1 ==> Passes(c[j].1, key, value) by {
          forall j | 0 <= j < i + 1 ensures Passes(c[j].1, key, value) {
            if j > 0 { assert c[j] == c[1..][j - 1]; }
          }
        }
        r
      else if r != Failure(KeyError(Str(value))) then
        var i :| 0 <= i < |c[1..]| && Raises(c[1..][i].1, key) && forall j :: 0 <= j < i ==> Passes(c[1..][j].1, key, value);
        assert forall j :: 0 <= j < i + 1 ==> Passes(c[j].1, key, value) by {
          forall j | 0 <= j < i + 1 ensures Passes(c[j].1, key, value) {
            if j > 0 { assert c[j] == c[1..][j - 1]; }
          }
        }
        assert Raises(c[i + 1].1, key);
        r
      else
        r
  }

  /** The query's case does not matter: two queries equal up to case find the same entry. */
  lemma {:induction false} FindIgnoresCase(c: Collection, key: string, v1: string, v2: string)
    requires Upper(v1) == Upper(v2)
    ensures FindFirst(c, key, v1).Success? <==> FindFirst(c, key, v2).Success?
    ensures FindFirst(c, key, v1).Success? ==> FindFirst(c, key, v1) == FindFirst(c, key, v2)
  {
    if c != [] {
      FindIgnoresCase(c[1..], key, v1, v2);
    }
  }

  /** The response of `im.open` gives the new IM's id at `channel.id`. */
  function OpenedChannelId(reply: Result<Record>): (r: Result<Value>)
    ensures r.Success? <==> reply.Success? && "channel" in reply.value && reply.value["channel"].Obj?
                            && "id" in reply.value["channel"].fields
    ensures r.Success? ==> r.value == reply.value["channel"].fields["id"]
  {
    var response :- reply;
    var channel :- Field(response, "channel");
    var ch :- Subscript(channel, "id");
    Success(ch)
  }

  /** `v[key]` for a string key: a dictionary's entry, or the error Python raises for anything else. */
  function Subscript(v: Value, key: string): (r: Result<Value>)
    ensures r.Success? <==> v.Obj? && key in v.fields
    ensures r.Success? ==> r.value == v.fields[key]
    ensures v.Obj? && key !in v.fields ==> r == Failure(KeyError(Str(key)))
  {
    match v
    case Obj(m) => if key in m then Success(m[key]) else Failure(KeyError(Str(key)))
    case List(_) => Failure(TypeError("list indices must be integers"))
    case Str(_) => Failure(TypeError("string indices must be integers"))
    case _ => Failure(TypeError("object is not subscriptable"))
  }

  /** `v[key] = x`: a dictionary with that entry set. Keys are strings in this model. */
  function SetItem(v: Value, key: Value, x: Value): (r: Result<Value>)
    ensures r.Success? <==> v.Obj? && key.Str?
    ensures r.Success? ==> r.value == Obj(v.fields[key.s := x])
  {
    if !v.Obj? then Failure(TypeError("object does not support item assignment"))
    else if !Hashable(key) then Failure(TypeError("unhashable type"))
    else if !key.Str? then Failure(TypeError("dictionary keys are strings"))
    else Success(Obj(v.fields[key.s := x]))
  }

  // ---------------------------------------------------------------------
  // Applying events
  // ---------------------------------------------------------------------

  /** The record an event's `channel` (or `user`) dictionary carries, and its id. */
  function Incoming(e: Event, attr: string): (r: Result<(Value, Record)>)
    ensures r.Success? <==> attr in e.body && e.body[attr].Obj? && "id" in e.body[attr].fields
    ensures r.Success? ==> r.value.0 == e.body[attr].fields["id"] && r.value.1 == Strip(e.body[attr].fields)
  {
    var v :- e.Attr(attr);
    var id :- Subscript(v, "id");
    Success((id, Strip(v.fields)))
  }

  /** channel_created: the channel under its id, without the id, neither archived nor joined. */
  function ChannelCreatedUpdate(c: Collection, e: Event): Result<Collection> {
    var (id, rec) :- Incoming(e, "channel");
    Insert(c, id, rec["is_archived" := Bool(false)]["is_member" := Bool(false)])
  }

  /** channel_joined: the channel under its id, without the id, as sent. */
  function ChannelJoinedUpdate(c: Collection, e: Event): Result<Collection> {
    var (id, rec) :- Incoming(e, "channel");
    Insert(c, id, rec)
  }

  /** An update of one attribute of the record the event's `attr` names. */
  function FlagUpdate(c: Collection, e: Event, attr: string, field: string, v: Value): Result<Collection> {
    var key :- e.Attr(attr);
    SetField(c, key, field, v)
  }

  /** channel_deleted: the channel is kept, archived and closed. */
  function ChannelDeletedUpdate(c: Collection, e: Event): Result<Collection> {
    var key :- e.Attr("channel");
    var c1 :- SetField(c, key, "is_archived", Bool(true));
    SetField(c1, key, "is_open", Bool(false))
  }

  /** channel_marked / im_marked: `last_read` becomes the event's raw `ts`, which is read first. */
  function MarkedUpdate(c: Collection, e: Event): Result<Collection> {
    var ts :- Field(e.body, "ts");
    var key :- e.Attr("channel");
    SetField(c, key, "last_read", ts)
  }

  /**
    channel_rename: the new name is read from the event, and then the store
    is reached through an attribute it does not have, so the update always
    fails.
   */
  function ChannelRenameUpdate(e: Event): Result<Collection> {
    var channel :- e.Attr("channel");
    var name :- Subscript(channel, "name");
    Failure(AttributeError("SessionMetadata", "channel"))
  }

  /** im_created: the IM under its id, without the id, with the event's `user` attached. */
  function ImCreatedUpdate(c: Collection, e: Event): Result<Collection> {
    var (id, rec) :- Incoming(e, "channel");
    var user :- e.Attr("user");
    Insert(c, id, rec["user" := user])
  }

  /** presence_change: the user's `presence` becomes the event's. */
  function PresenceChangeUpdate(c: Collection, e: Event): Result<Collection> {
    var presence :- e.Attr("presence");
    var key :- e.Attr("user");
    SetField(c, key, "presence", presence)
  }

  /**
    user_change: the user's record is replaced by the event's, without the
    id. The event's `status` must be present; when it is null and the user
    already has a presence, that presence becomes the status, and only then
    must the user already exist.
   */
  function UserChangeUpdate(c: Collection, e: Event): Result<Collection> {
    var (uid, rec) :- Incoming(e, "user");
    var status :- Field(rec, "status");
    var carried :- if status == Null then
                     var prior :- Lookup(c, uid);
                     Success(if "presence" in prior then rec["status" := prior["presence"]] else rec)
                   else Success(rec);
    Insert(c, uid, carried)
  }

  /** team_pref_change: `team.prefs[name] = value`, reading `value` first. */
  function TeamPrefChangeUpdate(team: Value, e: Event): Result<Value> {
    var value :- e.Attr("value");
    var prefs :- Subscript(team, "prefs");
    var name :- e.Attr("name");
    var prefs' :- SetItem(prefs, name, value);
    SetItem(team, Str("prefs"), prefs')
  }

  /** The kinds whose update changes `channels`. */
  predicate ChannelKind(k: Kind) {
    k == ChannelCreated || k == ChannelArchive || k == ChannelDeleted || k == ChannelJoined
    || k == ChannelLeft || k == ChannelMarked || k == ChannelRename || k == ChannelUnarchive
  }

  /** The kinds whose update changes `ims`. */
  predicate ImKind(k: Kind) {
    k == ImClose || k == ImCreated || k == ImMarked || k == ImOpen
  }

  /** The kinds whose update changes `users`. */
  predicate UserKind(k: Kind) {
    k == PresenceChange || k == UserChange
  }

  /** The kinds that reach the end of the source's chain of kind tests. */
  predicate Unhandled(k: Kind) {
    k == Hello || k == Message || k == Unknown || k.IsHistoryChanged()
  }

  /**
    `_update_deferred`: what applying one event does to the store. The last
    test of the source's chain names a class the decoder does not define, so
    every unhandled kind ends in a NameError.
   */
  function ApplyEvent(s: Store, e: Event): (r: Result<Store>)
    ensures r.Success? ==> r.value.url == s.url && r.value.me == s.me && r.value.groups == s.groups && r.value.bots == s.bots
  {
    match e.kind
    case ChannelCreated =>
      var c :- ChannelCreatedUpdate(s.channels, e); Success(s.(channels := c))
    case ChannelArchive =>
      var c :- FlagUpdate(s.channels, e, "channel", "is_archived", Bool(true)); Success(s.(channels := c))
    case ChannelDeleted =>
      var c :- ChannelDeletedUpdate(s.channels, e); Success(s.(channels := c))
    case ChannelJoined =>
      var c :- ChannelJoinedUpdate(s.channels, e); Success(s.(channels := c))
    case ChannelLeft =>
      var c :- FlagUpdate(s.channels, e, "channel", "is_member", Bool(false)); Success(s.(channels := c))
    case ChannelMarked =>
      var c :- MarkedUpdate(s.channels, e); Success(s.(channels := c))
    case ChannelRename =>
      var c :- ChannelRenameUpdate(e); Success(s.(channels := c))
    case ChannelUnarchive =>
      var c :- FlagUpdate(s.channels, e, "channel", "is_archived", Bool(false)); Success(s.(channels := c))
    case ImClose =>
      var c :- FlagUpdate(s.ims, e, "channel", "is_open", Bool(false)); Success(s.(ims := c))
    case ImCreated =>
      var c :- ImCreatedUpdate(s.ims, e); Success(s.(ims := c))
    case ImMarked =>
      var c :- MarkedUpdate(s.ims, e); Success(s.(ims := c))
    case ImOpen =>
      var c :- FlagUpdate(s.ims, e, "channel", "is_open", Bool(true)); Success(s.(ims := c))
    case PresenceChange =>
      var c :- PresenceChangeUpdate(s.users, e); Success(s.(users := c))
    case UserChange =>
      var c :- UserChangeUpdate(s.users, e); Success(s.(users := c))
    case TeamPrefChange =>
      var t :- TeamPrefChangeUpdate(s.team, e); Success(s.(team := t))
    case _ =>
      Failure(NameError("TeamJoin"))
  }

  // ---------------------------------------------------------------------
  // The store object
  // ---------------------------------------------------------------------

  class SessionMetadata {
    var token: Value
    var url: Value
    var me: Value
    var team: Value
    var users: Collection
    var channels: Collection
    var groups: Collection
    var ims: Collection
    var bots: Collection
    /** The protocol that owns this store, set when the protocol is seeded with it. */
    var protocol: object?
    /** Every call made through the REST facade, oldest first. */
    ghost var apiCalls: seq<ApiCall>

    function Snapshot(): Store
      reads this
    {
      Store(url, me, team, users, channels, groups, ims, bots)
    }

    ghost predicate Valid()
      reads this
    {
      StoreValid(Snapshot())
    }

    constructor (token: Value, s: Store)
      requires StoreValid(s)
      ensures Valid() && Snapshot() == s
      ensures this.token == token && protocol == null && apiCalls == []
    {
      this.token := token;
      url, me, team := s.url, s.me, s.team;
      users, channels, groups, ims, bots := s.users, s.channels, s.groups, s.ims, s.bots;
      protocol := null;
      apiCalls := [];
    }

    /** `__init__`: builds the store from the bootstrap reply, or raises as the source does. */
    static method Create(data: Record, token: Value) returns (r: Result<SessionMetadata>)
      ensures r.Success? <==> Bootstrap(data).Success?
      ensures r.Success? ==> fresh(r.value) && r.value.Valid() && r.value.Snapshot() == Bootstrap(data).value
      ensures r.Success? ==> r.value.token == token && r.value.apiCalls == []
      ensures r.Failure? ==> r.error == Bootstrap(data).error
    {
      if "url" !in data { return Failure(KeyError(Str("url"))); }
      if "self" !in data { return Failure(KeyError(Str("self"))); }
      if "team" !in data { return Failure(KeyError(Str("team"))); }
      if "users" !in data { return Failure(KeyError(Str("users"))); }
      var users := TransformMetadata(data["users"]);
      if users.Failure? { return Failure(users.error); }
      if "channels" !in data { return Failure(KeyError(Str("channels"))); }
      var channels := TransformMetadata(data["channels"]);
      if channels.Failure? { return Failure(channels.error); }
      if "groups" !in data { return Failure(KeyError(Str("groups"))); }
      var groups := TransformMetadata(data["groups"]);
      if groups.Failure? { return Failure(groups.error); }
      if "ims" !in data { return Failure(KeyError(Str("ims"))); }
      var ims := TransformMetadata(data["ims"]);
      if ims.Failure? { return Failure(ims.error); }
      if "bots" !in data { return Failure(KeyError(Str("bots"))); }
      var bots := TransformMetadata(data["bots"]);
      if bots.Failure? { return Failure(bots.error); }
      var s := Store(data["url"], data["self"], data["team"],
                     users.value, channels.value, groups.value, ims.value, bots.value);
      var m := new SessionMetadata(token, s);
      return Success(m);
    }

    /** `_find_resource_by_key`: the first entry whose `key` attribute equals `value` ignoring case. */
    method FindResourceByKey(resources: Collection, key: string, value: string) returns (r: Result<(string, Record)>)
      ensures r == FindFirst(resources, key, value)
    {
      var wanted := Upper(value);
      var i := 0;
      while i < |resources|
        invariant 0 <= i <= |resources|
        invariant FindFirst(resources, key, value) == FindFirst(resources[i..], key, value)
      {
        var (k, resource) := resources[i];
        assert resources[i..][1..] == resources[i + 1..];
        if key in resource {
          if !resource[key].Str? {
            return Failure(AttributeError("value", "upper"));
          }
          if Upper(resource[key].s) == wanted {
            return Success((k, resource));
          }
        }
        i := i + 1;
      }
      return Failure(KeyError(Str(value)));
    }

    method FindChannelByName(name: string) returns (r: Result<(string, Record)>)
      ensures r == FindFirst(channels, "name", name)
    {
      r := FindResourceByKey(channels, "name", name);
    }

    method FindUserByName(name: string) returns (r: Result<(string, Record)>)
      ensures r == FindFirst(users, "name", name)
    {
      r := FindResourceByKey(users, "name", name);
    }

    method FindGroupByName(name: string) returns (r: Result<(string, Record)>)
      ensures r == FindFirst(groups, "name", name)
    {
      r := FindResourceByKey(groups, "name", name);
    }

    method FindImByUserId(uid: string) returns (r: Result<(string, Record)>)
      ensures r == FindFirst(ims, "user", uid)
    {
      r := FindResourceByKey(ims, "user", uid);
    }

    /** `find_im_by_user_name`, with `openReply` the answer the `im.open` call gets if one is made. */
    method FindImByUserName(name: string, autoCreate: bool, openReply: Result<Record>) returns (r: Result<ImLookup>)
      modifies this`apiCalls
      ensures r == ImByUserName(Snapshot(), name, autoCreate, openReply)
      ensures apiCalls == old(apiCalls) + ImOpenCalls(Snapshot(), token, name, autoCreate)
    {
      var user := FindUserByName(name);
      if user.Failure? {
        return Failure(user.error);
      }
      var uid := user.value.0;
      var im := FindImByUserId(uid);
      if im.Success? {
        return Success(Existing(im.value.0, im.value.1));
      }
      if !im.error.KeyError? || !autoCreate {
        return Failure(im.error);
      }
      apiCalls := apiCalls + [ApiCall("im.open", map["token" := token, "user" := Str(uid)])];
      var id := OpenedChannelId(openReply);
      if id.Failure? {
        return Failure(id.error);
      }
      return Success(Opened(id.value));
    }

    /**
      `update`: applies a fresh copy of the event. The source hands the
      application to a worker thread; here it runs at once.
     */
    method Update(e: Event, now: int) returns (o: Outcome)
      requires Valid()
      modifies this
      ensures Valid()
      ensures token == old(token) && protocol == old(protocol) && apiCalls == old(apiCalls)
      ensures Copy(e, now).Failure? ==> o == Fail(Copy(e, now).error) && Snapshot() == old(Snapshot())
      ensures Copy(e, now).Success? ==> match ApplyEvent(old(Snapshot()), Copy(e, now).value)
        case Success(s) => o == Pass && Snapshot() == s
        case Failure(err) => o == Fail(err) && Snapshot() == old(Snapshot())
    {
      var copy := Copy(e, now);
      if copy.Failure? {
        return Fail(copy.error);
      }
      o := UpdateDeferred(copy.value);
    }

    /** `_update_deferred`: applies one event to the store's fields in place. */
    method UpdateDeferred(e: Event) returns (o: Outcome)
      requires Valid()
      modifies this
      ensures Valid()
      ensures token == old(token) && protocol == old(protocol) && apiCalls == old(apiCalls)
      ensures match ApplyEvent(old(Snapshot()), e)
        case Success(s) => o == Pass && Snapshot() == s
        case Failure(err) => o == Fail(err) && Snapshot() == old(Snapshot())
    {
      ApplyKeepsValid(Snapshot(), e);
      if ChannelKind(e.kind) {
        o := UpdateChannels(e);
      } else if ImKind(e.kind) {
        o := UpdateIms(e);
      } else if UserKind(e.kind) {
        o := UpdateUsers(e);
      } else if e.kind == TeamPrefChange {
        o := UpdateTeam(e);
      } else {
        o := Fail(NameError("TeamJoin"));
      }
    }

    /** The channel branches of `_update_deferred`: only `channels` changes. */
    method UpdateChannels(e: Event) returns (o: Outcome)
      requires ChannelKind(e.kind)
      modifies this`channels
      ensures match ApplyEvent(old(Snapshot()), e)
        case Success(s) => o == Pass && Snapshot() == s
        case Failure(err) => o == Fail(err) && Snapshot() == old(Snapshot())
    {
      var r: Result<Collection>;
      match e.kind {
        case ChannelCreated => r := ChannelCreatedUpdate(channels, e);
        case ChannelArchive => r := FlagUpdate(channels, e, "channel", "is_archived", Bool(true));
        case ChannelDeleted => r := ChannelDeletedUpdate(channels, e);
        case ChannelJoined => r := ChannelJoinedUpdate(channels, e);
        case ChannelLeft => r := FlagUpdate(channels, e, "channel", "is_member", Bool(false));
        case ChannelMarked => r := MarkedUpdate(channels, e);
        case ChannelRename => r := ChannelRenameUpdate(e);
        case ChannelUnarchive => r := FlagUpdate(channels, e, "channel", "is_archived", Bool(false));
      }
      if r.Failure? { return Fail(r.error); }
      channels := r.value;
      o := Pass;
    }

    /** The IM branches of `_update_deferred`: only `ims` changes. */
    method UpdateIms(e: Event) returns (o: Outcome)
      requires ImKind(e.kind)
      modifies this`ims
      ensures match ApplyEvent(old(Snapshot()), e)
        case Success(s) => o == Pass && Snapshot() == s
        case Failure(err) => o == Fail(err) && Snapshot() == old(Snapshot())
    {
      var r: Result<Collection>;
      match e.kind {
        case ImClose => r := FlagUpdate(ims, e, "channel", "is_open", Bool(false));
        case ImCreated => r := ImCreatedUpdate(ims, e);
        case ImMarked => r := MarkedUpdate(ims, e);
        case ImOpen => r := FlagUpdate(ims, e, "channel", "is_open", Bool(true));
      }
      if r.Failure? { return Fail(r.error); }
      ims := r.value;
      o := Pass;
    }

    /** The team branch of `_update_deferred`: only `team` changes. */
    method UpdateTeam(e: Event) returns (o: Outcome)
      requires e.kind == TeamPrefChange
      modifies this`team
      ensures match ApplyEvent(old(Snapshot()), e)
        case Success(s) => o == Pass && Snapshot() == s
        case Failure(err) => o == Fail(err) && Snapshot() == old(Snapshot())
    {
      var r := TeamPrefChangeUpdate(team, e);
      if r.Failure? { return Fail(r.error); }
      team := r.value;
      o := Pass;
    }

    /** The user branches of `_update_deferred`: only `users` changes. */
    method UpdateUsers(e: Event) returns (o: Outcome)
      requires UserKind(e.kind)
      modifies this`users
      ensures match ApplyEvent(old(Snapshot()), e)
        case Success(s) => o == Pass && Snapshot() == s
        case Failure(err) => o == Fail(err) && Snapshot() == old(Snapshot())
    {
      var r: Result<Collection>;
      match e.kind {
        case PresenceChange => r := PresenceChangeUpdate(users, e);
        case UserChange => r := UserChangeUpdate(users, e);
      }
      if r.Failure? { return Fail(r.error); }
      users := r.value;
      o := Pass;
    }
  }

  /** What `find_im_by_user_name` returns: the IM entry found, or the id `im.open` answered with. */
  datatype ImLookup = Existing(imId: string, record: Record) | Opened(openedId: Value)

  /**
    `find_im_by_user_name` over a store. An unknown user fails before any IM
    is looked at. When the user has no IM, the lookup's KeyError stands unless
    `autoCreate` holds; then the IM is opened and the id in the reply
    (`openReply`) is the answer.
   */
  function ImByUserName(s: Store, name: string, autoCreate: bool, openReply: Result<Record>): (r: Result<ImLookup>)
    ensures r.Success? && r.value.Opened? <==> OpensIm(s, name, autoCreate) && OpenedChannelId(openReply).Success?
  {
    var user :- FindFirst(s.users, "name", name);
    var im := FindFirst(s.ims, "user", user.0);
    if im.Success? then Success(Existing(im.value.0, im.value.1))
    else if !im.error.KeyError? || !autoCreate then Failure(im.error)
    else
      var id :- OpenedChannelId(openReply);
      Success(Opened(id))
  }

  /** The user is known, no IM lists that user, and auto-creation is on: the lookup opens an IM. */
  predicate OpensIm(s: Store, name: string, autoCreate: bool) {
    && autoCreate
    && FindFirst(s.users, "name", name).Success?
    && FindFirst(s.ims, "user", FindFirst(s.users, "name", name).value.0).Failure?
    && FindFirst(s.ims, "user", FindFirst(s.users, "name", name).value.0).error.KeyError?
  }

  /** The REST calls that lookup makes: one `im.open` for the user's id when it opens an IM, none otherwise. */
  function ImOpenCalls(s: Store, token: Value, name: string, autoCreate: bool): seq<ApiCall> {
    if OpensIm(s, name, autoCreate)
    then [ApiCall("im.open", map["token" := token, "user" := Str(FindFirst(s.users, "name", name).value.0)])]
    else []
  }

  /**
    What the IM lookup answers is right: an existing IM is an entry of the
    store whose `user` is the named user's id; an IM is opened only when no
    IM lists that user and auto-creation is on; and without auto-creation the
    lookup never opens one.
   */
  lemma ImByUserNameSound(s: Store, name: string, autoCreate: bool, openReply: Result<Record>)
    ensures var r := ImByUserName(s, name, autoCreate, openReply);
      && (r.Success? ==> FindFirst(s.users, "name", name).Success?)
      && (r.Success? && r.value.Existing? ==>
            (r.value.imId, r.value.record) in s.ims
            && Matches(r.value.record, "user", FindFirst(s.users, "name", name).value.0))
      && (r.Success? && r.value.Opened? ==>
            OpensIm(s, name, autoCreate)
            && forall j :: 0 <= j < |s.ims| ==> Passes(s.ims[j].1, "user", FindFirst(s.users, "name", name).value.0))
      && (!autoCreate ==> r.Success? ==> r.value.Existing?)
  {
    var r := ImByUserName(s, name, autoCreate, openReply);
    if r.Success? && r.value.Existing? {
      var uid := FindFirst(s.users, "name", name).value.0;
      var im := FindFirst(s.ims, "user", uid);
      var i :| 0 <= i < |s.ims| && s.ims[i] == im.value && Matches(s.ims[i].1, "user", uid)
               && forall j :: 0 <= j < i ==> Passes(s.ims[j].1, "user", uid);
    }
  }

  /**
    The converse: an unknown user is the user lookup's error; a user with a
    matching IM (and nothing before it that matches or raises) gets exactly
    that IM; a user whom no IM lists gets the re-raised KeyError without
    auto-creation, and with it the `channel.id` of the `im.open` reply, or
    that reply's error.
   */
  lemma {:induction false} ImByUserNameComplete(s: Store, name: string, autoCreate: bool, openReply: Result<Record>)
    ensures var u := FindFirst(s.users, "name", name);
      var r := ImByUserName(s, name, autoCreate, openReply);
      && (u.Failure? ==> r == Failure(u.error))
      && (u.Success? ==>
            var uid := u.value.0;
            && (forall i :: 0 <= i < |s.ims| && Matches(s.ims[i].1, "user", uid)
                  && (forall j :: 0 <= j < i ==> Passes(s.ims[j].1, "user", uid))
                  ==> r == Success(Existing(s.ims[i].0, s.ims[i].1)))
            && ((forall j :: 0 <= j < |s.ims| ==> Passes(s.ims[j].1, "user", uid)) ==>
                  && (!autoCreate ==> r == Failure(KeyError(Str(uid))))
                  && (autoCreate && OpenedChannelId(openReply).Success? ==> r == Success(Opened(OpenedChannelId(openReply).value)))
                  && (autoCreate && OpenedChannelId(openReply).Failure? ==> r == Failure(OpenedChannelId(openReply).error))))
  {
    var u := FindFirst(s.users, "name", name);
    if u.Success? {
      var uid := u.value.0;
      forall i | 0 <= i < |s.ims| && Matches(s.ims[i].1, "user", uid)
                 && (forall j :: 0 <= j < i ==> Passes(s.ims[j].1, "user", uid))
        ensures ImByUserName(s, name, autoCreate, openReply) == Success(Existing(s.ims[i].0, s.ims[i].1))
      {
        FirstMatchIsFound(s.ims, "user", uid, i);
      }
    }
  }

  /** An entry that matches, with every entry before it passed over, is what the lookup finds. */
  lemma {:induction false} FirstMatchIsFound(c: Collection, key: string, value: string, i: nat)
    requires i < |c| && Matches(c[i].1, key, value)
    requires forall j :: 0 <= j < i ==> Passes(c[j].1, key, value)
    ensures FindFirst(c, key, value) == Success(c[i])
  {
    if i > 0 {
      assert Passes(c[0].1, key, value);
      forall j | 0 <= j < i - 1 ensures Passes(c[1..][j].1, key, value) {
        assert c[1..][j] == c[j + 1];
      }
      FirstMatchIsFound(c[1..], key, value, i - 1);
    }
  }

  // ---------------------------------------------------------------------
  // Properties of the store
  // ---------------------------------------------------------------------

  /** A record inserted under an id keeps the collection valid when it does not carry the id itself. */
  lemma InsertKeepsValid(c: Collection, key: Value, rec: Record)
    requires CollectionValid(c) && "id" !in rec
    ensures Insert(c, key, rec).Success? ==> CollectionValid(Insert(c, key, rec).value)
  {
  }

  /** Applying an event keeps every collection free of repeated ids and of `id` attributes. */
  lemma ApplyKeepsValid(s: Store, e: Event)
    requires StoreValid(s)
    ensures ApplyEvent(s, e).Success? ==> StoreValid(ApplyEvent(s, e).value)
  {
    match e.kind
    case ChannelCreated =>
      var inc := Incoming(e, "channel");
      if inc.Success? {
        InsertKeepsValid(s.channels, inc.value.0, inc.value.1["is_archived" := Bool(false)]["is_member" := Bool(false)]);
      }
    case ChannelJoined =>
      var inc := Incoming(e, "channel");
      if inc.Success? {
        InsertKeepsValid(s.channels, inc.value.0, inc.value.1);
      }
    case ImCreated =>
      var inc := Incoming(e, "channel");
      if inc.Success? && "user" in e.body {
        InsertKeepsValid(s.ims, inc.value.0, inc.value.1["user" := e.body["user"]]);
      }
    case UserChange =>
      var inc := Incoming(e, "user");
      if inc.Success? {
        var (uid, rec) := inc.value;
        if "status" in rec && rec["status"] == Null && Lookup(s.users, uid).Success? {
          var prior := Lookup(s.users, uid).value;
          if "presence" in prior {
            InsertKeepsValid(s.users, uid, rec["status" := prior["presence"]]);
          }
        }
        InsertKeepsValid(s.users, uid, rec);
      }
    case _ =>
  }

  /** channel_rename never updates the store. */
  lemma ChannelRenameAlwaysFails(s: Store, e: Event)
    requires e.kind == ChannelRename
    ensures ChannelRenameUpdate(e).Failure?
    ensures ApplyEvent(s, e).Failure?
    ensures "channel" in e.body && e.body["channel"].Obj? && "name" in e.body["channel"].fields
            ==> ApplyEvent(s, e) == Failure(AttributeError("SessionMetadata", "channel"))
  {
  }

  /** The collections an event can change. */
  datatype Which = Users | Channels | Ims

  function Coll(s: Store, w: Which): Collection {
    match w
    case Users => s.users
    case Channels => s.channels
    case Ims => s.ims
  }

  /** The store is `before` except in collection `w`, which may differ. */
  predicate SameExcept(before: Store, after: Store, w: Which) {
    && before.url == after.url && before.me == after.me && before.team == after.team
    && before.groups == after.groups && before.bots == after.bots
    && (w != Users ==> before.users == after.users)
    && (w != Channels ==> before.channels == after.channels)
    && (w != Ims ==> before.ims == after.ims)
  }

  /** `after` is `before` with the record under `id` set to `rec`, every other record as it was. */
  ghost predicate ChangedOnly(before: Collection, after: Collection, id: string, rec: Record) {
    && IdSet(after) == IdSet(before) + {id}
    && forall k :: Get(after, k) == if k == id then Some(rec) else Get(before, k)
  }

  /**
    The update table's one-flag events, written out on their own: the
    collection each changes, the attribute it sets and the value it sets it to.
   */
  function FlagOf(k: Kind): Option<(Which, string, bool)> {
    match k
    case ChannelArchive => Some((Channels, "is_archived", true))
    case ChannelUnarchive => Some((Channels, "is_archived", false))
    case ChannelLeft => Some((Channels, "is_member", false))
    case ImClose => Some((Ims, "is_open", false))
    case ImOpen => Some((Ims, "is_open", true))
    case _ => None
  }

  /**
    A one-flag event succeeds exactly when its `channel` names a record
    already in the collection, and then sets that one attribute of that one
    record; an id that is absent is a KeyError, never an insertion.
   */
  lemma FlagEventEffect(s: Store, e: Event)
    requires FlagOf(e.kind).Some?
    ensures var (w, field, flag) := FlagOf(e.kind).value;
      && (ApplyEvent(s, e).Success? <==> "channel" in e.body && e.body["channel"].Str? && e.body["channel"].s in IdSet(Coll(s, w)))
      && ("channel" in e.body && Hashable(e.body["channel"]) && !ApplyEvent(s, e).Success? ==> ApplyEvent(s, e) == Failure(KeyError(e.body["channel"])))
      && (ApplyEvent(s, e).Success? ==>
            var id := e.body["channel"].s;
            && SameExcept(s, ApplyEvent(s, e).value, w)
            && ChangedOnly(Coll(s, w), Coll(ApplyEvent(s, e).value, w), id, Get(Coll(s, w), id).value[field := Bool(flag)]))
  {
    match e.kind {
      case ChannelArchive =>
      case ChannelUnarchive =>
      case ChannelLeft =>
      case ImClose =>
      case ImOpen =>
    }
  }

  /** channel_deleted keeps the channel, archived and closed, and changes nothing else. */
  lemma ChannelDeletedEffect(s: Store, e: Event)
    requires e.kind == ChannelDeleted
    ensures ApplyEvent(s, e).Success? <==> "channel" in e.body && e.body["channel"].Str? && e.body["channel"].s in IdSet(s.channels)
    ensures ApplyEvent(s, e).Success? ==>
      var id := e.body["channel"].s;
      && SameExcept(s, ApplyEvent(s, e).value, Channels)
      && ChangedOnly(s.channels, ApplyEvent(s, e).value.channels, id,
                     Get(s.channels, id).value["is_archived" := Bool(true)]["is_open" := Bool(false)])
  {
    if ApplyEvent(s, e).Success? {
      var id := e.body["channel"].s;
      var c1 := SetField(s.channels, e.body["channel"], "is_archived", Bool(true)).value;
      assert Get(c1, id) == Some(Get(s.channels, id).value["is_archived" := Bool(true)]);
    }
  }

  /** channel_marked / im_marked set `last_read` to the event's raw `ts`, which must be present. */
  lemma MarkedEffect(s: Store, e: Event)
    requires e.kind == ChannelMarked || e.kind == ImMarked
    ensures var w := if e.kind == ChannelMarked then Channels else Ims;
      && (ApplyEvent(s, e).Success? <==> "ts" in e.body && "channel" in e.body && e.body["channel"].Str? && e.body["channel"].s in IdSet(Coll(s, w)))
      && ("ts" !in e.body ==> ApplyEvent(s, e) == Failure(KeyError(Str("ts"))))
      && (ApplyEvent(s, e).Success? ==>
            var id := e.body["channel"].s;
            && SameExcept(s, ApplyEvent(s, e).value, w)
            && ChangedOnly(Coll(s, w), Coll(ApplyEvent(s, e).value, w), id, Get(Coll(s, w), id).value["last_read" := e.body["ts"]]))
  {
  }

  /** presence_change sets the named user's `presence`; an unknown user is a KeyError. */
  lemma PresenceChangeEffect(s: Store, e: Event)
    requires e.kind == PresenceChange
    ensures ApplyEvent(s, e).Success? <==> "presence" in e.body && "user" in e.body && e.body["user"].Str? && e.body["user"].s in IdSet(s.users)
    ensures ApplyEvent(s, e).Success? ==>
      var id := e.body["user"].s;
      && SameExcept(s, ApplyEvent(s, e).value, Users)
      && ChangedOnly(s.users, ApplyEvent(s, e).value.users, id, Get(s.users, id).value["presence" := e.body["presence"]])
  {
  }

  /** The record an event carries under `attr` is a dictionary with a string id. */
  predicate CarriesRecord(e: Event, attr: string) {
    attr in e.body && e.body[attr].Obj? && "id" in e.body[attr].fields && e.body[attr].fields["id"].Str?
  }

  /** channel_created stores the channel under its id, without the id, as neither archived nor joined. */
  lemma ChannelCreatedEffect(s: Store, e: Event)
    requires e.kind == ChannelCreated
    ensures ApplyEvent(s, e).Success? <==> CarriesRecord(e, "channel")
    ensures ApplyEvent(s, e).Success? ==>
      var ch := e.body["channel"].fields;
      && SameExcept(s, ApplyEvent(s, e).value, Channels)
      && ChangedOnly(s.channels, ApplyEvent(s, e).value.channels, ch["id"].s,
                     Strip(ch)["is_archived" := Bool(false)]["is_member" := Bool(false)])
  {
  }

  /** channel_joined stores the channel under its id, without the id, adding nothing. */
  lemma ChannelJoinedEffect(s: Store, e: Event)
    requires e.kind == ChannelJoined
    ensures ApplyEvent(s, e).Success? <==> CarriesRecord(e, "channel")
    ensures ApplyEvent(s, e).Success? ==>
      var ch := e.body["channel"].fields;
      && SameExcept(s, ApplyEvent(s, e).value, Channels)
      && ChangedOnly(s.channels, ApplyEvent(s, e).value.channels, ch["id"].s, Strip(ch))
  {
  }

  /** im_created stores the IM under its id, without the id, with the event's `user` attached. */
  lemma ImCreatedEffect(s: Store, e: Event)
    requires e.kind == ImCreated
    ensures ApplyEvent(s, e).Success? <==> CarriesRecord(e, "channel") && "user" in e.body
    ensures ApplyEvent(s, e).Success? ==>
      var ch := e.body["channel"].fields;
      && SameExcept(s, ApplyEvent(s, e).value, Ims)
      && ChangedOnly(s.ims, ApplyEvent(s, e).value.ims, ch["id"].s, Strip(ch)["user" := e.body["user"]])
  {
  }

  /**
    user_change replaces the user's record by the event's, without the id.
    A null status takes the user's prior presence when there is one, and
    then the user must already be known.
   */
  lemma UserChangeEffect(s: Store, e: Event)
    requires e.kind == UserChange
    ensures ApplyEvent(s, e).Success? <==>
      CarriesRecord(e, "user") && "status" in e.body["user"].fields
      && (e.body["user"].fields["status"] == Null ==> e.body["user"].fields["id"].s in IdSet(s.users))
    ensures ApplyEvent(s, e).Success? ==>
      var u := e.body["user"].fields;
      var uid := u["id"].s;
      var carried := if u["status"] == Null && "presence" in Get(s.users, uid).value
                     then Strip(u)["status" := Get(s.users, uid).value["presence"]]
                     else Strip(u);
      && SameExcept(s, ApplyEvent(s, e).value, Users)
      && ChangedOnly(s.users, ApplyEvent(s, e).value.users, uid, carried)
  {
  }

  /** team_pref_change sets one preference in the team's `prefs` and changes nothing else. */
  lemma TeamPrefChangeEffect(s: Store, e: Event)
    requires e.kind == TeamPrefChange
    ensures ApplyEvent(s, e).Success? <==>
      "value" in e.body && "name" in e.body && e.body["name"].Str?
      && s.team.Obj? && "prefs" in s.team.fields && s.team.fields["prefs"].Obj?
    ensures ApplyEvent(s, e).Success? ==>
      var prefs := s.team.fields["prefs"].fields;
      ApplyEvent(s, e).value
        == s.(team := Obj(s.team.fields["prefs" := Obj(prefs[e.body["name"].s := e.body["value"]])]))
  {
  }

  /** hello, message, unknown and history-changed events end in a NameError and change nothing. */
  lemma UnhandledKindsRaise(s: Store, e: Event)
    requires Unhandled(e.kind)
    ensures ApplyEvent(s, e) == Failure(NameError("TeamJoin"))
  {
  }

  /**
    Putting a matching record into a collection where no other entry
    matches or raises makes it what the lookup finds.
   */
  lemma {:induction false} FindAfterPut(c: Collection, id: string, rec: Record, key: string, value: string)
    requires Matches(rec, key, value)
    requires forall j :: 0 <= j < |c| && c[j].0 != id ==> Passes(c[j].1, key, value)
    ensures FindFirst(Put(c, id, rec), key, value) == Success((id, rec))
  {
    if c != [] && c[0].0 != id {
      assert Passes(c[0].1, key, value);
      forall j | 0 <= j < |c[1..]| && c[1..][j].0 != id ensures Passes(c[1..][j].1, key, value) {
        assert c[1..][j] == c[j + 1];
      }
      FindAfterPut(c[1..], id, rec, key, value);
    }
  }

  /**
    A joined channel is found again by its name, in any case, when no other
    channel has that name.
   */
  lemma JoinedChannelIsFound(s: Store, e: Event, name: string)
    requires e.kind == ChannelJoined && CarriesRecord(e, "channel")
    requires Matches(e.body["channel"].fields, "name", name)
    requires forall j :: 0 <= j < |s.channels| && s.channels[j].0 != e.body["channel"].fields["id"].s
               ==> Passes(s.channels[j].1, "name", name)
    ensures ApplyEvent(s, e).Success?
    ensures FindFirst(ApplyEvent(s, e).value.channels, "name", name)
         == Success((e.body["channel"].fields["id"].s, Strip(e.body["channel"].fields)))
    ensures "id" !in FindFirst(ApplyEvent(s, e).value.channels, "name", name).value.1
  {
    var ch := e.body["channel"].fields;
    assert Matches(Strip(ch), "name", name);
    FindAfterPut(s.channels, ch["id"].s, Strip(ch), "name", name);
  }

  /**
    Replacing a record by one that agrees with it on `key` does not change
    what a lookup by `key` finds: the same id, now with the new record.
   */
  lemma {:induction false} FindAfterReplace(c: Collection, id: string, prior: Record, rec: Record, key: string, value: string)
    requires DistinctIds(c) && Get(c, id) == Some(prior)
    requires (key in rec <==> key in prior) && (key in rec ==> rec[key] == prior[key])
    ensures var before := FindFirst(c, key, value);
      var after := FindFirst(Put(c, id, rec), key, value);
      && (before.Failure? ==> after == before)
      && (before.Success? ==> after.Success? && after.value.0 == before.value.0
                              && after.value.1 == if before.value.0 == id then rec else before.value.1)
  {
    var p := Put(c, id, rec);
    var head := if c[0].0 == id then (id, rec) else c[0];
    var rest := if c[0].0 == id then c[1..] else Put(c[1..], id, rec);
    assert p == [head] + rest;
    assert p[0] == head && p[1..] == rest;
    assert Matches(head.1, key, value) == Matches(c[0].1, key, value);
    assert Raises(head.1, key) == Raises(c[0].1, key);
    if Raises(c[0].1, key) {
      assert FindFirst(p, key, value) == FindFirst(c, key, value);
    } else if Matches(c[0].1, key, value) {
      assert FindFirst(p, key, value) == Success(head);
    } else {
      assert FindFirst(p, key, value) == FindFirst(rest, key, value);
      assert FindFirst(c, key, value) == FindFirst(c[1..], key, value);
      DistinctCons(c);
      if c[0].0 != id {
        FindAfterReplace(c[1..], id, prior, rec, key, value);
      } else {
        TailMatchIsNotHead(c, key, value);
      }
    }
  }

  /** With distinct ids, what a lookup finds in the tail never carries the head's id. */
  lemma TailMatchIsNotHead(c: Collection, key: string, value: string)
    requires c != [] && DistinctIds(c)
    ensures FindFirst(c[1..], key, value).Success? ==> FindFirst(c[1..], key, value).value.0 != c[0].0
  {
    if FindFirst(c[1..], key, value).Success? {
      var found := FindFirst(c[1..], key, value).value;
      var i :| 0 <= i < |c[1..]| && c[1..][i] == found && Matches(c[1..][i].1, key, value)
               && forall j :: 0 <= j < i ==> Passes(c[1..][j].1, key, value);
      assert c[1..][i] == c[i + 1];
    }
  }

  /**
    A one-flag event leaves lookups by any other attribute as they were: an
    archived channel is still found by its name, under the same id, now
    marked archived.
   */
  lemma FlagKeepsLookup(s: Store, e: Event, key: string, value: string)
    requires StoreValid(s) && FlagOf(e.kind).Some? && ApplyEvent(s, e).Success?
    requires key != FlagOf(e.kind).value.1
    ensures var (w, field, flag) := FlagOf(e.kind).value;
      var before := FindFirst(Coll(s, w), key, value);
      var after := FindFirst(Coll(ApplyEvent(s, e).value, w), key, value);
      && (before.Failure? ==> after == before)
      && (before.Success? ==>
            && after.Success? && after.value.0 == before.value.0
            && after.value.1 == if before.value.0 == e.body["channel"].s then before.value.1[field := Bool(flag)] else before.value.1)
  {
    var (w, field, flag) := FlagOf(e.kind).value;
    var id := e.body["channel"].s;
    var prior := Get(Coll(s, w), id).value;
    assert Coll(ApplyEvent(s, e).value, w) == Put(Coll(s, w), id, prior[field := Bool(flag)]);
    FindAfterReplace(Coll(s, w), id, prior, prior[field := Bool(flag)], key, value);
  }

  /**
    Applying an event reads only its kind and its body, never its timestamp:
    two events that differ only in when they were stamped update the store
    alike.
   */
  lemma ApplyIgnoresStamp(s: Store, e1: Event, e2: Event)
    requires e1.kind == e2.kind && e1.body == e2.body
    ensures ApplyEvent(s, e1) == ApplyEvent(s, e2)
  {
    assert forall name :: e1.Attr(name) == e2.Attr(name);
    match e1.kind
    case ChannelCreated => assert Incoming(e1, "channel") == Incoming(e2, "channel");
    case ChannelJoined => assert Incoming(e1, "channel") == Incoming(e2, "channel");
    case ImCreated => assert Incoming(e1, "channel") == Incoming(e2, "channel");
    case UserChange => assert Incoming(e1, "user") == Incoming(e2, "user");
    case _ =>
  }
}
