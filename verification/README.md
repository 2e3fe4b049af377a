# python-slackrealtime session engine, modelled in Dafny

This project models the core of `slackrealtime`, a Python 2 client for the
Slack Real Time Messaging (RTM) API, and proves properties of the model. The
core has three parts:

- **The event decoder** (`src/slackrealtime/event.py`, module `Event`). It turns
  the JSON body of an inbound frame into an event. A `type` tag found in the
  dispatch table gives that kind of event. Any other hashable tag gives
  `Unknown`. A list or object tag is a `TypeError`, since the table lookup
  needs a hashable key. The event keeps its whole body, and attributes are
  read from that body by name.
- **The session store** (`src/slackrealtime/session.py`, modules `Resources` and
  `Session`).
  - `SessionMetadata` is a class whose fields hold the team's users, channels,
    groups, IMs and bots. Each collection maps an id to an attribute record.
  - The store is built from the bootstrap reply (`Create`). Its methods look
    resources up by name ignoring case, and find or open the IM with a user.
  - `UpdateDeferred` applies one event to the fields in place. It is proved to
    do exactly what the pure function `ApplyEvent` says about the `Store`
    value of those fields. It dispatches to one method per collection, and
    each of them changes only its own field. The per-kind lemmas state what
    each event does.
- **The protocol** (`src/slackrealtime/protocol.py`, module `Protocol`).
  `RtmProtocol` is a class that does three things:
  - it numbers outgoing commands with a counter that wraps at `sys.maxint`;
  - it routes a chat message to exactly one of an id, a user, a group or a
    channel;
  - it feeds each inbound frame first to the store, then to the application's
    handler, and logs the failures of either.

`values.dfy` holds what the modules share:
- `Value`, a JSON value whose numbers are integers (fractional numbers are
  left out);
- `Record`, a JSON object;
- `Error`, the Python exceptions the code raises;
- `Result` and `Outcome`, which stand in for raising.

Every operation returns the exception the source would raise, as a value,
instead of requiring that it cannot happen.

## Modelled as written

The code has several defects. Each one is modelled as the code behaves, and a
lemma states it:

- **Neither history-changed event can be decoded.**
  - `BaseHistoryChanged.__init__` calls `super(ChannelHistoryChanged, self)`
    (event.py:60).
  - For an `im_history_changed` event this is a `TypeError`.
  - For a `channel_history_changed` event it calls the same constructor again,
    so the recursion only ends at the interpreter's recursion limit, with a
    `RuntimeError`.
  - Lemmas: `ChannelHistoryChangedRecursesToLimit` and
    `HistoryChangedNeverConstructs`.
- **`_update_deferred` ends in a `NameError` for several kinds.** Its last
  branch tests `TeamJoin`, a name nothing defines (session.py:188). Every kind
  that reaches that test fails this way: hello, message, unknown events
  (`UnhandledKindsRaise`).
- **`channel_rename` always fails.** The update writes through `self.channel`,
  an attribute the store does not have (session.py:157), so it raises an
  `AttributeError` (`ChannelRenameAlwaysFails`).
- **A message to a user with no IM goes to the wrong id.** `sendChatMessage`
  takes `[0]` of what `find_im_by_user_name` returns (protocol.py:90). For an
  existing IM that is the IM's id. For a freshly opened IM, the return value
  is the id string itself, so the message is addressed to its first character
  (`OpenedImMisrouted`).

Three further behaviours of the code:

- **A frame without a `type`** raises a `KeyError` in `decode_event`
  (event.py:111), and `onMessage` does not catch it (protocol.py:40). No
  acknowledgement event exists.
- **No keepalive.** `RtmProtocol` sends only the commands its caller asks for;
  it has no timer and no ping.
- **Counter range.** The message counter wraps to 1 when it reaches
  `sys.maxint` (protocol.py:68-69).

## Model

| member | source | states |
|---|---|---|
| `Event.BaseEventInit` | src/slackrealtime/event.py:23-34 | The event keeps its kind and its body. It has a timestamp from the message exactly when the body carries `ts`, and then it is that value. Otherwise the timestamp is the clock reading. |
| `Event.HistoryChangedInit` | src/slackrealtime/event.py:58-62 | The history-changed constructor never succeeds. Below the recursion limit, an IM history event fails at once with the TypeError of `super` on an instance of the wrong class. `ChannelHistoryChangedRecursesToLimit` gives the channel case. |
| `Event.Construct` | src/slackrealtime/event.py:113 | A class that constructs gives the base constructor's event for that kind and body. `HistoryChangedNeverConstructs` says which classes do. |
| `Event.Event.Attr` | src/slackrealtime/event.py:36-41 | Reading an attribute that is not one of the event's own fields (its timestamp, its `has_ts` flag, its body and `copy`) succeeds exactly when the body has that name, and gives the body's value. Otherwise it is an AttributeError carrying the name. |
| `Event.DecodeEvent` | src/slackrealtime/event.py:109-115 | Decoding succeeds exactly when the body has a `type` that is hashable and not a history-changed tag. A missing `type` is a KeyError. The kind is the table's entry for a known tag and Unknown otherwise. The event keeps the whole body. `has_ts` holds exactly when the body has `ts`; otherwise the receipt time is the timestamp. |
| `Event.ChannelHistoryChangedRecursesToLimit` | src/slackrealtime/event.py:58-68 | Constructing a ChannelHistoryChanged at any depth recurses until the recursion limit and fails with a RuntimeError. |
| `Event.HistoryChangedNeverConstructs` | src/slackrealtime/event.py:58-77 | Both history-changed classes fail to construct, whatever the body holds. Every other class constructs. |
| `Event.HandlerTableShape` | src/slackrealtime/event.py:85-107 | Every kind except Unknown is in the dispatch table under its own tag. |
| `Event.HandlerTableInjective` | src/slackrealtime/event.py:85-107 | Every tag in the table is the tag of the kind it maps to, so no two tags name one class. |
| `Event.DecodeKnownTag` | src/slackrealtime/event.py:111-113 | A known tag of a constructible kind decodes to exactly its table entry, over the unchanged body. |
| `Event.DecodeUnknownTag` | src/slackrealtime/event.py:114-115 | A hashable tag outside the table decodes to Unknown and keeps the whole payload. |
| `Event.Copy` | src/slackrealtime/event.py:43-44 | A copy exists exactly when the body's `type` can be decoded. It then has the kind the tag names, the same body, and a timestamp from the message exactly when the body carries `ts`. `CopyRedecodes` ties it to the original event. |
| `Event.CopyRedecodes` | src/slackrealtime/event.py:43-44 | Copying a decoded event gives the same kind over the same body. An event with its own `ts` copies to itself. |
| `Resources.Put` | src/slackrealtime/session.py:138 | Dictionary assignment. Afterwards the id finds the new record and every other id finds what it found before. The id set gains the id. Distinct ids and id-free records are kept. |
| `Resources.Lookup` | src/slackrealtime/session.py:182 | A subscript succeeds exactly for a present string id, and gives its record. A missing key is a KeyError carrying that key. |
| `Resources.SetField` | src/slackrealtime/session.py:139-140 | `c[key][field] = v` succeeds exactly when the key is present, and then changes only that record's field. The ids are unchanged. A missing key is a KeyError and never an insertion. |
| `Session.Normalise` | src/slackrealtime/session.py:24-35 | A normalised collection always has distinct ids and records without `id`. A value that is not a list normalises only when iterating it yields nothing: the empty object and the empty string, both to the empty collection. Every other such value is a TypeError. |
| `Session.NormaliseItems` | src/slackrealtime/session.py:30-35 | Normalising a bootstrap list succeeds exactly when every element is a record with a string id. The result has distinct ids and no record keeps its id. |
| `Session.NormaliseIdsSound` | src/slackrealtime/session.py:31-34 | Every id of the normalised collection is the id of some element of the list. |
| `Session.NormaliseIdsComplete` | src/slackrealtime/session.py:31-34 | The id of every element of the list is an id of the normalised collection. |
| `Session.NormaliseLaterWins` | src/slackrealtime/session.py:31-34 | Each id keeps the record of its last occurrence in the list, without the id. |
| `Session.NormaliseFailurePersists` | src/slackrealtime/session.py:31-33 | Once a prefix of the list is refused, the whole list is refused with the same error. |
| `Session.TransformMetadata` | src/slackrealtime/session.py:24-35 | The loop over the bootstrap value computes exactly the normalised collection, or the error of the first bad element. |
| `Session.Bootstrap` | src/slackrealtime/session.py:39-60 | Building the store succeeds exactly when all eight keys are present and all five lists normalise. `url`, `self` and `team` are kept as given. Each collection is its list normalised, and the store is valid. |
| `Session.SessionMetadata.Create` | src/slackrealtime/session.py:39-60 | The constructor yields a fresh valid store equal to `Bootstrap` of the reply, with the token kept. Otherwise it raises `Bootstrap`'s error. |
| `Session.FindFirst` | src/slackrealtime/session.py:62-76 | On a find, the entry is the first whose attribute equals the query ignoring case, and every entry before it neither matches nor raises. A KeyError carrying the query occurs exactly when no entry matches or raises. Any other failure is a non-string attribute that raises, again with only passing entries before it. |
| `Session.FindIgnoresCase` | src/slackrealtime/session.py:70-73 | Two queries equal up to case find the same entry. |
| `Session.SessionMetadata.FindResourceByKey` | src/slackrealtime/session.py:62-76 | The scan over the collection returns exactly `FindFirst`. |
| `Session.SessionMetadata.FindChannelByName` | src/slackrealtime/session.py:78-82 | Finds the first channel whose `name` matches, ignoring case. |
| `Session.SessionMetadata.FindUserByName` | src/slackrealtime/session.py:84-85 | Finds the first user whose `name` matches, ignoring case. |
| `Session.SessionMetadata.FindGroupByName` | src/slackrealtime/session.py:87-88 | Finds the first group whose `name` matches, ignoring case. |
| `Session.SessionMetadata.FindImByUserId` | src/slackrealtime/session.py:90-91 | Finds the first IM whose `user` matches the id. |
| `Session.SessionMetadata.FindImByUserName` | src/slackrealtime/session.py:93-107 | Returns exactly `ImByUserName` of the store. Exactly one `im.open` call, with the token and the user's id, is made when the lookup opens an IM, and none otherwise. |
| `Session.ImByUserNameSound` | src/slackrealtime/session.py:93-107 | An answer requires the user to be known. An existing IM is an entry of the store whose `user` matches the user's id. An IM is opened only when no IM lists that user and auto-creation is on. Without auto-creation only existing IMs are returned. |
| `Session.ImByUserName` | src/slackrealtime/session.py:93-107 | The lookup opens an IM exactly when the user is known, no IM lists that user, auto-creation is on, and the `im.open` reply carries `channel.id`. |
| `Session.ImByUserNameComplete` | src/slackrealtime/session.py:93-107 | An unknown user is the user lookup's error. A user with a matching IM, with only passing entries before it, gets exactly that IM. When no IM lists the user, the KeyError is re-raised without auto-creation. With auto-creation the answer is the reply's `channel.id`, or the reply's error. |
| `Session.FirstMatchIsFound` | src/slackrealtime/session.py:62-76 | An entry that matches, with every entry before it neither matching nor raising, is exactly what the lookup finds. |
| `Session.OpenedChannelId` | src/slackrealtime/session.py:104-105 | The `im.open` reply gives an id exactly when it has a `channel` dictionary with an `id`, and then it is that id. |
| `Session.Incoming` | src/slackrealtime/session.py:134-135 | The record an event carries is found exactly when the attribute is a dictionary with an `id`. It is that dictionary without the id. |
| `Session.ApplyEvent` | src/slackrealtime/session.py:128-192 | No event changes the url, the own user, the groups or the bots. What each kind changes is stated by the per-kind lemmas below, `ApplyKeepsValid` and `UnhandledKindsRaise`. |
| `Session.SessionMetadata.Update` | src/slackrealtime/session.py:109-126 | The store applies a fresh copy of the event. The new fields are `ApplyEvent`'s store on success and the old fields on failure. The store stays valid. |
| `Session.SessionMetadata.UpdateDeferred` | src/slackrealtime/session.py:128-192 | Applying an event in place leaves exactly the fields of `ApplyEvent`'s store, or leaves them untouched and returns its error. The store stays valid. |
| `Session.SessionMetadata.UpdateChannels` | src/slackrealtime/session.py:133-159 | A channel event changes only the `channels` field, to exactly `ApplyEvent`'s store, or changes nothing and returns its error. |
| `Session.SessionMetadata.UpdateIms` | src/slackrealtime/session.py:160-172 | An IM event changes only the `ims` field, to exactly `ApplyEvent`'s store, or changes nothing and returns its error. |
| `Session.SessionMetadata.UpdateUsers` | src/slackrealtime/session.py:173-185 | A presence or user-change event changes only the `users` field, to exactly `ApplyEvent`'s store, or changes nothing and returns its error. |
| `Session.SessionMetadata.UpdateTeam` | src/slackrealtime/session.py:186-187 | A team preference event changes only the `team` field, to exactly `ApplyEvent`'s store, or changes nothing and returns its error. |
| `Session.ApplyKeepsValid` | src/slackrealtime/session.py:128-192 | Applying any event keeps every collection free of repeated ids and of records carrying their id. |
| `Session.FlagEventEffect` | src/slackrealtime/session.py:139-172 | Archive, unarchive, leave, IM close and IM open succeed exactly when `channel` names a present record. Each then sets its one flag on that record only, and every other collection is unchanged. An absent id is a KeyError, never an insertion. |
| `Session.ChannelDeletedEffect` | src/slackrealtime/session.py:141-145 | A deleted channel is kept, archived and closed. It must be present, and nothing else changes. |
| `Session.MarkedEffect` | src/slackrealtime/session.py:153-170 | A channel or IM mark sets `last_read` to the event's raw `ts`. It succeeds exactly when `ts` is present and the channel is known, and a missing `ts` is a KeyError. |
| `Session.ChannelRenameAlwaysFails` | src/slackrealtime/session.py:156-157 | A rename never updates the store. When the event carries a channel with a name, the error is the missing `channel` attribute of the store. |
| `Session.PresenceChangeEffect` | src/slackrealtime/session.py:173-174 | A presence change sets the known user's `presence` and nothing else. An unknown user is a failure. |
| `Session.ChannelCreatedEffect` | src/slackrealtime/session.py:133-138 | A created channel is stored under its id, without the id, as neither archived nor joined. It succeeds exactly when the event carries a channel with a string id. |
| `Session.ChannelJoinedEffect` | src/slackrealtime/session.py:146-150 | A joined channel is stored under its id, without the id, as sent. |
| `Session.ImCreatedEffect` | src/slackrealtime/session.py:162-167 | A created IM is stored under its id, without the id, with the event's `user`. It needs both to be present. |
| `Session.UserChangeEffect` | src/slackrealtime/session.py:175-185 | A changed user replaces the record under its id. A null status takes the prior presence when there is one. It succeeds exactly when `status` is present and, if the status is null, the user is already known. |
| `Session.TeamPrefChangeEffect` | src/slackrealtime/session.py:186-187 | Sets `team.prefs[name] = value` and changes nothing else. It succeeds exactly when the team has a `prefs` dictionary and the event has a string `name` and a `value`. |
| `Session.UnhandledKindsRaise` | src/slackrealtime/session.py:188-192 | Hello, message, unknown and history-changed events end in a NameError for `TeamJoin`. |
| `Session.FindAfterPut` | src/slackrealtime/session.py:62-76 | Putting a matching record where no other entry matches or raises makes it what the lookup finds. |
| `Session.JoinedChannelIsFound` | src/slackrealtime/session.py:146-150 | After a channel is joined, finding it by name, in any case, gives its id and its record without the id. This holds when no other channel has that name. |
| `Session.FindAfterReplace` | src/slackrealtime/session.py:62-76 | Replacing a record by one that agrees with it on the looked-up attribute leaves the lookup's result unchanged, except that the record is the new one. |
| `Session.FlagKeepsLookup` | src/slackrealtime/session.py:139-140 | A flag event leaves lookups by any other attribute unchanged. An archived channel is still found by name, under the same id, now marked archived. |
| `Protocol.NextIdInRange` | src/slackrealtime/protocol.py:65-69 | The counter stays between 1 and `sys.maxint` - 1, and each step changes it. |
| `Protocol.CounterCycles` | src/slackrealtime/protocol.py:65-69 | Starting from 1, the k-th id handed out is k mod (`sys.maxint` - 1), plus 1. |
| `Protocol.CounterDistinct` | src/slackrealtime/protocol.py:65-69 | Two commands fewer than `sys.maxint` - 1 commands apart never share an id. |
| `Protocol.FramesDistinct` | src/slackrealtime/protocol.py:59-72 | Within that distance, numbered frames in the outbox have different ids. |
| `Protocol.RtmProtocol.SeedMetadata` | src/slackrealtime/protocol.py:32-36 | Seeding links the protocol and the store both ways and starts the counter at 1. |
| `Protocol.RtmProtocol.SendCommand` | src/slackrealtime/protocol.py:59-72 | A command without `type` is an AssertionError and sends nothing. Otherwise the command is sent with the counter's id, that id is returned, and the counter advances. The frames stay numbered in order. |
| `Protocol.ChooseDestination` | src/slackrealtime/protocol.py:81-100 | The destination chosen is the first given, in the order id, user, group, channel, with every earlier one absent. Every refusal is an AssertionError or the catch-all Exception. `DestinationExactlyOne` says when each happens. |
| `Protocol.DestinationExactlyOne` | src/slackrealtime/protocol.py:81-100 | A chat message is accepted exactly when one destination is given, and goes to that one. None given is the catch-all Exception. Two or more given is an AssertionError. |
| `Protocol.FirstItem` | src/slackrealtime/protocol.py:90 | `[0]` of an existing IM is its id. Of a string id answered by `im.open`, it is the first character, and the IndexError "string index out of range" when the id is empty. |
| `Protocol.ChannelIdFor` | src/slackrealtime/protocol.py:89-98 | An id destination is used as given. A group or channel name resolves to an id that the groups or channels hold. |
| `Protocol.ChannelIdForNamed` | src/slackrealtime/protocol.py:89-98 | A group or channel destination resolves to the id of an entry matching the name. A user with an existing IM resolves to that IM's id. |
| `Protocol.OpenedImMisrouted` | src/slackrealtime/protocol.py:90 | When an IM is opened for a user, a message is addressed to the first character of the new id, which is not the id when the id is longer than one character. |
| `Session.ApplyIgnoresStamp` | src/slackrealtime/session.py:122-126 | Applying an event depends only on its kind and body. The store's copy, whose timestamp may be taken later, updates the store exactly as the original would. |
| `Protocol.RtmProtocol.ResolveChannel` | src/slackrealtime/protocol.py:89-98 | Resolving a destination leaves the store as it was, yields exactly `ChannelIdFor`'s id or error, and logs only the `im.open` call a user without an IM needs. |
| `Protocol.RtmProtocol.SendChatMessage` | src/slackrealtime/protocol.py:75-121 | Destination errors change nothing. A failed lookup makes only the lookup's REST calls. A resolved id is either posted through `chat.postMessage` with the token and the message fields, returning the reply, or sent as a numbered `message` command, returning its id. The optional arguments default as in the source. |
| `Protocol.RtmProtocol.OnMessage` | src/slackrealtime/protocol.py:38-54 | A body that cannot be decoded raises out of `onMessage` and changes nothing. Otherwise the store applies its own copy of the event, taken at a later clock reading, and takes `ApplyEvent`'s result for the event, the handler always gets the event, and an update error and a handler error are each logged, in that order. |

## Left out

- Event.DecodeEvent: timestamps are kept raw. The source converts `ts` with `float` and `datetime.fromtimestamp`, so a `ts` that is not a number makes decoding raise; the model decodes it.
- Event.HistoryChangedNeverConstructs: "every other class constructs" holds because `ts` is not parsed; with a `ts` that is not a number, `BaseEvent.__init__` raises too.
- Event.DecodeKnownTag: decodes over any `ts`, because `ts` is not parsed; the source raises for a `ts` that is not a number.
- Event.DecodeUnknownTag: decodes over any `ts`, because `ts` is not parsed; the source raises for a `ts` that is not a number.
- Fractional JSON numbers are not modelled: `Value` has integers only. No modelled operation computes with a number other than the message counter.
- JSON text is not parsed: `onMessage` takes the parsed object. A frame that is not valid JSON, or not a JSON object, is not modelled.
- The websocket and the REST facade are not modelled. Frames handed to the websocket are appended to `outbox`. REST calls are recorded in the store's `apiCalls`, and their replies (`openReply`, `postReply`) are parameters. `src/slackrealtime/api.py` and `request_session` are not part of this model.
- Threads: `update` hands `_update_deferred` to a worker thread, so the store may change after the application's handler runs. The model applies the update at once. An error in the worker thread is logged by the thread pool in the source; the model appends it to the same `errorLog`.
- The application's handler `onSlackEvent` is a parameter: its outcome (`handlerOutcome`). Log message texts are not modelled, only the errors logged.
- Resources.Insert: ids and dictionary keys are strings in the model. A key of another hashable kind is refused with a TypeError, where Python would store it.
- Session.FindFirst: upper-casing covers ASCII letters only. Python's `unicode.upper` also folds other letters.
- Collections iterate in insertion order. CPython 2 iterates dictionaries in hash order, so "first match" among several matching entries may differ.
- Aliasing is not modelled. `transform_metadata` deletes `id` from the bootstrap reply's own dictionaries. Events share nested dictionaries with their shallow copy, and the store keeps the event copy's dictionaries.
- The recursion limit is the interpreter's default of 1000 frames, counted per constructor call. The exact frame count does not change the error.
- `sys.maxint` is taken from a 64-bit interpreter (2^63 - 1).
- Assertions are modelled as enabled. Under `python -O` the AssertionError cases of `sendCommand` and `sendChatMessage` would not be raised.
- `__str__` of events, the default `onSlackEvent`, the Twisted factory and the package's other modules are not part of this model.
- Names passed to `sendChatMessage` and to the lookups are strings; a name that is not a string is not modelled.
