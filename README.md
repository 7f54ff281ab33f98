# LibreNinja signalling relay, modelled in Dafny

LibreNinja is a WebRTC signalling relay. Browsers connect over a websocket.
Each connection gets a fresh session id. The relay then routes small JSON
requests between sessions:

- join a room, and be listed to and announced to its members;
- claim a room as its director;
- publish ("seed") a stream;
- ask a stream's publisher for an offer ("play");
- forward a message to the rest of a room;
- send directly to one session by its uuid.

All state lives in four process-wide dictionaries:

- `PARTICIPANTS`: session id to participant record;
- `ROOMS`: room id to room;
- `SEED_LIST`: stream id to publisher;
- `SESSIONS_LIST`: session id to open connection.

This project models that state machine and its routing rules in two layers.

- **Value-level model.** There is one module per source file:
  - `Participants` for structs/participant.py;
  - `Seeds` for structs/seeds.py;
  - `Rooms` for structs/room.py;
  - `Sessions` for sessiontools.py;
  - `Handlers` for requestprocessor.py;
  - `Relay` for LibreNinja.py.

  The struct-level operations are functions on the values they touch: a
  participant table, a seed list, a room and a table, or a session set. Each
  returns the updated values, and an `Outcome` where Python can raise. The
  handlers, the router and the connection loop are functions from the relay's
  whole `State` to a `Step`. A `Step` holds the new state and either the return
  value or the Python exception raised. Partial writes made before an exception
  stay in the `Step`, exactly as in Python. A message written to a connection is a `Send`
  appended to the state's `outbox`. The properties the code promises are proved
  about these functions as contracts and lemmas.
- **Running relay.** `ServerState.Server` is a class whose fields are the four
  registries plus the outbox. Its methods perform the source's updates step by
  step, with the same branches and loops, with one exception: the fan-out loop of
  `__sendJSONToParticipants` (`ServerState.Server.SendToEach`) gathers its
  writes and appends them to the outbox once, when it stops, rather than one
  per iteration. Nothing can observe the outbox between iterations, so the
  final outbox and the exception are the same. Each one is proved to reach exactly
  the state, and return exactly the outcome, that the value-level function
  gives. So every lemma of the first layer holds of the running relay. The
  filtering loop of `sendJSONToParticipants` (`Sessions.FilterRecipients`) and
  the listing loop of `onJoinRoom` (`Handlers.BuildListing`) are methods too.
  Both are proved against their specification functions.

Modelling choices:

- **Participants are referenced by uuid.** `getOrCreateParticipant` keeps
  exactly one record per uuid, and nothing deletes one. So room member lists,
  room directors and seed entries hold uuids, and updating the shared Python
  object is updating its registry entry.
- **`None` is JSON `null`.** Python's `None` is `JNull` in the model. A JSON
  value that is a list or an object cannot be a dictionary key. Looking one up
  raises `TypeError`, and the model raises it too.
- **Reachable-state invariant.** `Handlers.Inv` holds at start-up and is
  preserved by every handler. It says:
  - every record is filed under its own uuid;
  - every room is filed under its own, hashable, id;
  - every member, director and publisher is a registered participant;
  - a participant's room id is `None` or names a room.

### Behaviour of the code worth knowing

- `removeSession` raises `KeyError` for an absent session; it does not ignore
  it.
- A fan-out stops at the first recipient with no open session and raises
  `KeyError`. The members before it have been written to; the later ones have
  not.
- The `someonejoined` broadcast of `onJoinRoom` uses no blacklist. A session
  that joins a room it is already in is told about itself, and is appended a
  second time.
- `processData` catches only `RuntimeError`, which none of the modelled code
  raises. So four exceptions escape: the `ValueError` of a frame that is not
  JSON; the `KeyError` of a direct message to an unknown uuid; the `TypeError`
  of a direct message whose `UUID` is a list or an object; and the `TypeError`
  of a `request` field that is a list or an object. Each one ends
  the connection's receive loop, and the `cleanup` after that loop is skipped.
  The session then stays in `SESSIONS_LIST`, and the participant stays in its
  room.
- `leaveRoom` creates the participant if it is missing.
- `setDirector` makes no membership check.
- Re-seeding under a new stream id leaves the old one in `SEED_LIST`.

## Model

| member | source | states |
|---|---|---|
| Participants.NewParticipant | structs/participant.py:13-23 | a new participant has the given uuid and no room, stream id or title |
| Participants.Participant.SetRoom | structs/participant.py:25-37 | after setRoom, getRoom returns the new room id; uuid, stream id and title are unchanged |
| Participants.Participant.SetStreamID | structs/participant.py:39-52 | after setStreamID, getStreamID returns the new id; the other fields are unchanged |
| Participants.Participant.SetTitle | structs/participant.py:54-67 | after setTitle, getTitle returns the new title; the other fields are unchanged |
| Participants.Participant.UuidAsDict | structs/participant.py:69-79 | the dict always maps UUID to the uuid; it has streamID exactly when one is set, with that value; it has no other key |
| Participants.GetOrCreate | structs/participant.py:90-101 | afterwards the uuid is registered and its record is returned; a registered uuid leaves the registry unchanged; otherwise exactly one fresh record is added; records stay filed under their own uuid |
| Participants.GetOrCreateIdempotent | structs/participant.py:98-100 | a second getOrCreateParticipant for the same uuid changes nothing and returns the same record |
| Participants.Get | structs/participant.py:104-114 | getParticipant returns None exactly when the uuid is absent, and the registered record otherwise |
| Participants.GetAfterGetOrCreate | structs/participant.py:90-114 | after getOrCreateParticipant, getParticipant finds the record it returned |
| Seeds.PutSeed | structs/seeds.py:8-19 | afterwards the stream id maps to the participant, and the participant's stream id is the new one; every other key and every other participant is unchanged; an unhashable stream id raises TypeError before any write |
| Seeds.GetSeed | structs/seeds.py:21-30 | returns the publisher when the stream id is a key and None otherwise; an unhashable stream id raises TypeError |
| Seeds.PutThenGet | structs/seeds.py:8-30 | putSeed followed by getSeed of the same stream id returns the publisher |
| Seeds.ReseedKeepsOldKey | structs/seeds.py:17-19 | re-seeding under a second stream id leaves the first one mapped to the same participant, while the participant names only the second |
| Rooms.NewRoom | structs/room.py:9-17 | a new room has the given id, no director and no members |
| Rooms.Room.SetDirector | structs/room.py:19-25 | the director becomes the given participant, with no membership check; id and members are unchanged |
| Rooms.RemoveFirst | structs/room.py:51 | list.remove, called only on a list holding the element (leaveRoom checks membership first), shortens the list by one and adds nothing |
| Rooms.FirstIndex | structs/room.py:48-51 | the first position of an element present in the list |
| Rooms.RemoveFirstCutsFirst | structs/room.py:51 | list.remove cuts out exactly the first occurrence and keeps the order of the rest |
| Rooms.RemoveFirstMultiset | structs/room.py:51 | list.remove takes away one copy of the element and nothing else |
| Rooms.RemoveFirstOfAppended | structs/room.py:37-51 | removing an element appended to a list without it gives back the list |
| Rooms.Room.JoinRoom | structs/room.py:27-38 | the participant exists afterwards, with this room's id; it is appended at the end even if already a member; the director and all other participants are unchanged |
| Rooms.Room.LeaveRoom | structs/room.py:40-53 | a member loses its first occurrence and its room id; a non-member leaves the list unchanged but is still created; the director is cleared exactly when it was this participant |
| Rooms.JoinThenLeave | structs/room.py:27-53 | joining a room one was not in and leaving it restores the member list, and leaves the participant in no room |
| Rooms.DoubleJoinThenLeave | structs/room.py:27-53 | joining twice and leaving once keeps one occurrence in the member list while the participant's room id is None |
| Sessions.RemoveSession | sessiontools.py:18-26 | the session is removed and every other one kept; an absent session raises KeyError |
| Sessions.SendJSONToUUID | sessiontools.py:28-39 | a None message sends nothing; otherwise exactly one write to the target's connection, or KeyError (TypeError for an unhashable key) and no write when the target is not a session |
| Sessions.WithoutAppend | sessiontools.py:50-55 | blacklist filtering distributes over concatenation, so it keeps list order |
| Sessions.WithoutCounts | sessiontools.py:50-55 | a uuid is a recipient exactly when it is in the list and not blacklisted, and it is kept once per occurrence |
| Sessions.FilterRecipients | sessiontools.py:41-57 | the filtering loop computes the recipient list: the list itself without a blacklist, and with one, each non-blacklisted element as often as it occurs and each blacklisted one never |
| Sessions.Reached | sessiontools.py:71-72 | the number of recipients before the first one with no session |
| Sessions.SendsTo | sessiontools.py:71-72 | one write of the payload to each recipient, in order |
| Sessions.Deliver | sessiontools.py:59-72 | a None message sends nothing; every write carries the same payload, to the recipients in order; the fan-out fails exactly when some recipient has no session, and it then stops at the first such recipient, with KeyError naming it |
| Sessions.RecipientsFromList | sessiontools.py:41-57 | every recipient is a list element, and none is blacklisted |
| Sessions.SendJSONToParticipants | sessiontools.py:41-57 | a None message writes nothing; every write carries the message itself and goes, in order, to a list element not on the blacklist; with every recipient connected (blacklisted uuids need no session), each recipient is written to exactly once and nothing is raised; otherwise the writes stop at the first recipient with no session, and the KeyError raised names that uuid |
| Sessions.BroadcastPayloads | sessiontools.py:41-72 | corollary of the contract of Sessions.SendJSONToParticipants: every write of one broadcast carries the same payload and goes to a list element the blacklist lets through |
| Sessions.BroadcastToAll | sessiontools.py:56-72 | corollary of the contract of Sessions.SendJSONToParticipants: without a blacklist and with everyone connected, each list element is written to once per occurrence, in order |
| Handlers.InitialInv | structs/room.py:56-58 | the four empty start-up registries (ROOMS here, PARTICIPANTS at structs/participant.py:84, SEED_LIST at structs/seeds.py:5, SESSIONS_LIST at sessiontools.py:13) satisfy the reachable-state invariant |
| Handlers.ListingOf | requestprocessor.py:21-22 | the listing holds each member's uuidAsDict, in member order |
| Handlers.BuildListing | requestprocessor.py:21-22 | the listing loop builds exactly that list, whose entries all name their member's uuid |
| Handlers.OnJoinRoom | requestprocessor.py:9-27 | onJoinRoom preserves the reachable-state invariant and changes no seed or session |
| Handlers.OnClaim | requestprocessor.py:30-48 | with no participant record it raises AttributeError; if the sender's room exists the sender becomes its director and nothing else changes; otherwise nothing changes; it never replies |
| Handlers.OnSeed | requestprocessor.py:51-76 | onSeed preserves the invariant, changes no room and no session, and never replies |
| Handlers.OnPlay | requestprocessor.py:79-91 | onPlay changes no registry and never replies |
| Handlers.OnSendRoom | requestprocessor.py:93-108 | onSendRoom changes no registry and never replies |
| Handlers.OnLibreNinjaVersion | requestprocessor.py:110-122 | the state does not change; the version payload with its three fields comes back exactly when the configuration allows it |
| Handlers.CleanSession | requestprocessor.py:125-135 | a missing participant, or one in no room, changes nothing; otherwise the participant leaves its room; no seed, session or write changes |
| Handlers.Invoke | requestprocessor.py:137-144 | every handler in REQUEST_HANDLERS preserves the reachable-state invariant |
| Handlers.JoinNewRoom | requestprocessor.py:20-27 | joining an unseen room creates it with the sender as its only member and sets the sender's room id (creating its record if needed); no other room or record, no seed or session changes, nothing is written, and the reply is an empty listing for that id |
| Handlers.JoinExistingRoom | requestprocessor.py:20-27 | joining an existing, connected room tells every earlier member in order, with no blacklist; appends the sender last, keeping the director; sets the sender's room id; the reply lists the earlier members' uuidAsDict; no other room or record, no seed or session changes |
| Handlers.JoinBlockedByStaleMember | requestprocessor.py:20-23 | a member with no session stops the join: the earlier members were told, the sender is not added and the exception escapes the handler |
| Handlers.SeedWithoutRoom | requestprocessor.py:59-73 | a sender in no room gets its title and then its stream id recorded and its seed filed; then the lookup of room None raises KeyError; no room, session or other record changes and nothing is written |
| Handlers.SeedInRoom | requestprocessor.py:59-76 | in a connected room, the sender's title and stream id are recorded and its seed filed, and every other member is told, in order; no room, session or other record changes |
| Handlers.PlayKnownStream | requestprocessor.py:86-91 | a known stream's publisher gets exactly one offerSDP naming the sender; nothing else changes |
| Handlers.PlayUnknownStream | requestprocessor.py:86-91 | an unknown stream changes nothing |
| Handlers.SendRoomForwards | requestprocessor.py:101-108 | the message itself goes to every member except the sender, in member order, and never to the sender |
| Handlers.SendRoomUnknown | requestprocessor.py:101-104 | an unknown room id raises KeyError and changes nothing |
| Handlers.SeedThenPlay | requestprocessor.py:51-91 | after a successful seed, a play of that stream writes exactly one offerSDP to the publisher |
| Relay.ProcessJSON | LibreNinja.py:18-44 | request routing preserves the reachable-state invariant |
| Relay.Cleanup | LibreNinja.py:64-71 | cleanup removes the session first and then runs cleanSession; an absent session raises before cleanSession |
| Relay.HandleFrame | LibreNinja.py:90-101 | one receive-loop pass preserves the invariant |
| Relay.HandleFrames | LibreNinja.py:90-101 | the receive loop preserves the invariant |
| Relay.Serve | LibreNinja.py:76-105 | a whole connection preserves the invariant |
| Relay.KnownRequest | LibreNinja.py:28-34 | a known request whose handler returns gives the handler's result |
| Relay.HandlerRaises | LibreNinja.py:30-37 | a handler that raises gives the reply None, and its earlier writes stay |
| Relay.UnknownRequest | LibreNinja.py:28-30 | an unknown request value yields None with no change, and is not routed by UUID |
| Relay.DirectRoute | LibreNinja.py:38-42 | a message with UUID but no request goes to that session only, with UUID overwritten by the sender's id, and yields None |
| Relay.DirectRouteMiss | LibreNinja.py:38-41 | a direct message to a uuid with no session raises, having written nothing |
| Relay.NoRequestNoUuid | LibreNinja.py:43-44 | a message with neither field yields None with no state change |
| Relay.CloseTextIgnored | LibreNinja.py:91-94 | the text frame `close` is neither routed nor answered |
| Relay.CleanupOutsideRooms | LibreNinja.py:64-71 | disconnecting a session that is in no room removes the session and changes nothing else |
| Relay.MalformedFrameSkipsCleanup | LibreNinja.py:53-58 | a frame that is not JSON raises ValueError past processData, and the session is never cleaned up |
| Relay.SilentConnection | LibreNinja.py:76-105 | a connection that sends nothing leaves the state as it found it |
| Relay.JoinFrameNewRoom | LibreNinja.py:90-98 | a joinroom frame for a new room creates the room with the sender alone and sets the sender's room id; the only write is the empty listing, back to the sender; nothing else changes |
| Relay.JoinFrameExistingRoom | LibreNinja.py:90-98 | a joinroom frame for a connected room tells each member, in order, then writes the listing back to the sender; the sender is appended, the director kept and the sender's room id set; nothing else changes |
| ServerState.Server.constructor | structs/participant.py:84 | start-up: every registry is empty (PARTICIPANTS here, ROOMS at structs/room.py:58, SEED_LIST at structs/seeds.py:5, SESSIONS_LIST at sessiontools.py:13) and the invariant holds |
| ServerState.Server.GetOrCreateParticipant | structs/participant.py:90-101 | the in-place get-or-create reaches the registry and returns the record that Participants.GetOrCreate gives; nothing else changes |
| ServerState.Server.GetParticipant | structs/participant.py:104-114 | returns the record or None without modifying anything |
| ServerState.Server.PutSeed | structs/seeds.py:8-19 | the two writes reach the seeds and participants of Seeds.PutSeed, or raise with nothing written |
| ServerState.Server.GetSeed | structs/seeds.py:21-30 | the lookup returns what Seeds.GetSeed gives, without modifying anything |
| ServerState.Server.SetDirector | structs/room.py:19-25 | the room's director is replaced in place; nothing else changes |
| ServerState.Server.JoinRoom | structs/room.py:27-38 | the in-place join reaches the room and registry of Rooms.Room.JoinRoom |
| ServerState.Server.LeaveRoom | structs/room.py:40-53 | the in-place leave reaches the room and registry of Rooms.Room.LeaveRoom |
| ServerState.Server.RemoveSession | sessiontools.py:18-26 | the pop reaches the sessions of Sessions.RemoveSession, or raises KeyError with nothing changed |
| ServerState.Server.SendJSONToUUID | sessiontools.py:28-39 | writes what Sessions.SendJSONToUUID sends and raises what it raises |
| ServerState.Server.SendToEach | sessiontools.py:59-72 | the fan-out loop writes exactly the sends of Sessions.Deliver and stops with its exception |
| ServerState.Server.SendJSONToParticipants | sessiontools.py:41-57 | filtering, then the fan-out loop, writes what Sessions.SendJSONToParticipants sends |
| ServerState.Server.OnJoinRoom | requestprocessor.py:9-27 | the in-place handler reaches the state and outcome of Handlers.OnJoinRoom |
| ServerState.Server.OnClaim | requestprocessor.py:30-48 | as Handlers.OnClaim |
| ServerState.Server.OnSeed | requestprocessor.py:51-76 | as Handlers.OnSeed, including the writes that stay when the room lookup raises |
| ServerState.Server.OnPlay | requestprocessor.py:79-91 | as Handlers.OnPlay |
| ServerState.Server.OnSendRoom | requestprocessor.py:93-108 | as Handlers.OnSendRoom |
| ServerState.Server.OnLibreNinjaVersion | requestprocessor.py:110-122 | the version reply exactly when the configuration allows it, without modifying anything |
| ServerState.Server.CleanSession | requestprocessor.py:125-135 | as Handlers.CleanSession |
| ServerState.Server.Invoke | requestprocessor.py:137-144 | calling the handler REQUEST_HANDLERS names, as Handlers.Invoke |
| ServerState.Server.ProcessJSON | LibreNinja.py:18-44 | as Relay.ProcessJSON |
| ServerState.Server.Cleanup | LibreNinja.py:64-71 | as Relay.Cleanup |
| ServerState.Server.HandleFrame | LibreNinja.py:90-101 | one pass of the receive loop, as Relay.HandleFrame, with the reply written back to the sender |
| ServerState.Server.Serve | LibreNinja.py:76-105 | register the session, loop over the frames up to the first escaping exception, then clean up; the result is that of Relay.Serve |

## Left out

- asyncio locks and the interleaving of handlers at `await` points: each handler runs atomically, and `Serve` models one connection with no other connection active while it runs.
- The aiohttp transport: the websocket set-up, `prepare`, `send_str` and application routing. A write to a connection is an outbox entry, and a write to a closed connection is assumed to succeed.
- Session id generation with `uuid4`: `Serve` takes the fresh id as a parameter.
- `json.loads` and `json.dumps`: a text frame carries its decoded object, or None when the text is not JSON. Serialisation is injective, so a payload is its JSON value, and dictionary key order is not modelled. A frame that decodes to something other than an object is not modelled.
- Non-integer JSON numbers, and Python's equality of `1`, `1.0` and `True` as dictionary keys.
- Logging, `os.chdir` and the logging set-up.
- `getParticipantByStreamID`: it is unused and returns an un-awaited coroutine.
- config.py: only `ALLOW_VERSION_CMD` matters, and it is a boolean parameter.
- Participant and room objects are values held in the registries, not shared mutable objects; since there is one record per uuid and none is ever deleted, the aliasing this leaves out is not observable.
- Handlers.OnJoinRoom, Handlers.OnSeed, Handlers.OnPlay and Handlers.OnSendRoom: their own contracts state only the invariant and what they leave unchanged; their behaviour is stated case by case by the lemmas after them.
- Relay.ProcessJSON, Relay.HandleFrame, Relay.HandleFrames and Relay.Serve: their own contracts state only the invariant; routing is stated case by case by the lemmas after them.
