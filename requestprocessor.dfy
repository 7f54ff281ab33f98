/** The request handlers (requestprocessor.py), as transitions of the whole
    relay state. A handler that raises after some of its writes leaves those
    writes in place: a Step carries the state reached and the reply or the
    exception. */
module Handlers {
  import opened Values
  import opened Participants
  import opened Seeds
  import opened Rooms
  import opened Sessions

  /** The process-wide registries and everything written to connections so far. */
  datatype State = State(participants: Table, rooms: RoomList, seeds: SeedList,
                         sessions: set<string>, outbox: seq<Send>)

  /** What a handler call leaves behind: the new state and its reply or exception. */
  datatype Step = Step(st: State, out: Outcome<Option<Json>>)

  /** The registries at start-up: all empty. */
  function Initial(): State {
    State(map[], map[], map[], {}, [])
  }

  /** Every uuid the registries hold names a participant record: room members,
      directors and seed publishers were all obtained from the participant
      registry, which never drops a record. Rooms are filed under their own
      (hashable) id, and a participant's room id, unless None, names a room. */
  ghost predicate Inv(s: State) {
    && Keyed(s.participants)
    && (forall k :: k in s.rooms ==> s.rooms[k].roomID == k && Hashable(k))
    && (forall k, u :: k in s.rooms && u in s.rooms[k].participants ==> u in s.participants)
    && (forall k :: k in s.rooms && s.rooms[k].director.Some? ==> s.rooms[k].director.value in s.participants)
    && (forall k :: k in s.seeds ==> s.seeds[k] in s.participants)
    && (forall u :: u in s.participants && s.participants[u].roomID != JNull ==> s.participants[u].roomID in s.rooms)
  }

  lemma InitialInv()
    ensures Inv(Initial())
  {
  }

  // ----- the messages the handlers build -----

  function SomeoneJoined(id: Json, sid: string): Json {
    JObj(map["request" := JStr("someonejoined"), "roomID" := id, "UUID" := JStr(sid)])
  }

  function ListingReply(list: seq<Json>, id: Json): Json {
    JObj(map["request" := JStr("listing"), "list" := JArr(list), "roomID" := id])
  }

  function VideoAdded(roomID: Json, sid: string, streamID: Json): Json {
    JObj(map["request" := JStr("videoaddedtoroom"), "roomID" := roomID, "UUID" := JStr(sid),
             "streamID" := streamID])
  }

  function OfferSDP(sid: string): Json {
    JObj(map["request" := JStr("offerSDP"), "UUID" := JStr(sid)])
  }

  function VersionInfo(): Json {
    JObj(map["software" := JStr("LibreNinja Server"), "version" := JStr("0.01 Alpha"),
             "ninjalevel" := JStr("6")])
  }

  /** The `list` of a listing reply: each member's uuidAsDict, in member order. */
  function ListingOf(t: Table, members: seq<string>): (list: seq<Json>)
    requires forall u :: u in members ==> u in t
    ensures |list| == |members|
    ensures forall i :: 0 <= i < |members| ==> list[i] == t[members[i]].UuidAsDict()
  {
    if members == [] then [] else [t[members[0]].UuidAsDict()] + ListingOf(t, members[1..])
  }

  /** The loop of onJoinRoom that builds the listing. */
  method BuildListing(t: Table, members: seq<string>) returns (list: seq<Json>)
    requires forall u :: u in members ==> u in t
    ensures list == ListingOf(t, members)
    ensures forall i :: 0 <= i < |list| ==> list[i].JObj? && list[i].fields["UUID"] == JStr(t[members[i]].uuid)
  {
    list := [];
    var i := 0;
    while i < |members|
      invariant 0 <= i <= |members|
      invariant |list| == i
      invariant forall j :: 0 <= j < i ==> list[j] == t[members[j]].UuidAsDict()
    {
      list := list + [t[members[i]].UuidAsDict()];
      i := i + 1;
    }
  }

  /** The state after some messages were written, and the exception that stopped
      the writing, if any. */
  function Delivered(s: State, d: Delivery): (r: Step)
    ensures r.st == s.(outbox := s.outbox + d.sent)
    ensures r.out == if d.failure.Some? then Raised(d.failure.value) else Ok(None)
  {
    Step(s.(outbox := s.outbox + d.sent), if d.failure.Some? then Raised(d.failure.value) else Ok(None))
  }

  // ----- onJoinRoom -----

  /** The join and the listing reply that end onJoinRoom: the sender joins room
      `id`, and the reply lists the members that were there before. */
  function JoinAndList(s: State, id: Json, sid: string, list: seq<Json>): (r: Step)
    requires id in s.rooms && s.rooms[id].roomID == id
    ensures r.out == Ok(Some(ListingReply(list, id)))
    ensures r.st.rooms == s.rooms[id := s.rooms[id].JoinRoom(s.participants, sid).0]
    ensures r.st.participants == s.rooms[id].JoinRoom(s.participants, sid).1
    ensures r.st.participants[sid].roomID == id
    ensures r.st.seeds == s.seeds && r.st.sessions == s.sessions && r.st.outbox == s.outbox
  {
    var (room, t) := s.rooms[id].JoinRoom(s.participants, sid);
    Step(s.(rooms := s.rooms[id := room], participants := t), Ok(Some(ListingReply(list, id))))
  }

  /** onJoinRoom. */
  function OnJoinRoom(s: State, msg: Msg, sid: string): (r: Step)
    requires Inv(s)
    ensures Inv(r.st)
    ensures r.st.sessions == s.sessions && r.st.seeds == s.seeds
  {
    if "roomid" !in msg then Step(s, Raised(KeyError(JStr("roomid"))))
    else
      var id := msg["roomid"];
      if !Hashable(id) then Step(s, Raised(TypeError(id)))
      else if id in s.rooms then
        var members := s.rooms[id].participants;
        var list := ListingOf(s.participants, members);
        var d := SendJSONToParticipants(s.sessions, members, SomeoneJoined(id, sid), None);
        var s1 := s.(outbox := s.outbox + d.sent);
        if d.failure.Some? then Step(s1, Raised(d.failure.value))
        else JoinAndList(s1, id, sid, list)
      else
        JoinAndList(s.(rooms := s.rooms[id := NewRoom(id)]), id, sid, [])
  }

  // ----- onClaim -----

  /** onClaim: the sender becomes director of its room when that room exists;
      a sender with no participant record raises AttributeError. */
  function OnClaim(s: State, msg: Msg, sid: string): (r: Step)
    requires Inv(s)
    ensures Inv(r.st)
    ensures sid !in s.participants ==> r == Step(s, Raised(AttributeError))
    ensures sid in s.participants && s.participants[sid].roomID in s.rooms ==>
              var id := s.participants[sid].roomID;
              r == Step(s.(rooms := s.rooms[id := s.rooms[id].SetDirector(sid)]), Ok(None))
    ensures sid in s.participants && s.participants[sid].roomID !in s.rooms ==>
              r.st == s && (r.out.Ok? <==> Hashable(s.participants[sid].roomID))
    ensures r.out.Ok? ==> r.out.value == None
  {
    match Get(s.participants, sid)
    case None => Step(s, Raised(AttributeError))
    case Some(p) =>
      var roomID := p.GetRoom();
      if !Hashable(roomID) then Step(s, Raised(TypeError(roomID)))
      else if roomID in s.rooms then
        Step(s.(rooms := s.rooms[roomID := s.rooms[roomID].SetDirector(sid)]), Ok(None))
      else Step(s, Ok(None))
  }

  // ----- onSeed -----

  /** onSeed. */
  function OnSeed(s: State, msg: Msg, sid: string): (r: Step)
    requires Inv(s)
    ensures Inv(r.st)
    ensures r.out.Ok? ==> r.out.value == None
    ensures r.st.rooms == s.rooms && r.st.sessions == s.sessions
    ensures r.out.Ok? ==> "title" in msg && "streamID" in msg && Hashable(msg["streamID"])
    ensures "title" in msg && "streamID" in msg && Hashable(msg["streamID"]) ==>
              r.st.seeds == s.seeds[msg["streamID"] := sid]
  {
    if "title" !in msg then Step(s, Raised(KeyError(JStr("title"))))
    else if "streamID" !in msg then Step(s, Raised(KeyError(JStr("streamID"))))
    else
      var title := msg["title"];
      var streamID := msg["streamID"];
      var (t1, p) := GetOrCreate(s.participants, sid);
      var s1 := s.(participants := t1[sid := p.SetTitle(title)]);
      match PutSeed(s1.seeds, s1.participants, streamID, sid)
      case Raised(e) => Step(s1, Raised(e))
      case Ok(v) =>
        var s2 := s1.(seeds := v.0, participants := v.1);
        var roomID := s2.participants[sid].GetRoom();
        if !Hashable(roomID) then Step(s2, Raised(TypeError(roomID)))
        else if roomID !in s2.rooms then Step(s2, Raised(KeyError(roomID)))
        else
          Delivered(s2, SendJSONToParticipants(s2.sessions, s2.rooms[roomID].participants,
                                               VideoAdded(roomID, sid, streamID), Some([sid])))
  }

  // ----- onPlay -----

  /** onPlay: one offerSDP to the stream's publisher, if the stream is known. */
  function OnPlay(s: State, msg: Msg, sid: string): (r: Step)
    ensures r.st.participants == s.participants && r.st.rooms == s.rooms
    ensures r.st.seeds == s.seeds && r.st.sessions == s.sessions
    ensures r.out.Ok? ==> r.out.value == None
  {
    if "streamID" !in msg then Step(s, Raised(KeyError(JStr("streamID"))))
    else
      match GetSeed(s.seeds, msg["streamID"])
      case Raised(e) => Step(s, Raised(e))
      case Ok(other) =>
        if other.None? then Step(s, Ok(None))
        else Delivered(s, SendJSONToParticipants(s.sessions, [other.value], OfferSDP(sid), None))
  }

  // ----- onSendRoom -----

  /** onSendRoom: the message itself to every member of room `roomid` except
      the sender. */
  function OnSendRoom(s: State, msg: Msg, sid: string): (r: Step)
    ensures r.st.participants == s.participants && r.st.rooms == s.rooms
    ensures r.st.seeds == s.seeds && r.st.sessions == s.sessions
    ensures r.out.Ok? ==> r.out.value == None
  {
    if "roomid" !in msg then Step(s, Raised(KeyError(JStr("roomid"))))
    else
      var roomID := msg["roomid"];
      if !Hashable(roomID) then Step(s, Raised(TypeError(roomID)))
      else if roomID !in s.rooms then Step(s, Raised(KeyError(roomID)))
      else Delivered(s, SendJSONToParticipants(s.sessions, s.rooms[roomID].participants, JObj(msg), Some([sid])))
  }

  // ----- onLibreNinjaVersion -----

  /** onLibreNinjaVersion: the version payload exactly when the configuration
      allows it; the state does not change. */
  function OnLibreNinjaVersion(s: State, allowVersionCmd: bool): (r: Step)
    ensures r.st == s
    ensures r.out.Ok?
    ensures r.out.value.Some? <==> allowVersionCmd
    ensures allowVersionCmd ==> r.out.value.value.JObj? && r.out.value.value.fields.Keys == {"software", "version", "ninjalevel"}
  {
    if !allowVersionCmd then Step(s, Ok(None)) else Step(s, Ok(Some(VersionInfo())))
  }

  // ----- cleanSession -----

  /** cleanSession: leave the participant's room if it has a participant and
      the participant has a room. */
  function CleanSession(s: State, sid: string): (r: Step)
    requires Inv(s)
    ensures Inv(r.st)
    ensures r.st.sessions == s.sessions && r.st.seeds == s.seeds && r.st.outbox == s.outbox
    ensures sid !in s.participants || s.participants[sid].roomID == JNull ==> r == Step(s, Ok(None))
    ensures sid in s.participants && s.participants[sid].roomID != JNull ==>
              var id := s.participants[sid].roomID;
              var (room, t) := s.rooms[id].LeaveRoom(s.participants, sid);
              r == Step(s.(rooms := s.rooms[id := room], participants := t), Ok(None))
  {
    match Get(s.participants, sid)
    case None => Step(s, Ok(None))
    case Some(p) =>
      var roomID := p.GetRoom();
      if roomID == JNull then Step(s, Ok(None))
      else if !Hashable(roomID) then Step(s, Raised(TypeError(roomID)))
      else if roomID !in s.rooms then Step(s, Raised(KeyError(roomID)))
      else
        var (room, t) := s.rooms[roomID].LeaveRoom(s.participants, sid);
        Step(s.(rooms := s.rooms[roomID := room], participants := t), Ok(None))
  }

  // ----- REQUEST_HANDLERS -----

  datatype Handler = JoinRoom | Claim | Seed | Play | SendRoom | LibreNinjaVersion

  /** REQUEST_HANDLERS: request name to handler. */
  const RequestHandlers: map<string, Handler> :=
    map["joinroom" := JoinRoom, "claim" := Claim, "seed" := Seed, "play" := Play,
        "sendroom" := SendRoom, "libreninja-version" := LibreNinjaVersion]

  /** Call the handler with the message and the sender's session id. */
  function Invoke(h: Handler, s: State, msg: Msg, sid: string, allowVersionCmd: bool): (r: Step)
    requires Inv(s)
    ensures Inv(r.st)
  {
    match h
    case JoinRoom => OnJoinRoom(s, msg, sid)
    case Claim => OnClaim(s, msg, sid)
    case Seed => OnSeed(s, msg, sid)
    case Play => OnPlay(s, msg, sid)
    case SendRoom => OnSendRoom(s, msg, sid)
    case LibreNinjaVersion => OnLibreNinjaVersion(s, allowVersionCmd)
  }

  // ----- what the handlers promise -----

  /** Joining an unseen room creates it with the sender as its only member,
      sends nothing and replies with an empty listing. */
  lemma JoinNewRoom(s: State, msg: Msg, sid: string)
    requires Inv(s) && "roomid" in msg && Hashable(msg["roomid"]) && msg["roomid"] !in s.rooms
    ensures var id := msg["roomid"];
            OnJoinRoom(s, msg, sid) ==
              Step(s.(rooms := s.rooms[id := Room(id, None, [sid])],
                      participants := s.participants[sid := GetOrCreate(s.participants, sid).1.SetRoom(id)]),
                   Ok(Some(ListingReply([], id))))
  {
    var id := msg["roomid"];
    var s1 := s.(rooms := s.rooms[id := NewRoom(id)]);
    assert s1.rooms[id].JoinRoom(s1.participants, sid).0 == Room(id, None, [sid]) by {
      assert [] + [sid] == [sid];
    }
    OverwriteAfterGetOrCreate(s.participants, sid, GetOrCreate(s.participants, sid).1.SetRoom(id));
    assert OnJoinRoom(s, msg, sid) == JoinAndList(s1, id, sid, []);
  }

  /** Joining an existing room whose members are all connected: every earlier
      member, in order, is told that the sender joined; the reply lists those
      members; the sender is appended at the end. */
  lemma JoinExistingRoom(s: State, msg: Msg, sid: string)
    requires Inv(s) && "roomid" in msg && msg["roomid"] in s.rooms
    requires forall u :: u in s.rooms[msg["roomid"]].participants ==> u in s.sessions
    ensures var id := msg["roomid"];
            var members := s.rooms[id].participants;
            OnJoinRoom(s, msg, sid) ==
              Step(s.(outbox := s.outbox + SendsTo(members, SomeoneJoined(id, sid)),
                      rooms := s.rooms[id := Room(id, s.rooms[id].director, members + [sid])],
                      participants := s.participants[sid := GetOrCreate(s.participants, sid).1.SetRoom(id)]),
                   Ok(Some(ListingReply(ListingOf(s.participants, members), id))))
  {
    var id := msg["roomid"];
    BroadcastToAll(s.sessions, s.rooms[id].participants, SomeoneJoined(id, sid));
    OverwriteAfterGetOrCreate(s.participants, sid, GetOrCreate(s.participants, sid).1.SetRoom(id));
  }

  /** A member of the room whose session is gone stops the join: the members
      before it were told, the sender is not added and the reply is lost. */
  lemma JoinBlockedByStaleMember(s: State, msg: Msg, sid: string)
    requires Inv(s) && "roomid" in msg && msg["roomid"] in s.rooms
    requires exists u :: u in s.rooms[msg["roomid"]].participants && u !in s.sessions
    ensures var r := OnJoinRoom(s, msg, sid);
            var members := s.rooms[msg["roomid"]].participants;
            var k := Reached(s.sessions, members);
            && r.out == Raised(KeyError(JStr(members[k])))
            && r.st == s.(outbox := s.outbox + SendsTo(members[..k], SomeoneJoined(msg["roomid"], sid)))
  {
  }

  /** A sender in no room: onSeed records the title and the seed, then raises
      KeyError looking up room None, having sent nothing. */
  lemma SeedWithoutRoom(s: State, msg: Msg, sid: string)
    requires Inv(s) && "title" in msg && "streamID" in msg && Hashable(msg["streamID"])
    requires sid !in s.participants || s.participants[sid].roomID == JNull
    requires JNull !in s.rooms
    ensures var p := GetOrCreate(s.participants, sid).1;
            OnSeed(s, msg, sid) ==
              Step(s.(seeds := s.seeds[msg["streamID"] := sid],
                      participants := s.participants[sid := p.SetTitle(msg["title"]).SetStreamID(msg["streamID"])]),
                   Raised(KeyError(JNull)))
  {
    var (t1, p) := GetOrCreate(s.participants, sid);
    var q := p.SetTitle(msg["title"]);
    assert t1[sid := q][sid := q.SetStreamID(msg["streamID"])] == t1[sid := q.SetStreamID(msg["streamID"])];
    OverwriteAfterGetOrCreate(s.participants, sid, q.SetStreamID(msg["streamID"]));
  }

  /** A sender in a room whose members are all connected: onSeed records the
      title and the seed and tells every other member, in order. */
  lemma SeedInRoom(s: State, msg: Msg, sid: string)
    requires Inv(s) && "title" in msg && "streamID" in msg && Hashable(msg["streamID"])
    requires sid in s.participants && s.participants[sid].roomID in s.rooms
    requires forall u :: u in s.rooms[s.participants[sid].roomID].participants ==> u in s.sessions
    ensures var id := s.participants[sid].roomID;
            var others := Without(s.rooms[id].participants, [sid]);
            var p := s.participants[sid].SetTitle(msg["title"]).SetStreamID(msg["streamID"]);
            OnSeed(s, msg, sid) ==
              Step(s.(seeds := s.seeds[msg["streamID"] := sid],
                      participants := s.participants[sid := p],
                      outbox := s.outbox + SendsTo(others, VideoAdded(id, sid, msg["streamID"]))),
                   Ok(None))
  {
    var id := s.participants[sid].roomID;
    var others := Without(s.rooms[id].participants, [sid]);
    forall u | u in others ensures u in s.sessions {
      WithoutCounts(s.rooms[id].participants, [sid], u);
    }
    assert others[..|others|] == others;
  }

  /** play for a known stream whose publisher is connected sends exactly one
      offerSDP, naming the sender, to the publisher; nothing else changes. */
  lemma PlayKnownStream(s: State, msg: Msg, sid: string)
    requires "streamID" in msg && Hashable(msg["streamID"]) && msg["streamID"] in s.seeds
    requires s.seeds[msg["streamID"]] in s.sessions
    ensures OnPlay(s, msg, sid) ==
            Step(s.(outbox := s.outbox + [Send(s.seeds[msg["streamID"]], OfferSDP(sid))]), Ok(None))
  {
  }

  /** play for an unknown stream does nothing. */
  lemma PlayUnknownStream(s: State, msg: Msg, sid: string)
    requires "streamID" in msg && Hashable(msg["streamID"]) && msg["streamID"] !in s.seeds
    ensures OnPlay(s, msg, sid) == Step(s, Ok(None))
  {
  }

  /** sendroom forwards the message itself to every member except the sender,
      in member order, when they are all connected. */
  lemma SendRoomForwards(s: State, msg: Msg, sid: string)
    requires "roomid" in msg && Hashable(msg["roomid"]) && msg["roomid"] in s.rooms
    requires forall u :: u in s.rooms[msg["roomid"]].participants ==> u in s.sessions
    ensures var r := OnSendRoom(s, msg, sid);
            var others := Without(s.rooms[msg["roomid"]].participants, [sid]);
            && r == Step(s.(outbox := s.outbox + SendsTo(others, JObj(msg))), Ok(None))
            && forall i :: |s.outbox| <= i < |r.st.outbox| ==> r.st.outbox[i].to != sid
  {
    var members := s.rooms[msg["roomid"]].participants;
    var others := Without(members, [sid]);
    forall u | u in others ensures u in s.sessions && u != sid {
      WithoutCounts(members, [sid], u);
    }
    assert others[..|others|] == others;
  }

  /** sendroom to an unknown room raises KeyError and changes nothing. */
  lemma SendRoomUnknown(s: State, msg: Msg, sid: string)
    requires "roomid" in msg && Hashable(msg["roomid"]) && msg["roomid"] !in s.rooms
    ensures OnSendRoom(s, msg, sid) == Step(s, Raised(KeyError(msg["roomid"])))
  {
  }

  /** A seed request that succeeds, followed by a play of the same stream from
      another session, delivers exactly one offerSDP naming the player to the
      publisher. */
  lemma SeedThenPlay(s: State, streamID: Json, title: Json, a: string, b: string)
    requires Inv(s) && a in s.sessions
    requires OnSeed(s, map["title" := title, "streamID" := streamID], a).out.Ok?
    ensures var s1 := OnSeed(s, map["title" := title, "streamID" := streamID], a).st;
            OnPlay(s1, map["streamID" := streamID], b) ==
              Step(s1.(outbox := s1.outbox + [Send(a, OfferSDP(b))]), Ok(None))
  {
    var msg := map["title" := title, "streamID" := streamID];
    var s1 := OnSeed(s, msg, a).st;
    assert "title" in msg && "streamID" in msg && msg["streamID"] == streamID;
    assert s1.seeds == s.seeds[streamID := a] && s1.sessions == s.sessions;
    PlayKnownStream(s1, map["streamID" := streamID], b);
  }
}
