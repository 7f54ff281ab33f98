/** Request routing and the session lifecycle (LibreNinja.py). A Step whose
    outcome is Raised here is an exception that escapes processJSON: processData
    catches only RuntimeError, which none of the modelled code raises, so it ends
    the connection's receive loop, and the cleanup after that loop never runs. */
module Relay {
  import opened Values
  import opened Participants
  import opened Rooms
  import opened Sessions
  import opened Handlers

  /** processJSON. A recognised request runs its handler, whose exceptions are
      caught (the reply is then None, and its writes stay); any other request
      value is ignored; a message without `request` but with `UUID` is sent, with
      `UUID` replaced by the sender's id, to the session `UUID` named. */
  function ProcessJSON(s: State, msg: Msg, sid: string, allowVersionCmd: bool): (r: Step)
    requires Inv(s)
    ensures Inv(r.st)
  {
    if "request" in msg then
      var request := msg["request"];
      if !Hashable(request) then Step(s, Raised(TypeError(request)))
      else if request.JStr? && request.s in RequestHandlers then
        var h := Invoke(RequestHandlers[request.s], s, msg, sid, allowVersionCmd);
        if h.out.Ok? then h else Step(h.st, Ok(None))
      else Step(s, Ok(None))
    else if "UUID" in msg then
      var target := msg["UUID"];
      Delivered(s, SendJSONToUUID(s.sessions, target, JObj(msg["UUID" := JStr(sid)])))
    else Step(s, Ok(None))
  }

  /** cleanup: remove the session, then clean its participant. If the session is
      already gone the KeyError stops it before cleanSession. */
  function Cleanup(s: State, sid: string): (r: Step)
    requires Inv(s)
    ensures Inv(r.st)
    ensures sid !in r.st.sessions
    ensures r.st.sessions == s.sessions - {sid}
    ensures sid !in s.sessions ==> r == Step(s, Raised(KeyError(JStr(sid))))
    ensures sid in s.sessions ==> r == CleanSession(s.(sessions := s.sessions - {sid}), sid)
  {
    match RemoveSession(s.sessions, sid)
    case Raised(e) => Step(s, Raised(e))
    case Ok(rest) => CleanSession(s.(sessions := rest), sid)
  }

  /** What the receive loop hands over: a text frame, with what json.loads makes
      of its text (an object, or None when the text is not JSON); an error frame;
      a binary frame. */
  datatype Frame = Text(data: string, decoded: Option<Msg>) | Error | Binary

  /** One pass of the receive loop: the text `close` is only logged; other text
      is decoded and routed, and a reply goes back over the sender's own
      connection; undecodable text raises ValueError, which nothing catches;
      error and binary frames are only logged or skipped. */
  function HandleFrame(s: State, sid: string, frame: Frame, allowVersionCmd: bool): (r: Step)
    requires Inv(s)
    ensures Inv(r.st)
  {
    match frame
    case Error => Step(s, Ok(None))
    case Binary => Step(s, Ok(None))
    case Text(data, decoded) =>
      if data == "close" then Step(s, Ok(None))
      else if decoded.None? then Step(s, Raised(ValueError))
      else
        var r := ProcessJSON(s, decoded.value, sid, allowVersionCmd);
        if r.out.Ok? && r.out.value.Some? then
          Step(r.st.(outbox := r.st.outbox + [Send(sid, r.out.value.value)]), r.out)
        else r
  }

  /** The receive loop over the frames the connection delivers, up to the first
      exception that escapes. */
  function HandleFrames(s: State, sid: string, frames: seq<Frame>, allowVersionCmd: bool): (r: Step)
    requires Inv(s)
    ensures Inv(r.st)
    decreases |frames|
  {
    if frames == [] then Step(s, Ok(None))
    else
      var r1 := HandleFrame(s, sid, frames[0], allowVersionCmd);
      if r1.out.Raised? then r1 else HandleFrames(r1.st, sid, frames[1..], allowVersionCmd)
  }

  /** websocket_handler for one connection, with no other connection active in
      between: register the session under its fresh id, run the receive loop,
      then clean up, unless an exception ended the loop. */
  function Serve(s: State, sid: string, frames: seq<Frame>, allowVersionCmd: bool): (r: Step)
    requires Inv(s)
    ensures Inv(r.st)
  {
    var r := HandleFrames(s.(sessions := s.sessions + {sid}), sid, frames, allowVersionCmd);
    if r.out.Raised? then r else Cleanup(r.st, sid)
  }

  // ----- what the router promises -----

  /** A recognised request whose handler returns gives the handler's result. */
  lemma KnownRequest(s: State, msg: Msg, sid: string, allowVersionCmd: bool)
    requires Inv(s) && "request" in msg && msg["request"].JStr? && msg["request"].s in RequestHandlers
    requires Invoke(RequestHandlers[msg["request"].s], s, msg, sid, allowVersionCmd).out.Ok?
    ensures ProcessJSON(s, msg, sid, allowVersionCmd) ==
            Invoke(RequestHandlers[msg["request"].s], s, msg, sid, allowVersionCmd)
  {
  }

  /** A recognised request whose handler raises gives no reply, and the writes
      the handler made before raising stay. */
  lemma HandlerRaises(s: State, msg: Msg, sid: string, allowVersionCmd: bool)
    requires Inv(s) && "request" in msg && msg["request"].JStr? && msg["request"].s in RequestHandlers
    requires Invoke(RequestHandlers[msg["request"].s], s, msg, sid, allowVersionCmd).out.Raised?
    ensures ProcessJSON(s, msg, sid, allowVersionCmd) ==
            Step(Invoke(RequestHandlers[msg["request"].s], s, msg, sid, allowVersionCmd).st, Ok(None))
  {
  }

  /** A request value naming no handler is ignored, and the message is not
      routed by `UUID` even if it has one. */
  lemma UnknownRequest(s: State, msg: Msg, sid: string, allowVersionCmd: bool)
    requires Inv(s) && "request" in msg && Hashable(msg["request"])
    requires !(msg["request"].JStr? && msg["request"].s in RequestHandlers)
    ensures ProcessJSON(s, msg, sid, allowVersionCmd) == Step(s, Ok(None))
  {
  }

  /** A message without `request` but with a `UUID` naming a live session goes
      to that session only, with `UUID` now the sender's id; there is no reply. */
  lemma DirectRoute(s: State, msg: Msg, sid: string, allowVersionCmd: bool, target: string)
    requires Inv(s) && "request" !in msg && "UUID" in msg && msg["UUID"] == JStr(target)
    requires target in s.sessions
    ensures ProcessJSON(s, msg, sid, allowVersionCmd) ==
            Step(s.(outbox := s.outbox + [Send(target, JObj(msg["UUID" := JStr(sid)]))]), Ok(None))
  {
  }

  /** A direct message to a uuid that names no live session raises out of
      processJSON, having sent nothing. */
  lemma DirectRouteMiss(s: State, msg: Msg, sid: string, allowVersionCmd: bool)
    requires Inv(s) && "request" !in msg && "UUID" in msg
    requires !(msg["UUID"].JStr? && msg["UUID"].s in s.sessions)
    ensures var r := ProcessJSON(s, msg, sid, allowVersionCmd);
            r.st == s && r.out.Raised?
  {
  }

  /** A message with neither field does nothing. */
  lemma NoRequestNoUuid(s: State, msg: Msg, sid: string, allowVersionCmd: bool)
    requires Inv(s) && "request" !in msg && "UUID" !in msg
    ensures ProcessJSON(s, msg, sid, allowVersionCmd) == Step(s, Ok(None))
  {
  }

  /** The text `close` is neither routed nor answered. */
  lemma CloseTextIgnored(s: State, sid: string, decoded: Option<Msg>, allowVersionCmd: bool)
    requires Inv(s)
    ensures HandleFrame(s, sid, Text("close", decoded), allowVersionCmd) == Step(s, Ok(None))
  {
  }

  /** Disconnecting a live session that is in no room removes it and does
      nothing else. */
  lemma CleanupOutsideRooms(s: State, sid: string)
    requires Inv(s) && sid in s.sessions
    requires sid !in s.participants || s.participants[sid].roomID == JNull
    ensures Cleanup(s, sid) == Step(s.(sessions := s.sessions - {sid}), Ok(None))
  {
  }

  /** A connection whose only frame is not JSON ends with an escaped ValueError:
      its session stays registered and nothing else changes, since the cleanup
      after the receive loop is skipped. */
  lemma MalformedFrameSkipsCleanup(s: State, sid: string, data: string, allowVersionCmd: bool)
    requires Inv(s) && data != "close"
    ensures Serve(s, sid, [Text(data, None)], allowVersionCmd) ==
            Step(s.(sessions := s.sessions + {sid}), Raised(ValueError))
  {
  }

  /** A connection that sends nothing leaves the state as it found it: the
      registration is undone and there is no room to leave. */
  lemma SilentConnection(s: State, sid: string, allowVersionCmd: bool)
    requires Inv(s) && sid !in s.sessions
    requires sid !in s.participants || s.participants[sid].roomID == JNull
    ensures Serve(s, sid, [], allowVersionCmd) == Step(s, Ok(None))
  {
    assert s.sessions + {sid} - {sid} == s.sessions;
  }

  /** A joinroom frame for a room that does not exist yet: the room is created
      with the sender as its only member, the sender's record names it, and the
      only message written is the empty listing, back to the sender. */
  lemma JoinFrameNewRoom(s: State, sid: string, data: string, msg: Msg, allowVersionCmd: bool)
    requires Inv(s) && data != "close"
    requires "request" in msg && msg["request"] == JStr("joinroom")
    requires "roomid" in msg && Hashable(msg["roomid"]) && msg["roomid"] !in s.rooms
    ensures var id := msg["roomid"];
            var listing := ListingReply([], id);
            HandleFrame(s, sid, Text(data, Some(msg)), allowVersionCmd) ==
              Step(s.(rooms := s.rooms[id := Room(id, None, [sid])],
                      participants := s.participants[sid := GetOrCreate(s.participants, sid).1.SetRoom(id)],
                      outbox := s.outbox + [Send(sid, listing)]),
                   Ok(Some(listing)))
  {
    assert RequestHandlers["joinroom"] == JoinRoom;
    JoinNewRoom(s, msg, sid);
    assert ProcessJSON(s, msg, sid, allowVersionCmd) == OnJoinRoom(s, msg, sid);
  }

  /** A joinroom frame for an existing room whose members are all connected:
      each member is told, in member order, then the sender gets the listing of
      those members; the sender is appended to the room, whose director stays,
      and its record names the room; nothing else changes. */
  lemma JoinFrameExistingRoom(s: State, sid: string, data: string, msg: Msg, allowVersionCmd: bool)
    requires Inv(s) && data != "close"
    requires "request" in msg && msg["request"] == JStr("joinroom")
    requires "roomid" in msg && msg["roomid"] in s.rooms
    requires forall u :: u in s.rooms[msg["roomid"]].participants ==> u in s.sessions
    ensures var id := msg["roomid"];
            var members := s.rooms[id].participants;
            var listing := ListingReply(ListingOf(s.participants, members), id);
            HandleFrame(s, sid, Text(data, Some(msg)), allowVersionCmd) ==
              Step(s.(rooms := s.rooms[id := Room(id, s.rooms[id].director, members + [sid])],
                      participants := s.participants[sid := GetOrCreate(s.participants, sid).1.SetRoom(id)],
                      outbox := s.outbox + SendsTo(members, SomeoneJoined(id, sid)) + [Send(sid, listing)]),
                   Ok(Some(listing)))
  {
    assert RequestHandlers["joinroom"] == JoinRoom;
    JoinExistingRoom(s, msg, sid);
    assert ProcessJSON(s, msg, sid, allowVersionCmd) == OnJoinRoom(s, msg, sid);
  }
}
