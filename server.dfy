/** The running relay: the process-wide registries PARTICIPANTS, ROOMS,
    SEED_LIST and SESSIONS_LIST as fields of one object, and every message
    written to a connection appended to `outbox`. Each method performs the
    source's updates one by one and is proved to reach the state, and return the
    value or exception, that the matching function of the value-level model
    gives; the properties proved about those functions therefore hold of the
    running relay. */
module ServerState {
  import opened Values
  import opened Participants
  import Seeds
  import opened Rooms
  import Sessions
  import opened Handlers
  import Relay

  /** `Reached` stops exactly at the first recipient with no session. */
  lemma {:induction false} ReachedAt(sessions: set<string>, rs: seq<string>, k: nat)
    requires k <= |rs|
    requires forall j :: 0 <= j < k ==> rs[j] in sessions
    requires k < |rs| ==> rs[k] !in sessions
    ensures Sessions.Reached(sessions, rs) == k
  {
    if k > 0 {
      ReachedAt(sessions, rs[1..], k - 1);
    }
  }

  /** The fan-out, stopped at position `k`, is what `Deliver` gives. */
  lemma DeliverAt(sessions: set<string>, rs: seq<string>, message: Json, k: nat)
    requires message != JNull && k <= |rs|
    requires forall j :: 0 <= j < k ==> rs[j] in sessions
    requires k < |rs| ==> rs[k] !in sessions
    ensures Sessions.Deliver(sessions, rs, message) ==
            Sessions.Delivery(Sessions.SendsTo(rs[..k], message),
                              if k < |rs| then Some(KeyError(JStr(rs[k]))) else None)
  {
    ReachedAt(sessions, rs, k);
  }

  /** One more recipient adds one more write at the end. */
  lemma SendsToExtend(rs: seq<string>, message: Json, i: nat)
    requires i < |rs|
    ensures Sessions.SendsTo(rs[..i + 1], message) ==
            Sessions.SendsTo(rs[..i], message) + [Sessions.Send(rs[i], message)]
  {
  }

  class Server {
    var participants: Table
    var rooms: RoomList
    var seeds: Seeds.SeedList
    var sessions: set<string>
    var outbox: seq<Sessions.Send>
    /** ALLOW_VERSION_CMD of the configuration. */
    const allowVersionCmd: bool

    /** The registries as a value of the model. */
    function Snapshot(): State
      reads this
    {
      State(participants, rooms, seeds, sessions, outbox)
    }

    ghost predicate Valid()
      reads this
    {
      Inv(Snapshot())
    }

    /** Start-up: every registry empty, nothing sent. */
    constructor(allowVersionCmd: bool)
      ensures Snapshot() == Initial() && Valid()
      ensures this.allowVersionCmd == allowVersionCmd
    {
      participants := map[];
      rooms := map[];
      seeds := map[];
      sessions := {};
      outbox := [];
      this.allowVersionCmd := allowVersionCmd;
      InitialInv();
    }

    // ----- structs/participant.py -----

    /** getOrCreateParticipant. */
    method GetOrCreateParticipant(u: string) returns (p: Participant)
      modifies this
      ensures (participants, p) == GetOrCreate(old(participants), u)
      ensures rooms == old(rooms) && seeds == old(seeds)
      ensures sessions == old(sessions) && outbox == old(outbox)
    {
      if u !in participants {
        participants := participants[u := NewParticipant(u)];
      }
      p := participants[u];
    }

    /** getParticipant. */
    method GetParticipant(u: string) returns (p: Option<Participant>)
      ensures p == Get(participants, u)
      ensures p.Some? ==> u in participants && p.value == participants[u]
    {
      if u in participants {
        p := Some(participants[u]);
      } else {
        p := None;
      }
    }

    // ----- structs/seeds.py -----

    /** putSeed: the registry entry first, then the participant's stream id. */
    method PutSeed(streamID: Json, u: string) returns (exc: Option<Exc>)
      requires u in participants
      modifies this
      ensures var r := Seeds.PutSeed(old(seeds), old(participants), streamID, u);
              && (r.Raised? ==> exc == Some(r.exc) && seeds == old(seeds) && participants == old(participants))
              && (r.Ok? ==> exc == None && seeds == r.value.0 && participants == r.value.1)
      ensures rooms == old(rooms) && sessions == old(sessions) && outbox == old(outbox)
    {
      if !Hashable(streamID) {
        return Some(TypeError(streamID));
      }
      seeds := seeds[streamID := u];
      participants := participants[u := participants[u].SetStreamID(streamID)];
      exc := None;
    }

    /** getSeed. */
    method GetSeed(streamID: Json) returns (r: Outcome<Option<string>>)
      ensures r == Seeds.GetSeed(seeds, streamID)
      ensures r.Ok? && r.value.Some? ==> streamID in seeds && seeds[streamID] == r.value.value
    {
      if !Hashable(streamID) {
        return Raised(TypeError(streamID));
      }
      if streamID in seeds {
        r := Ok(Some(seeds[streamID]));
      } else {
        r := Ok(None);
      }
    }

    // ----- structs/room.py -----

    /** Room.setDirector on the room filed under `id`. */
    method SetDirector(id: Json, u: string)
      requires id in rooms
      modifies this
      ensures rooms == old(rooms)[id := old(rooms)[id].SetDirector(u)]
      ensures participants == old(participants) && seeds == old(seeds)
      ensures sessions == old(sessions) && outbox == old(outbox)
    {
      rooms := rooms[id := rooms[id].(director := Some(u))];
    }

    /** Room.joinRoom on the room filed under `id`. */
    method JoinRoom(id: Json, u: string)
      requires id in rooms
      modifies this
      ensures var (room, t) := old(rooms)[id].JoinRoom(old(participants), u);
              rooms == old(rooms)[id := room] && participants == t
      ensures seeds == old(seeds) && sessions == old(sessions) && outbox == old(outbox)
    {
      var p := GetOrCreateParticipant(u);
      participants := participants[u := p.SetRoom(rooms[id].roomID)];
      rooms := rooms[id := rooms[id].(participants := rooms[id].participants + [u])];
    }

    /** Room.leaveRoom on the room filed under `id`. */
    method LeaveRoom(id: Json, u: string)
      requires id in rooms
      modifies this
      ensures var (room, t) := old(rooms)[id].LeaveRoom(old(participants), u);
              rooms == old(rooms)[id := room] && participants == t
      ensures seeds == old(seeds) && sessions == old(sessions) && outbox == old(outbox)
    {
      var p := GetOrCreateParticipant(u);
      var room := rooms[id];
      if u in room.participants {
        participants := participants[u := p.SetRoom(JNull)];
        room := room.(participants := RemoveFirst(room.participants, u));
      }
      if room.director == Some(u) {
        room := room.(director := None);
      }
      rooms := rooms[id := room];
    }

    // ----- sessiontools.py -----

    /** removeSession. */
    method RemoveSession(u: string) returns (exc: Option<Exc>)
      modifies this
      ensures var r := Sessions.RemoveSession(old(sessions), u);
              && (r.Raised? ==> exc == Some(r.exc) && sessions == old(sessions))
              && (r.Ok? ==> exc == None && sessions == r.value)
      ensures participants == old(participants) && rooms == old(rooms)
      ensures seeds == old(seeds) && outbox == old(outbox)
    {
      if u !in sessions {
        return Some(KeyError(JStr(u)));
      }
      sessions := sessions - {u};
      exc := None;
    }

    /** sendJSONToUUID. */
    method SendJSONToUUID(target: Json, message: Json) returns (exc: Option<Exc>)
      modifies this
      ensures var d := Sessions.SendJSONToUUID(old(sessions), target, message);
              outbox == old(outbox) + d.sent && exc == d.failure
      ensures participants == old(participants) && rooms == old(rooms)
      ensures seeds == old(seeds) && sessions == old(sessions)
    {
      if message == JNull {
        return None;
      }
      if !Hashable(target) {
        return Some(TypeError(target));
      }
      if target.JStr? && target.s in sessions {
        outbox := outbox + [Sessions.Send(target.s, message)];
        return None;
      }
      return Some(KeyError(target));
    }

    /** __sendJSONToParticipants: nothing for a None message; otherwise the
        message goes to each recipient in turn, up to the first one with no
        session, which raises KeyError. The loop gathers the writes in order
        and appends them to the outbox when it stops. */
    method SendToEach(rs: seq<string>, message: Json) returns (exc: Option<Exc>)
      modifies this
      ensures var d := Sessions.Deliver(old(sessions), rs, message);
              outbox == old(outbox) + d.sent && exc == d.failure
      ensures participants == old(participants) && rooms == old(rooms)
      ensures seeds == old(seeds) && sessions == old(sessions)
    {
      if message == JNull {
        return None;
      }
      var k := 0;
      var sent: seq<Sessions.Send> := [];
      while k < |rs| && rs[k] in sessions
        invariant 0 <= k <= |rs|
        invariant forall j :: 0 <= j < k ==> rs[j] in sessions
        invariant sent == Sessions.SendsTo(rs[..k], message)
        modifies {}
      {
        SendsToExtend(rs, message, k);
        sent := sent + [Sessions.Send(rs[k], message)];
        k := k + 1;
      }
      DeliverAt(sessions, rs, message, k);
      outbox := outbox + sent;
      exc := if k < |rs| then Some(KeyError(JStr(rs[k]))) else None;
    }

    /** sendJSONToParticipants: filter by the blacklist, then write. */
    method SendJSONToParticipants(ps: seq<string>, message: Json, blacklist: Option<seq<string>>)
      returns (exc: Option<Exc>)
      modifies this
      ensures var d := Sessions.SendJSONToParticipants(old(sessions), ps, message, blacklist);
              outbox == old(outbox) + d.sent && exc == d.failure
      ensures participants == old(participants) && rooms == old(rooms)
      ensures seeds == old(seeds) && sessions == old(sessions)
    {
      var list := Sessions.FilterRecipients(ps, blacklist);
      exc := SendToEach(list, message);
    }
  
    // ----- requestprocessor.py -----

    /** onJoinRoom: list and notify the members already there, or create the
        room, then join it. */
    method OnJoinRoom(msg: Msg, sid: string) returns (out: Outcome<Option<Json>>)
      requires Valid()
      modifies this
      ensures var r := Handlers.OnJoinRoom(old(Snapshot()), msg, sid);
              Snapshot() == r.st && out == r.out
      ensures Valid()
    {
      if "roomid" !in msg {
        return Raised(KeyError(JStr("roomid")));
      }
      var id := msg["roomid"];
      if !Hashable(id) {
        return Raised(TypeError(id));
      }
      var list: seq<Json> := [];
      if id in rooms {
        list := BuildListing(participants, rooms[id].participants);
        var exc := SendJSONToParticipants(rooms[id].participants, SomeoneJoined(id, sid), None);
        if exc.Some? {
          return Raised(exc.value);
        }
      } else {
        rooms := rooms[id := NewRoom(id)];
      }
      JoinRoom(id, sid);
      out := Ok(Some(ListingReply(list, id)));
    }

    /** onClaim. */
    method OnClaim(msg: Msg, sid: string) returns (out: Outcome<Option<Json>>)
      requires Valid()
      modifies this
      ensures var r := Handlers.OnClaim(old(Snapshot()), msg, sid);
              Snapshot() == r.st && out == r.out
      ensures Valid()
    {
      var p := GetParticipant(sid);
      if p.None? {
        return Raised(AttributeError);
      }
      var roomID := p.value.GetRoom();
      if !Hashable(roomID) {
        return Raised(TypeError(roomID));
      }
      if roomID in rooms {
        SetDirector(roomID, sid);
      }
      out := Ok(None);
    }

    /** onSeed: title, then seed, then tell the rest of the sender's room. */
    method OnSeed(msg: Msg, sid: string) returns (out: Outcome<Option<Json>>)
      requires Valid()
      modifies this
      ensures var r := Handlers.OnSeed(old(Snapshot()), msg, sid);
              Snapshot() == r.st && out == r.out
      ensures Valid()
    {
      if "title" !in msg {
        return Raised(KeyError(JStr("title")));
      }
      if "streamID" !in msg {
        return Raised(KeyError(JStr("streamID")));
      }
      var title := msg["title"];
      var streamID := msg["streamID"];
      var p := GetOrCreateParticipant(sid);
      participants := participants[sid := p.SetTitle(title)];
      var exc := PutSeed(streamID, sid);
      if exc.Some? {
        return Raised(exc.value);
      }
      var roomID := participants[sid].GetRoom();
      if !Hashable(roomID) {
        return Raised(TypeError(roomID));
      }
      if roomID !in rooms {
        return Raised(KeyError(roomID));
      }
      exc := SendJSONToParticipants(rooms[roomID].participants, VideoAdded(roomID, sid, streamID), Some([sid]));
      out := if exc.Some? then Raised(exc.value) else Ok(None);
    }

    /** onPlay. */
    method OnPlay(msg: Msg, sid: string) returns (out: Outcome<Option<Json>>)
      modifies this
      ensures var r := Handlers.OnPlay(old(Snapshot()), msg, sid);
              Snapshot() == r.st && out == r.out
    {
      if "streamID" !in msg {
        return Raised(KeyError(JStr("streamID")));
      }
      var other := GetSeed(msg["streamID"]);
      if other.Raised? {
        return Raised(other.exc);
      }
      if other.value.None? {
        return Ok(None);
      }
      var exc := SendJSONToParticipants([other.value.value], OfferSDP(sid), None);
      out := if exc.Some? then Raised(exc.value) else Ok(None);
    }

    /** onSendRoom. */
    method OnSendRoom(msg: Msg, sid: string) returns (out: Outcome<Option<Json>>)
      modifies this
      ensures var r := Handlers.OnSendRoom(old(Snapshot()), msg, sid);
              Snapshot() == r.st && out == r.out
    {
      if "roomid" !in msg {
        return Raised(KeyError(JStr("roomid")));
      }
      var roomID := msg["roomid"];
      if !Hashable(roomID) {
        return Raised(TypeError(roomID));
      }
      if roomID !in rooms {
        return Raised(KeyError(roomID));
      }
      var exc := SendJSONToParticipants(rooms[roomID].participants, JObj(msg), Some([sid]));
      out := if exc.Some? then Raised(exc.value) else Ok(None);
    }

    /** onLibreNinjaVersion. */
    method OnLibreNinjaVersion() returns (out: Outcome<Option<Json>>)
      ensures out == Handlers.OnLibreNinjaVersion(Snapshot(), allowVersionCmd).out
      ensures out.Ok? && (out.value.Some? <==> allowVersionCmd)
    {
      if !allowVersionCmd {
        return Ok(None);
      }
      out := Ok(Some(VersionInfo()));
    }

    /** cleanSession. */
    method CleanSession(sid: string) returns (out: Outcome<Option<Json>>)
      requires Valid()
      modifies this
      ensures var r := Handlers.CleanSession(old(Snapshot()), sid);
              Snapshot() == r.st && out == r.out
      ensures Valid()
    {
      var p := GetParticipant(sid);
      if p.None? {
        return Ok(None);
      }
      var roomID := p.value.GetRoom();
      if roomID == JNull {
        return Ok(None);
      }
      if !Hashable(roomID) {
        return Raised(TypeError(roomID));
      }
      if roomID !in rooms {
        return Raised(KeyError(roomID));
      }
      LeaveRoom(roomID, sid);
      out := Ok(None);
    }

    /** Calling the function REQUEST_HANDLERS holds for a request name. */
    method Invoke(h: Handler, msg: Msg, sid: string) returns (out: Outcome<Option<Json>>)
      requires Valid()
      modifies this
      ensures var r := Handlers.Invoke(h, old(Snapshot()), msg, sid, allowVersionCmd);
              Snapshot() == r.st && out == r.out
      ensures Valid()
    {
      match h
      case JoinRoom => out := OnJoinRoom(msg, sid);
      case Claim => out := OnClaim(msg, sid);
      case Seed => out := OnSeed(msg, sid);
      case Play => out := OnPlay(msg, sid);
      case SendRoom => out := OnSendRoom(msg, sid);
      case LibreNinjaVersion => out := OnLibreNinjaVersion();
    }

    // ----- LibreNinja.py -----

    /** processJSON. */
    method ProcessJSON(msg: Msg, sid: string) returns (out: Outcome<Option<Json>>)
      requires Valid()
      modifies this
      ensures var r := Relay.ProcessJSON(old(Snapshot()), msg, sid, allowVersionCmd);
              Snapshot() == r.st && out == r.out
      ensures Valid()
    {
      if "request" in msg {
        var request := msg["request"];
        if !Hashable(request) {
          return Raised(TypeError(request));
        }
        if request.JStr? && request.s in RequestHandlers {
          var result := Invoke(RequestHandlers[request.s], msg, sid);
          out := if result.Ok? then result else Ok(None);
        } else {
          out := Ok(None);
        }
      } else if "UUID" in msg {
        var target := msg["UUID"];
        var exc := SendJSONToUUID(target, JObj(msg["UUID" := JStr(sid)]));
        out := if exc.Some? then Raised(exc.value) else Ok(None);
      } else {
        out := Ok(None);
      }
    }

    /** cleanup. */
    method Cleanup(sid: string) returns (out: Outcome<Option<Json>>)
      requires Valid()
      modifies this
      ensures var r := Relay.Cleanup(old(Snapshot()), sid);
              Snapshot() == r.st && out == r.out
      ensures Valid()
    {
      var exc := RemoveSession(sid);
      if exc.Some? {
        return Raised(exc.value);
      }
      out := CleanSession(sid);
    }

    /** One pass of websocket_handler's receive loop for session `sid`. */
    method HandleFrame(sid: string, frame: Relay.Frame) returns (out: Outcome<Option<Json>>)
      requires Valid()
      modifies this
      ensures var r := Relay.HandleFrame(old(Snapshot()), sid, frame, allowVersionCmd);
              Snapshot() == r.st && out == r.out
      ensures Valid()
    {
      match frame
      case Error => out := Ok(None);
      case Binary => out := Ok(None);
      case Text(data, decoded) =>
        if data == "close" {
          out := Ok(None);
        } else if decoded.None? {
          out := Raised(ValueError);
        } else {
          out := ProcessJSON(decoded.value, sid);
          if out.Ok? && out.value.Some? {
            outbox := outbox + [Sessions.Send(sid, out.value.value)];
          }
        }
    }

    /** websocket_handler: register the session, run the receive loop over the
        frames the connection delivers, then clean up unless an exception ended
        the loop. */
    method Serve(sid: string, frames: seq<Relay.Frame>) returns (out: Outcome<Option<Json>>)
      requires Valid()
      modifies this
      ensures var r := Relay.Serve(old(Snapshot()), sid, frames, allowVersionCmd);
              Snapshot() == r.st && out == r.out
      ensures Valid()
    {
      sessions := sessions + {sid};
      ghost var start := Snapshot();
      var i := 0;
      while i < |frames|
        invariant 0 <= i <= |frames|
        invariant Valid()
        invariant Relay.HandleFrames(start, sid, frames, allowVersionCmd) ==
                  Relay.HandleFrames(Snapshot(), sid, frames[i..], allowVersionCmd)
      {
        assert frames[i..][0] == frames[i] && frames[i..][1..] == frames[i + 1..];
        var o := HandleFrame(sid, frames[i]);
        if o.Raised? {
          return o;
        }
        i := i + 1;
      }
      out := Cleanup(sid);
    }
  }
}
