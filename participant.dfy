/** The per-session participant record and the participant registry
    (structs/participant.py). There is exactly one record per session id and none
    is ever deleted, so room member lists, seed entries and room directors refer
    to a participant by its uuid, and an update of the shared Python object is an
    update of its registry entry. */
module Participants {
  import opened Values

  datatype Participant = Participant(uuid: string, roomID: Json, streamID: Json, title: Json)
  {
    /** Setter for the room id; the getter sees the new value and nothing else moves. */
    function SetRoom(id: Json): (q: Participant)
      ensures q.GetRoom() == id
      ensures q.uuid == uuid && q.GetStreamID() == streamID && q.GetTitle() == title
    {
      this.(roomID := id)
    }

    function GetRoom(): Json { roomID }

    function SetStreamID(id: Json): (q: Participant)
      ensures q.GetStreamID() == id
      ensures q.uuid == uuid && q.GetRoom() == roomID && q.GetTitle() == title
    {
      this.(streamID := id)
    }

    function GetStreamID(): Json { streamID }

    function SetTitle(t: Json): (q: Participant)
      ensures q.GetTitle() == t
      ensures q.uuid == uuid && q.GetRoom() == roomID && q.GetStreamID() == streamID
    {
      this.(title := t)
    }

    function GetTitle(): Json { title }

    /** The dict listing this participant to others: always its UUID, and its
        stream id exactly when one is set. */
    function UuidAsDict(): (d: Json)
      ensures d.JObj?
      ensures "UUID" in d.fields && d.fields["UUID"] == JStr(uuid)
      ensures "streamID" in d.fields <==> streamID != JNull
      ensures "streamID" in d.fields ==> d.fields["streamID"] == streamID
      ensures forall k :: k in d.fields ==> k == "UUID" || k == "streamID"
    {
      var ret := map["UUID" := JStr(uuid)];
      if streamID != JNull then JObj(ret["streamID" := streamID]) else JObj(ret)
    }
  }

  /** A fresh participant: the given uuid, and no room, stream or title. */
  function NewParticipant(uuid: string): (p: Participant)
    ensures p.uuid == uuid
    ensures p.GetRoom() == JNull && p.GetStreamID() == JNull && p.GetTitle() == JNull
  {
    Participant(uuid, JNull, JNull, JNull)
  }

  /** PARTICIPANTS: session id to participant record. */
  type Table = map<string, Participant>

  /** Every record is filed under its own uuid. */
  ghost predicate Keyed(t: Table) {
    forall u :: u in t ==> t[u].uuid == u
  }

  /** getOrCreateParticipant: the registry afterwards and the record returned. */
  function GetOrCreate(t: Table, u: string): (r: (Table, Participant))
    ensures u in r.0 && r.1 == r.0[u]
    ensures u in t ==> r.0 == t && r.1 == t[u]
    ensures u !in t ==> r.0 == t[u := NewParticipant(u)]
    ensures r.0.Keys == t.Keys + {u}
    ensures forall v :: v in t ==> r.0[v] == t[v]
    ensures Keyed(t) ==> Keyed(r.0) && r.1.uuid == u
  {
    if u in t then (t, t[u]) else (t[u := NewParticipant(u)], NewParticipant(u))
  }

  /** A second getOrCreateParticipant for the same uuid changes nothing and
      returns the same record. */
  lemma GetOrCreateIdempotent(t: Table, u: string)
    ensures GetOrCreate(GetOrCreate(t, u).0, u) == GetOrCreate(t, u)
  {
  }

  /** Writing the record of `u` after getOrCreateParticipant gives the same
      registry as writing it directly. */
  lemma OverwriteAfterGetOrCreate(t: Table, u: string, q: Participant)
    ensures GetOrCreate(t, u).0[u := q] == t[u := q]
  {
  }

  /** getParticipant: the record if the uuid is registered, None otherwise. */
  function Get(t: Table, u: string): (r: Option<Participant>)
    ensures r.None? <==> u !in t
    ensures r.Some? ==> r.value == t[u]
  {
    if u in t then Some(t[u]) else None
  }

  /** After getOrCreateParticipant, getParticipant finds the record it returned. */
  lemma GetAfterGetOrCreate(t: Table, u: string)
    ensures Get(GetOrCreate(t, u).0, u) == Some(GetOrCreate(t, u).1)
  {
  }
}
