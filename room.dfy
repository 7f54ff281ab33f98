/** Rooms (structs/room.py): an id, an optional director and the ordered list of
    member uuids, and the ROOMS registry. */
module Rooms {
  import opened Values
  import opened Participants

  /** Python's `list.remove(x)`: drop the first occurrence of `x`. On a list
      without `x` Python raises ValueError; leaveRoom only calls it after
      checking membership, so that case is excluded here. */
  function RemoveFirst<T(==)>(s: seq<T>, x: T): (r: seq<T>)
    requires x in s
    ensures |r| == |s| - 1
    ensures forall y :: y in r ==> y in s
  {
    if s[0] == x then s[1..]
    else [s[0]] + RemoveFirst(s[1..], x)
  }

  /** The position of the first occurrence of `x`. */
  function FirstIndex<T(==)>(s: seq<T>, x: T): (i: nat)
    requires x in s
    ensures i < |s| && s[i] == x && x !in s[..i]
  {
    if s[0] == x then 0
    else
      var j := FirstIndex(s[1..], x);
      assert s[..j + 1] == [s[0]] + s[1..][..j];
      j + 1
  }

  /** `list.remove` cuts out exactly the first occurrence and keeps the order of
      everything else. */
  lemma {:induction false} RemoveFirstCutsFirst<T>(s: seq<T>, x: T)
    requires x in s
    ensures RemoveFirst(s, x) == s[..FirstIndex(s, x)] + s[FirstIndex(s, x) + 1..]
  {
    if s[0] != x {
      RemoveFirstCutsFirst(s[1..], x);
      var j := FirstIndex(s[1..], x);
      assert FirstIndex(s, x) == j + 1;
      assert RemoveFirst(s, x) == [s[0]] + RemoveFirst(s[1..], x);
      assert s[..j + 1] == [s[0]] + s[1..][..j];
      assert s[j + 2..] == s[1..][j + 1..];
    }
  }

  /** `list.remove` takes away one copy of `x` and nothing else. */
  lemma {:induction false} RemoveFirstMultiset<T>(s: seq<T>, x: T)
    requires x in s
    ensures multiset(RemoveFirst(s, x)) == multiset(s) - multiset{x}
  {
    if s[0] == x {
      assert s == [s[0]] + s[1..];
    } else {
      RemoveFirstMultiset(s[1..], x);
      assert s == [s[0]] + s[1..];
    }
  }

  /** Removing an element that was appended to a list without it gives back the list. */
  lemma {:induction false} RemoveFirstOfAppended<T>(s: seq<T>, x: T)
    requires x !in s
    ensures RemoveFirst(s + [x], x) == s
  {
    if s != [] {
      assert (s + [x])[1..] == s[1..] + [x];
      RemoveFirstOfAppended(s[1..], x);
    }
  }

  datatype Room = Room(roomID: Json, director: Option<string>, participants: seq<string>)
  {
    /** setDirector: the director becomes `u`, with no membership check. */
    function SetDirector(u: string): (r: Room)
      ensures r.director == Some(u)
      ensures r.roomID == roomID && r.participants == participants
    {
      this.(director := Some(u))
    }

    /** joinRoom: get or create the participant, set its room to this room's id
        and append it to the members, whether or not it is already one. */
    function JoinRoom(t: Table, u: string): (r: (Room, Table))
      ensures r.0.participants == participants + [u]
      ensures r.0.roomID == roomID && r.0.director == director
      ensures r.1.Keys == t.Keys + {u}
      ensures r.1[u] == GetOrCreate(t, u).1.SetRoom(roomID)
      ensures forall v :: v in t && v != u ==> r.1[v] == t[v]
      ensures Keyed(t) ==> Keyed(r.1)
    {
      var (t1, p) := GetOrCreate(t, u);
      (this.(participants := participants + [u]), t1[u := p.SetRoom(roomID)])
    }

    /** leaveRoom: get or create the participant; if it is a member, clear its
        room and remove its first occurrence; if it is the director, clear the
        director. */
    function LeaveRoom(t: Table, u: string): (r: (Room, Table))
      ensures r.0.roomID == roomID
      ensures u in participants ==> r.0.participants == RemoveFirst(participants, u)
      ensures u !in participants ==> r.0.participants == participants
      ensures r.0.director == if director == Some(u) then None else director
      ensures r.1.Keys == t.Keys + {u}
      ensures u in participants ==> r.1[u] == GetOrCreate(t, u).1.SetRoom(JNull)
      ensures u !in participants ==> r.1 == GetOrCreate(t, u).0
      ensures forall v :: v in t && v != u ==> r.1[v] == t[v]
      ensures Keyed(t) ==> Keyed(r.1)
    {
      var (t1, p) := GetOrCreate(t, u);
      var (parts, t2) :=
        if u in participants then (RemoveFirst(participants, u), t1[u := p.SetRoom(JNull)])
        else (participants, t1);
      (Room(roomID, if director == Some(u) then None else director, parts), t2)
    }
  }

  /** A new room: the given id, no director, no members. */
  function NewRoom(id: Json): (r: Room)
    ensures r.roomID == id && r.director == None && r.participants == []
  {
    Room(id, None, [])
  }

  /** ROOMS: room id to room. */
  type RoomList = map<Json, Room>

  /** Joining and then leaving a room one was not in gives back the member list,
      and the participant ends with no room. */
  lemma JoinThenLeave(room: Room, t: Table, u: string)
    requires u !in room.participants
    ensures var (room1, t1) := room.JoinRoom(t, u);
            var (room2, t2) := room1.LeaveRoom(t1, u);
            room2.participants == room.participants && t2[u].roomID == JNull
  {
    RemoveFirstOfAppended(room.participants, u);
  }

  /** Joining twice and leaving once leaves the participant in the member list
      while its record says it is in no room: member lists keep duplicates. */
  lemma DoubleJoinThenLeave(room: Room, t: Table, u: string)
    requires u !in room.participants
    ensures var (room1, t1) := room.JoinRoom(t, u);
            var (room2, t2) := room1.JoinRoom(t1, u);
            var (room3, t3) := room2.LeaveRoom(t2, u);
            room3.participants == room.participants + [u] && t3[u].roomID == JNull
  {
    var s := room.participants;
    assert (s + [u]) + [u] == s + [u, u];
    assert RemoveFirst(s + [u, u], u) == s + [u] by {
      RemoveFirstCutsFirst(s + [u, u], u);
      var i := FirstIndex(s + [u, u], u);
      assert (s + [u, u])[|s|] == u;
      assert i == |s|;
      assert (s + [u, u])[..|s|] == s;
      assert (s + [u, u])[|s| + 1..] == [u];
    }
  }
}
