/** Session registry and message delivery (sessiontools.py). A connection is
    represented by its session id in SESSIONS_LIST; writing a message to it is an
    entry appended to an outbox. Serialisation is injective, so "the same
    serialised payload" is "the same JSON value". */
module Sessions {
  import opened Values

  /** One message written to the connection of session `to`. */
  datatype Send = Send(to: string, payload: Json)

  /** The messages a delivery wrote, in order, and the exception that stopped it. */
  datatype Delivery = Delivery(sent: seq<Send>, failure: Option<Exc>)

  /** removeSession: `pop` the session; an absent session raises KeyError. */
  function RemoveSession(sessions: set<string>, u: string): (r: Outcome<set<string>>)
    ensures r.Ok? <==> u in sessions
    ensures r.Raised? ==> r.exc == KeyError(JStr(u))
    ensures r.Ok? ==> u !in r.value && forall v :: v != u ==> (v in r.value <==> v in sessions)
  {
    if u in sessions then Ok(sessions - {u}) else Raised(KeyError(JStr(u)))
  }

  /** sendJSONToUUID: nothing for a None message; otherwise the message goes to
      the target's connection, and a target that names no session raises. */
  function SendJSONToUUID(sessions: set<string>, target: Json, message: Json): (d: Delivery)
    ensures message == JNull ==> d == Delivery([], None)
    ensures message != JNull && target.JStr? && target.s in sessions ==>
              d == Delivery([Send(target.s, message)], None)
    ensures message != JNull && !(target.JStr? && target.s in sessions) ==>
              d.sent == [] && d.failure.Some?
    ensures d.failure.Some? ==>
              d.failure.value == if Hashable(target) then KeyError(target) else TypeError(target)
  {
    if message == JNull then Delivery([], None)
    else if !Hashable(target) then Delivery([], Some(TypeError(target)))
    else if target.JStr? && target.s in sessions then Delivery([Send(target.s, message)], None)
    else Delivery([], Some(KeyError(target)))
  }

  /** The members of `ps`, in order, whose uuid is not on the blacklist `b`. */
  function Without(ps: seq<string>, b: seq<string>): seq<string>
  {
    if ps == [] then [] else (if ps[0] !in b then [ps[0]] else []) + Without(ps[1..], b)
  }

  /** The recipient list of sendJSONToParticipants: the list itself without a
      blacklist, the non-blacklisted members otherwise. */
  function Recipients(ps: seq<string>, blacklist: Option<seq<string>>): seq<string>
  {
    match blacklist
    case None => ps
    case Some(b) => Without(ps, b)
  }

  /** Filtering a concatenation filters each part: the filter keeps list order. */
  lemma {:induction false} WithoutAppend(xs: seq<string>, ys: seq<string>, b: seq<string>)
    ensures Without(xs + ys, b) == Without(xs, b) + Without(ys, b)
  {
    if xs == [] {
      assert xs + ys == ys;
    } else {
      assert (xs + ys)[1..] == xs[1..] + ys;
      WithoutAppend(xs[1..], ys, b);
    }
  }

  /** A uuid is a recipient exactly when it is in the list and not blacklisted,
      and every such list element is kept once per occurrence. */
  lemma {:induction false} WithoutCounts(ps: seq<string>, b: seq<string>, x: string)
    ensures multiset(Without(ps, b))[x] == if x in b then 0 else multiset(ps)[x]
    ensures x in Without(ps, b) <==> x in ps && x !in b
  {
    if ps != [] {
      WithoutCounts(ps[1..], b, x);
      assert ps == [ps[0]] + ps[1..];
    }
  }

  /** The filtering loop of sendJSONToParticipants. */
  method FilterRecipients(ps: seq<string>, blacklist: Option<seq<string>>) returns (list: seq<string>)
    ensures list == Recipients(ps, blacklist)
    ensures blacklist.None? ==> list == ps
    ensures blacklist.Some? ==>
              forall x :: multiset(list)[x] == if x in blacklist.value then 0 else multiset(ps)[x]
  {
    if blacklist.None? {
      return ps;
    }
    var b := blacklist.value;
    list := [];
    var i := 0;
    while i < |ps|
      invariant 0 <= i <= |ps|
      invariant list == Without(ps[..i], b)
    {
      WithoutAppend(ps[..i], [ps[i]], b);
      assert ps[..i + 1] == ps[..i] + [ps[i]];
      if ps[i] !in b {
        list := list + [ps[i]];
      }
      i := i + 1;
    }
    assert ps[..i] == ps;
    forall x ensures multiset(list)[x] == if x in b then 0 else multiset(ps)[x] {
      WithoutCounts(ps, b, x);
    }
  }

  /** How many recipients are sent to before the first one with no session. */
  function Reached(sessions: set<string>, rs: seq<string>): (k: nat)
    ensures k <= |rs|
    ensures forall j :: 0 <= j < k ==> rs[j] in sessions
    ensures k < |rs| ==> rs[k] !in sessions
  {
    if rs == [] || rs[0] !in sessions then 0 else 1 + Reached(sessions, rs[1..])
  }

  /** One send of `payload` to each recipient, in order. */
  function SendsTo(rs: seq<string>, payload: Json): (sent: seq<Send>)
    ensures |sent| == |rs|
    ensures forall i :: 0 <= i < |rs| ==> sent[i] == Send(rs[i], payload)
  {
    if rs == [] then [] else [Send(rs[0], payload)] + SendsTo(rs[1..], payload)
  }

  /** __sendJSONToParticipants: nothing for a None message; otherwise the
      payload goes to each recipient in order, and the first recipient with no
      session raises KeyError, after every earlier one was sent to. */
  function Deliver(sessions: set<string>, rs: seq<string>, message: Json): (d: Delivery)
    ensures message == JNull ==> d == Delivery([], None)
    ensures |d.sent| <= |rs|
    ensures forall i :: 0 <= i < |d.sent| ==> d.sent[i] == Send(rs[i], message)
    ensures message != JNull ==> (d.failure.None? <==> forall r :: r in rs ==> r in sessions)
    ensures message != JNull && d.failure.None? ==> |d.sent| == |rs|
    ensures d.failure.Some? ==>
              |d.sent| < |rs| && rs[|d.sent|] !in sessions &&
              d.failure.value == KeyError(JStr(rs[|d.sent|]))
  {
    if message == JNull then Delivery([], None)
    else
      var k := Reached(sessions, rs);
      Delivery(SendsTo(rs[..k], message), if k < |rs| then Some(KeyError(JStr(rs[k]))) else None)
  }

  /** The recipients are list elements, and none of them is blacklisted. */
  lemma RecipientsFromList(ps: seq<string>, blacklist: Option<seq<string>>)
    ensures forall x :: x in Recipients(ps, blacklist) ==>
              x in ps && (blacklist.Some? ==> x !in blacklist.value)
  {
    if blacklist.Some? {
      forall x | x in Without(ps, blacklist.value)
        ensures x in ps && x !in blacklist.value
      {
        WithoutCounts(ps, blacklist.value, x);
      }
    }
  }

  /** sendJSONToParticipants: filter by the blacklist, then deliver. A None
      message writes nothing; every write carries the message itself and goes to
      a list element that is not blacklisted, in list order; with every list
      recipient connected, each recipient is written to exactly once and nothing
      is raised; otherwise the writes stop at the first recipient with no
      session, and the KeyError raised names it. */
  function SendJSONToParticipants(sessions: set<string>, ps: seq<string>, message: Json,
                                  blacklist: Option<seq<string>>): (d: Delivery)
    ensures message == JNull ==> d == Delivery([], None)
    ensures |d.sent| <= |Recipients(ps, blacklist)|
    ensures forall i :: 0 <= i < |d.sent| ==> d.sent[i] == Send(Recipients(ps, blacklist)[i], message)
    ensures forall i :: 0 <= i < |d.sent| ==>
              d.sent[i].payload == message && d.sent[i].to in ps &&
              (blacklist.Some? ==> d.sent[i].to !in blacklist.value)
    ensures message != JNull && (forall u :: u in Recipients(ps, blacklist) ==> u in sessions) ==>
              d == Delivery(SendsTo(Recipients(ps, blacklist), message), None)
    ensures d.failure.Some? ==>
              var rs := Recipients(ps, blacklist);
              |d.sent| < |rs| && rs[|d.sent|] !in sessions &&
              d.failure.value == KeyError(JStr(rs[|d.sent|]))
  {
    var rs := Recipients(ps, blacklist);
    RecipientsFromList(ps, blacklist);
    assert rs[..|rs|] == rs;
    Deliver(sessions, rs, message)
  }

  /** Every recipient of one broadcast gets the same payload, and every message
      goes to a list element that the blacklist lets through. */
  lemma BroadcastPayloads(sessions: set<string>, ps: seq<string>, message: Json, b: seq<string>)
    ensures var d := SendJSONToParticipants(sessions, ps, message, Some(b));
            forall i :: 0 <= i < |d.sent| ==>
              d.sent[i].payload == message && d.sent[i].to in ps && d.sent[i].to !in b
  {
  }

  /** With every recipient connected, a broadcast without blacklist sends once
      to each list element, in list order, duplicates included. */
  lemma BroadcastToAll(sessions: set<string>, ps: seq<string>, message: Json)
    requires message != JNull
    requires forall u :: u in ps ==> u in sessions
    ensures SendJSONToParticipants(sessions, ps, message, None) == Delivery(SendsTo(ps, message), None)
  {
  }
}
