/** The seed registry (structs/seeds.py): stream id to the participant that
    publishes it. */
module Seeds {
  import opened Values
  import opened Participants

  /** SEED_LIST: stream id to the publisher's uuid. */
  type SeedList = map<Json, string>

  /** putSeed: file the participant under the stream id, then record the stream
      id on the participant. An unhashable stream id raises before either write.
      Nothing else moves: an older stream id of the same participant stays in the
      registry. */
  function PutSeed(seeds: SeedList, t: Table, streamID: Json, u: string): (r: Outcome<(SeedList, Table)>)
    requires u in t
    ensures r.Raised? <==> !Hashable(streamID)
    ensures r.Raised? ==> r.exc == TypeError(streamID)
    ensures r.Ok? ==> streamID in r.value.0 && r.value.0[streamID] == u
    ensures r.Ok? ==> r.value.0.Keys == seeds.Keys + {streamID}
    ensures r.Ok? ==> forall k :: k in seeds && k != streamID ==> r.value.0[k] == seeds[k]
    ensures r.Ok? ==> r.value.1.Keys == t.Keys
    ensures r.Ok? ==> r.value.1[u] == t[u].SetStreamID(streamID)
    ensures r.Ok? ==> forall v :: v in t && v != u ==> r.value.1[v] == t[v]
  {
    if !Hashable(streamID) then Raised(TypeError(streamID))
    else Ok((seeds[streamID := u], t[u := t[u].SetStreamID(streamID)]))
  }

  /** getSeed: the publisher of the stream if there is one, else None; an
      unhashable stream id raises TypeError. */
  function GetSeed(seeds: SeedList, streamID: Json): (r: Outcome<Option<string>>)
    ensures r.Raised? <==> !Hashable(streamID)
    ensures r.Raised? ==> r.exc == TypeError(streamID)
    ensures r.Ok? ==> (r.value.Some? <==> streamID in seeds)
    ensures r.Ok? && r.value.Some? ==> r.value.value == seeds[streamID]
  {
    if !Hashable(streamID) then Raised(TypeError(streamID))
    else if streamID in seeds then Ok(Some(seeds[streamID]))
    else Ok(None)
  }

  /** putSeed followed by getSeed of the same stream id finds the publisher. */
  lemma PutThenGet(seeds: SeedList, t: Table, streamID: Json, u: string)
    requires u in t
    requires PutSeed(seeds, t, streamID, u).Ok?
    ensures GetSeed(PutSeed(seeds, t, streamID, u).value.0, streamID) == Ok(Some(u))
  {
  }

  /** Re-seeding under a new stream id leaves the old stream id filed under the
      same participant, while the participant now names only the new one. */
  lemma ReseedKeepsOldKey(seeds: SeedList, t: Table, first: Json, second: Json, u: string)
    requires u in t && first != second
    requires PutSeed(seeds, t, first, u).Ok?
    requires Hashable(second)
    ensures var (seeds1, t1) := PutSeed(seeds, t, first, u).value;
            var (seeds2, t2) := PutSeed(seeds1, t1, second, u).value;
            seeds2[first] == u && seeds2[second] == u && t2[u].streamID == second
  {
  }
}
