/**
  The memory store behind the NPC: three partitions (the collections `player_messages`,
  `game_events` and `npc_memory`), each an append-only sequence of records `(id, document,
  metadata)`, plus the two add helpers and `query_collection` of chromadb_backend/chromatesting.py.

  The vector database is abstract here. Similarity ranking is an uninterpreted
  `distance(query, document)`: a query keeps the records whose metadata match the `where`
  filter, orders them by distance (nearest first) and returns the first `k`.
  Fresh ids (`uuid4` in the source) come from a counter: the record at position `i` of a
  partition has the id `prefix + str(i)`.
 */
module Store {
  import opened Wrappers
  import opened Strings

  /** A metadata value: the store writes strings and integers. */
  datatype MetaValue = MStr(s: string) | MInt(i: int)

  type Metadata = map<string, MetaValue>

  datatype Record = Record(id: string, document: string, metadata: Metadata)

  datatype Partition = PlayerMessages | GameEvents | NpcMemory

  /** Uninterpreted similarity: smaller means closer to the query text. */
  type Distance = (string, string) -> int

  const PLAYER_MESSAGE_PREFIX := "msg-"
  const NPC_MEMORY_PREFIX := "npc-"

  /** Python truthiness of an optional `where` dict: `None` and `{}` are falsy. */
  predicate IsTruthyFilter(filters: Option<Metadata>)
  {
    filters.Some? && filters.value != map[]
  }

  // ---------------------------------------------------------------- ids

  /** The id the counter hands out for the `n`-th record of a partition. */
  function MakeId(prefix: string, n: nat): string
  {
    prefix + NatToString(n)
  }

  lemma MakeIdInjective(prefix: string, m: nat, n: nat)
    requires MakeId(prefix, m) == MakeId(prefix, n)
    ensures m == n
  {
    assert MakeId(prefix, m)[|prefix|..] == NatToString(m);
    assert MakeId(prefix, n)[|prefix|..] == NatToString(n);
    NatToStringInjective(m, n);
  }

  /** Every record of `rs` carries the id the counter gave it at its position. */
  ghost predicate IdsByPosition(rs: seq<Record>, prefix: string)
  {
    forall i :: 0 <= i < |rs| ==> rs[i].id == MakeId(prefix, i)
  }

  /** Ids handed out by the counter are unique within a partition. */
  lemma IdsUnique(rs: seq<Record>, prefix: string)
    requires IdsByPosition(rs, prefix)
    ensures forall i, j :: 0 <= i < j < |rs| ==> rs[i].id != rs[j].id
  {
    forall i, j | 0 <= i < j < |rs|
      ensures rs[i].id != rs[j].id
    {
      if rs[i].id == rs[j].id {
        MakeIdInjective(prefix, i, j);
      }
    }
  }

  /** The next id is not used by any record already stored. */
  lemma NextIdFresh(rs: seq<Record>, prefix: string)
    requires IdsByPosition(rs, prefix)
    ensures forall i :: 0 <= i < |rs| ==> rs[i].id != MakeId(prefix, |rs|)
  {
    forall i | 0 <= i < |rs|
      ensures rs[i].id != MakeId(prefix, |rs|)
    {
      if rs[i].id == MakeId(prefix, |rs|) {
        MakeIdInjective(prefix, i, |rs|);
      }
    }
  }

  // ---------------------------------------------------------------- metadata written by the add helpers

  /** The flattened metadata `add_player_message` stores. */
  function PlayerMetadata(playerId: string, playerName: string, roundId: string, location: string,
                          nearbyPlayers: seq<string>, timestamp: int): Metadata
  {
    map["player_id" := MStr(playerId), "player_name" := MStr(playerName), "round_id" := MStr(roundId),
        "location" := MStr(location), "nearby_players" := MStr(Join(nearbyPlayers, ",")),
        "timestamp" := MInt(timestamp)]
  }

  /** The metadata `add_npc_memory` stores. */
  function NpcMetadata(memoryType: string, roundId: string): Metadata
  {
    map["memory_type" := MStr(memoryType), "round_id" := MStr(roundId)]
  }

  /**
    The comma-flattened `nearby_players` field loses nothing for a non-empty list of ids
    without commas: splitting it on "," gives the list back.
   */
  lemma NearbyPlayersRecoverable(playerId: string, playerName: string, roundId: string, location: string,
                                 nearbyPlayers: seq<string>, timestamp: int)
    requires |nearbyPlayers| > 0
    requires forall k :: 0 <= k < |nearbyPlayers| ==> ',' !in nearbyPlayers[k]
    ensures var m := PlayerMetadata(playerId, playerName, roundId, location, nearbyPlayers, timestamp);
            m["nearby_players"].MStr? && Split(m["nearby_players"].s, ',') == nearbyPlayers
  {
    SplitJoin(nearbyPlayers, ',');
  }

  // ---------------------------------------------------------------- the `where` filter

  /** Exact-match `where` filter: every key of `where` is present in `meta` with the same value. */
  predicate Matches(meta: Metadata, where: Metadata)
  {
    forall key :: key in where ==> key in meta && meta[key] == where[key]
  }

  /** The records of `rs` that match `where`, in stored order. */
  function Keep(rs: seq<Record>, where: Metadata): (r: seq<Record>)
    ensures forall x :: x in r ==> x in rs && Matches(x.metadata, where)
    ensures forall x :: multiset(r)[x] == if Matches(x.metadata, where) then multiset(rs)[x] else 0
    ensures multiset(r) <= multiset(rs)
  {
    if rs == [] then []
    else
      var rest := Keep(rs[1..], where);
      assert rs == [rs[0]] + rs[1..];
      assert forall x :: x in rs[1..] ==> x in rs;
      (if Matches(rs[0].metadata, where) then [rs[0]] else []) + rest
  }

  // ---------------------------------------------------------------- ranking

  /** Distance of a record's document to the query text. */
  function DistanceTo(distance: Distance, query: string, x: Record): int
  {
    distance(query, x.document)
  }

  predicate SortedByDistance(rs: seq<Record>, distance: Distance, query: string)
  {
    forall i, j :: 0 <= i < j < |rs| ==> DistanceTo(distance, query, rs[i]) <= DistanceTo(distance, query, rs[j])
  }

  lemma SortedCons(y: Record, rs: seq<Record>, distance: Distance, query: string)
    requires SortedByDistance(rs, distance, query)
    requires forall j :: 0 <= j < |rs| ==> DistanceTo(distance, query, y) <= DistanceTo(distance, query, rs[j])
    ensures SortedByDistance([y] + rs, distance, query)
  {
    var s := [y] + rs;
    forall i, j | 0 <= i < j < |s|
      ensures DistanceTo(distance, query, s[i]) <= DistanceTo(distance, query, s[j])
    {
      assert s[j] == rs[j - 1];
      if i > 0 {
        assert s[i] == rs[i - 1];
      }
    }
  }

  function InsertByDistance(x: Record, rs: seq<Record>, distance: Distance, query: string): (r: seq<Record>)
    requires SortedByDistance(rs, distance, query)
    ensures SortedByDistance(r, distance, query)
    ensures multiset(r) == multiset(rs) + multiset{x}
  {
    if rs == [] || DistanceTo(distance, query, x) <= DistanceTo(distance, query, rs[0]) then
      SortedCons(x, rs, distance, query);
      [x] + rs
    else
      var rest := InsertByDistance(x, rs[1..], distance, query);
      assert rs == [rs[0]] + rs[1..];
      InsertHeadBound(x, rs, rest, distance, query);
      SortedCons(rs[0], rest, distance, query);
      [rs[0]] + rest
  }

  lemma InsertHeadBound(x: Record, rs: seq<Record>, rest: seq<Record>, distance: Distance, query: string)
    requires rs != [] && SortedByDistance(rs, distance, query)
    requires DistanceTo(distance, query, rs[0]) < DistanceTo(distance, query, x)
    requires multiset(rest) == multiset(rs[1..]) + multiset{x}
    ensures forall j :: 0 <= j < |rest| ==> DistanceTo(distance, query, rs[0]) <= DistanceTo(distance, query, rest[j])
  {
    forall j | 0 <= j < |rest|
      ensures DistanceTo(distance, query, rs[0]) <= DistanceTo(distance, query, rest[j])
    {
      assert rest[j] in multiset(rest);
      if rest[j] != x {
        assert rest[j] in multiset(rs[1..]);
        var m :| 0 <= m < |rs[1..]| && rs[1..][m] == rest[j];
        assert rs[m + 1] == rest[j];
      }
    }
  }

  /** Records in order of increasing distance to `query`; ties keep the stored order. */
  function Rank(rs: seq<Record>, distance: Distance, query: string): (r: seq<Record>)
    ensures SortedByDistance(r, distance, query)
    ensures multiset(r) == multiset(rs)
  {
    if rs == [] then []
    else
      assert rs == [rs[0]] + rs[1..];
      InsertByDistance(rs[0], Rank(rs[1..], distance, query), distance, query)
  }

  function Take<T>(s: seq<T>, k: nat): (r: seq<T>)
  {
    if k < |s| then s[..k] else s
  }

  function Min(a: nat, b: nat): nat
  {
    if a <= b then a else b
  }

  /**
    A similarity query with an exact-match `where` filter (`map[]` matches every record):
    the `k` matching records nearest to `query`, nearest first (see `QueryRanked`).
   */
  function Query(rs: seq<Record>, distance: Distance, query: string, k: nat, where: Metadata): (r: seq<Record>)
    ensures |r| == Min(k, |Keep(rs, where)|)
    ensures forall x :: x in r ==> x in rs && Matches(x.metadata, where)
  {
    var matching := Keep(rs, where);
    var ranked := Rank(matching, distance, query);
    assert |ranked| == |matching| by {
      assert |multiset(ranked)| == |multiset(matching)|;
    }
    TakeBounds(ranked, k);
    var r := Take(ranked, k);
    assert forall x :: x in r ==> x in multiset(matching);
    r
  }

  /**
    A query answers with stored records only, each at most as often as it is stored, ranked
    nearest first, and no matching record it leaves out is nearer than one it returns.
   */
  lemma QueryRanked(rs: seq<Record>, distance: Distance, query: string, k: nat, where: Metadata)
    ensures var r := Query(rs, distance, query, k, where);
            multiset(r) <= multiset(rs) && NearestFirst(r, rs, distance, query, where)
  {
    var matching := Keep(rs, where);
    var ranked := Rank(matching, distance, query);
    TakeBounds(ranked, k);
    TakeNearest(ranked, k, distance, query);
    assert forall x :: x in rs && Matches(x.metadata, where) ==> x in multiset(ranked);
  }

  /**
    `r` is ranked nearest first, and no matching record of `rs` left out of `r` is nearer
    than a record in `r`.
   */
  ghost predicate NearestFirst(r: seq<Record>, rs: seq<Record>, distance: Distance, query: string, where: Metadata)
  {
    && SortedByDistance(r, distance, query)
    && forall x, y :: x in rs && Matches(x.metadata, where) && x !in r && y in r ==>
         DistanceTo(distance, query, y) <= DistanceTo(distance, query, x)
  }

  /** `Take` keeps at most `k` elements, each as often as the list holds it. */
  lemma TakeBounds<T>(s: seq<T>, k: nat)
    ensures |Take(s, k)| == Min(k, |s|)
    ensures multiset(Take(s, k)) <= multiset(s)
  {
    if k < |s| {
      assert s == s[..k] + s[k..];
      assert multiset(s) == multiset(s[..k]) + multiset(s[k..]);
    }
  }

  /** The first `k` of a ranked list are ranked, and at least as near as everything left out. */
  lemma TakeNearest(ranked: seq<Record>, k: nat, distance: Distance, query: string)
    requires SortedByDistance(ranked, distance, query)
    ensures SortedByDistance(Take(ranked, k), distance, query)
    ensures forall x, y :: x in ranked && x !in Take(ranked, k) && y in Take(ranked, k) ==>
              DistanceTo(distance, query, y) <= DistanceTo(distance, query, x)
  {
    if k < |ranked| {
      var r, dropped := ranked[..k], ranked[k..];
      assert ranked == r + dropped;
      forall i, j | 0 <= i < j < |r|
        ensures DistanceTo(distance, query, r[i]) <= DistanceTo(distance, query, r[j])
      {
        assert r[i] == ranked[i] && r[j] == ranked[j];
      }
      forall x, y | x in ranked && x !in r && y in r
        ensures DistanceTo(distance, query, y) <= DistanceTo(distance, query, x)
      {
        assert x in dropped;
        var j :| 0 <= j < |dropped| && dropped[j] == x;
        var i :| 0 <= i < |r| && r[i] == y;
        assert ranked[i] == y && ranked[k + j] == x;
        assert DistanceTo(distance, query, ranked[i]) <= DistanceTo(distance, query, ranked[k + j]);
      }
    }
  }

  /** The one record of a partition matching the filter is the sole answer to any query with `k >= 1`. */
  lemma {:induction false} QuerySoleMatch(rs: seq<Record>, distance: Distance, query: string, k: nat,
                                           where: Metadata, x: Record)
    requires k >= 1
    requires Keep(rs, where) == [x]
    ensures Query(rs, distance, query, k, where) == [x]
  {
    var r := Query(rs, distance, query, k, where);
    assert |r| == 1;
    assert r[0] in rs && Matches(r[0].metadata, where);
    assert multiset(Keep(rs, where))[r[0]] > 0;
  }

  /** The `where` filter that scopes a query to one round. */
  function RoundFilter(roundId: string): (where: Metadata)
  {
    map["round_id" := MStr(roundId)]
  }

  /** A round-scoped query never returns a record of another round. */
  lemma QueryIsRoundScoped(rs: seq<Record>, distance: Distance, query: string, k: nat, round: string, other: string)
    requires other != round
    ensures forall x :: x in Query(rs, distance, query, k, RoundFilter(round)) ==>
              "round_id" in x.metadata && x.metadata["round_id"] != MStr(other)
  {
    var r := Query(rs, distance, query, k, RoundFilter(round));
    forall x | x in r
      ensures "round_id" in x.metadata && x.metadata["round_id"] == MStr(round)
    {
      assert Matches(x.metadata, RoundFilter(round));
      assert "round_id" in RoundFilter(round);
    }
  }

  // ---------------------------------------------------------------- query results

  /**
    The dict a chroma query returns for one query text: one row of ids, documents and metadatas.
    `documents` and `metadatas` are optional, as in the library's result type.
   */
  datatype QueryResult = QueryResult(ids: seq<seq<string>>, documents: Option<seq<seq<string>>>,
                                     metadatas: Option<seq<seq<Metadata>>>)

  function AsQueryResult(hits: seq<Record>): (r: QueryResult)
    ensures IsRowOf(r, hits)
  {
    QueryResult([seq(|hits|, i requires 0 <= i < |hits| => hits[i].id)],
                Some([seq(|hits|, i requires 0 <= i < |hits| => hits[i].document)]),
                Some([seq(|hits|, i requires 0 <= i < |hits| => hits[i].metadata)]))
  }

  /** The single result row, as the three parallel lists a caller iterates over. */
  ghost predicate IsRowOf(r: QueryResult, hits: seq<Record>)
  {
    && |r.ids| == 1 && r.documents.Some? && |r.documents.value| == 1
    && r.metadatas.Some? && |r.metadatas.value| == 1
    && |r.ids[0]| == |r.documents.value[0]| == |r.metadatas.value[0]| == |hits|
    && forall i :: 0 <= i < |hits| ==>
         Record(r.ids[0][i], r.documents.value[0][i], r.metadatas.value[0][i]) == hits[i]
  }

  // ---------------------------------------------------------------- the store

  class MemoryStore {
    var playerMessages: seq<Record>
    var gameEvents: seq<Record>
    var npcMemory: seq<Record>

    /** Ids in the two partitions the helpers write are the counter's, hence unique. */
    ghost predicate Valid()
      reads this
    {
      IdsByPosition(playerMessages, PLAYER_MESSAGE_PREFIX) && IdsByPosition(npcMemory, NPC_MEMORY_PREFIX)
    }

    constructor ()
      ensures Valid()
      ensures playerMessages == [] && gameEvents == [] && npcMemory == []
    {
      playerMessages, gameEvents, npcMemory := [], [], [];
    }

    function Records(p: Partition): seq<Record>
      reads this
    {
      match p
      case PlayerMessages => playerMessages
      case GameEvents => gameEvents
      case NpcMemory => npcMemory
    }

    /** `add_player_message`: store one utterance with flattened metadata under a fresh "msg-" id. */
    method AddPlayerMessage(text: string, playerId: string, playerName: string, roundId: string,
                            location: string, nearbyPlayers: seq<string>, timestamp: int)
      returns (id: string)
      requires Valid()
      modifies this
      ensures Valid()
      ensures PLAYER_MESSAGE_PREFIX <= id
      ensures forall i :: 0 <= i < |old(playerMessages)| ==> old(playerMessages)[i].id != id
      ensures playerMessages == old(playerMessages) +
                [Record(id, text, PlayerMetadata(playerId, playerName, roundId, location, nearbyPlayers, timestamp))]
      ensures gameEvents == old(gameEvents) && npcMemory == old(npcMemory)
    {
      id := MakeId(PLAYER_MESSAGE_PREFIX, |playerMessages|);
      NextIdFresh(playerMessages, PLAYER_MESSAGE_PREFIX);
      var meta := PlayerMetadata(playerId, playerName, roundId, location, nearbyPlayers, timestamp);
      playerMessages := playerMessages + [Record(id, text, meta)];
    }

    /** `add_npc_memory`: store one NPC memory with metadata `{memory_type, round_id}` under a fresh "npc-" id. */
    method AddNpcMemory(text: string, memoryType: string, roundId: string) returns (id: string)
      requires Valid()
      modifies this
      ensures Valid()
      ensures NPC_MEMORY_PREFIX <= id
      ensures forall i :: 0 <= i < |old(npcMemory)| ==> old(npcMemory)[i].id != id
      ensures npcMemory == old(npcMemory) + [Record(id, text, NpcMetadata(memoryType, roundId))]
      ensures playerMessages == old(playerMessages) && gameEvents == old(gameEvents)
    {
      id := MakeId(NPC_MEMORY_PREFIX, |npcMemory|);
      NextIdFresh(npcMemory, NPC_MEMORY_PREFIX);
      npcMemory := npcMemory + [Record(id, text, NpcMetadata(memoryType, roundId))];
    }

    /**
      `query_collection`: a truthy `filters` dict is passed on as the `where` filter, a falsy one
      (`None` or `{}`) means no filter at all.
     */
    function QueryCollection(distance: Distance, p: Partition, query: string, k: nat := 3,
                             filters: Option<Metadata> := None): (r: QueryResult)
      reads this
      ensures exists hits: seq<Record> ::
                && IsRowOf(r, hits)
                && |hits| <= k
                && multiset(hits) <= multiset(Records(p))
                && (forall x :: x in hits ==> IsTruthyFilter(filters) ==> Matches(x.metadata, filters.value))
                && (!IsTruthyFilter(filters) ==> |hits| == Min(k, |Records(p)|))
    {
      var where := if IsTruthyFilter(filters) then filters.value else map[];
      var hits := Query(Records(p), distance, query, k, where);
      QueryRanked(Records(p), distance, query, k, where);
      KeepAll(Records(p));
      var r := AsQueryResult(hits);
      assert IsRowOf(r, hits);
      r
    }
  }

  /** The empty `where` filter keeps every record. */
  lemma {:induction false} KeepAll(rs: seq<Record>)
    ensures Keep(rs, map[]) == rs
  {
    if rs != [] {
      KeepAll(rs[1..]);
      assert rs == [rs[0]] + rs[1..];
    }
  }
}
