/**
  The HTTP endpoint `POST /npc/reply` of fastapi-backend/server.py. It queries the player
  messages and the NPC memory of the request's round, but answers with a fixed placeholder text
  built from the request alone, and saves that text as a "said" NPC memory.

  The endpoint uses the same persistent collections as the reply pipeline, so the store is
  the same `MemoryStore`.
 */
module Server {
  import opened Wrappers
  import opened Strings
  import opened Store
  import opened Retrieval

  /** The request body; the two ids default as in the pydantic model. */
  datatype NPCRequest = NPCRequest(playerText: string, roundId: string := "r1", imitatePlayerId: string := "p1")

  /** A request that gives only the player's text targets round "r1" and imitates player "p1". */
  lemma RequestDefaults(text: string)
    ensures NPCRequest(text).roundId == "r1" && NPCRequest(text).imitatePlayerId == "p1"
    ensures NPCRequest(text) == NPCRequest(text, "r1", "p1")
  {
  }

  const REPLY_HEAD := "NPC imitating "
  const REPLY_REST := " responding to '"
  const REPLY_MIDDLE := ":" + REPLY_REST

  /** The placeholder reply `NPC imitating <id>: responding to '<text>'`. */
  function ReplyText(req: NPCRequest): string
  {
    REPLY_HEAD + req.imitatePlayerId + REPLY_MIDDLE + req.playerText + "'"
  }

  /** The reply as the head, then the id, the colon and the rest. */
  lemma ReplyTextLayout(req: NPCRequest)
    ensures ReplyText(req) == REPLY_HEAD + (req.imitatePlayerId + [':'] + (REPLY_REST + req.playerText + "'"))
  {
    var id, t := req.imitatePlayerId, req.playerText;
    assert REPLY_MIDDLE == [':'] + REPLY_REST;
    calc {
      ReplyText(req);
      REPLY_HEAD + id + ([':'] + REPLY_REST) + t + "'";
      REPLY_HEAD + (id + [':'] + (REPLY_REST + t + "'"));
    }
  }

  /** Common text around two strings can be cancelled. */
  lemma CancelAround(p: string, x: string, y: string, q: string)
    requires p + x + q == p + y + q
    ensures x == y
  {
    assert x == (p + x + q)[|p|..|p| + |x|];
    assert y == (p + y + q)[|p|..|p| + |y|];
  }

  /**
    For imitation ids without a colon the reply text determines the imitated player and the
    player's text: two such requests with the same reply agree on both.
   */
  lemma ReplyTextInjective(r1: NPCRequest, r2: NPCRequest)
    requires ':' !in r1.imitatePlayerId && ':' !in r2.imitatePlayerId
    requires ReplyText(r1) == ReplyText(r2)
    ensures r1.imitatePlayerId == r2.imitatePlayerId && r1.playerText == r2.playerText
  {
    var id1, id2 := r1.imitatePlayerId, r2.imitatePlayerId;
    var tail1, tail2 := REPLY_REST + r1.playerText + "'", REPLY_REST + r2.playerText + "'";
    ReplyTextLayout(r1);
    ReplyTextLayout(r2);
    CancelAround(REPLY_HEAD, id1 + [':'] + tail1, id2 + [':'] + tail2, "");
    SplitAtSeparator(id1, tail1, id2, tail2, ':');
    CancelAround(REPLY_REST, r1.playerText, r2.playerText, "'");
  }

  /** The reply quotes the player's text. */
  lemma ReplyQuotesPlayer(req: NPCRequest)
    ensures Contains(ReplyText(req), req.playerText)
  {
    assert req.playerText[0..|req.playerText|] == req.playerText;
    ContainsAt(req.playerText, req.playerText, 0);
    ContainsInMiddle(REPLY_HEAD + req.imitatePlayerId + REPLY_MIDDLE, req.playerText, "'", req.playerText);
  }

  /** `d` is the document of a record of `rs` stored for round `roundId`. */
  ghost predicate DocumentOfRound(d: string, rs: seq<Record>, roundId: string)
  {
    exists x :: x in rs && Matches(x.metadata, RoundFilter(roundId)) && x.document == d
  }

  /** A round-scoped query of at most `k` records answers with documents of that round. */
  lemma RoundRow(store: MemoryStore, p: Partition, distance: Distance, query: string, k: nat, roundId: string)
    ensures var docs := FirstRow(store.QueryCollection(distance, p, query, k, Some(RoundFilter(roundId))).documents);
            |docs| <= k && forall d :: d in docs ==> DocumentOfRound(d, store.Records(p), roundId)
  {
    assert IsTruthyFilter(Some(RoundFilter(roundId))) by {
      assert "round_id" in RoundFilter(roundId);
    }
    var r := store.QueryCollection(distance, p, query, k, Some(RoundFilter(roundId)));
    var hits := Query(store.Records(p), distance, query, k, RoundFilter(roundId));
    assert r == AsQueryResult(hits);
    var docs := FirstRow(r.documents);
    forall d | d in docs
      ensures DocumentOfRound(d, store.Records(p), roundId)
    {
      var i :| 0 <= i < |docs| && docs[i] == d;
      assert hits[i].document == d && hits[i] in hits;
    }
  }

  /**
    `npc_reply`: the three nearest player messages and the nearest NPC memory of the round are
    retrieved (and then not used); the placeholder reply is appended to the NPC memory with
    metadata `{memory_type: "said", round_id}` under a fresh "npc-" id and returned.
   */
  method NpcReply(store: MemoryStore, distance: Distance, req: NPCRequest)
    returns (text: string, ghost context: seq<string>, ghost lastContext: seq<string>)
    requires store.Valid()
    modifies store
    ensures store.Valid()
    ensures text == ReplyText(req)
    ensures |context| <= 3 && forall d :: d in context ==> DocumentOfRound(d, old(store.Records(PlayerMessages)), req.roundId)
    ensures |lastContext| <= 1 && forall d :: d in lastContext ==> DocumentOfRound(d, old(store.Records(NpcMemory)), req.roundId)
    ensures store.npcMemory == old(store.npcMemory) +
              [Record(MakeId(NPC_MEMORY_PREFIX, |old(store.npcMemory)|), text, NpcMetadata("said", req.roundId))]
    ensures store.playerMessages == old(store.playerMessages) && store.gameEvents == old(store.gameEvents)
  {
    var result := store.QueryCollection(distance, PlayerMessages, req.playerText, 3, Some(RoundFilter(req.roundId)));
    context := FirstRow(result.documents);
    RoundRow(store, PlayerMessages, distance, req.playerText, 3, req.roundId);
    var lastNpc := store.QueryCollection(distance, NpcMemory, req.playerText, 1, Some(RoundFilter(req.roundId)));
    lastContext := FirstRow(lastNpc.documents);
    RoundRow(store, NpcMemory, distance, req.playerText, 1, req.roundId);
    text := ReplyText(req);
    var _ := store.AddNpcMemory(text, "said", req.roundId);
  }
}
