/**
  The reply pipeline `generate_npc_reply` of chromadb_backend/chromatesting.py: two
  round-scoped memory queries, formatting and location filtering, an optional style profile,
  prompt assembly, one model call for the reply, and persisting the stripped reply as a
  "said" NPC memory.
 */
module Orchestrator {
  import opened Wrappers
  import opened Strings
  import opened Store
  import opened Retrieval
  import opened Stylometric

  /** How many player messages and NPC memories a reply retrieves. */
  const PLAYER_CONTEXT_SIZE: nat := 3
  const NPC_CONTEXT_SIZE: nat := 2

  const PERSONA :=
    "\nYou are Alien-01, a shape-shifting NPC pretending to be a human player in a Chernobyl-inspired game world.\n"
    + "Talk exactly like a player in game chat: short messages, casual words, maybe some slang.\n"
    + "\n"
    + "Imitate this player: "

  /** The rules block, around the comma-separated list of canonical locations. */
  const RULES_HEAD :=
    "\n\nRules:\n"
    + "- Only talk about the game.\n"
    + "- Never break character.\n"
    + "- Use only these map locations: "

  const LOCATION_LIST := Join(VALID_LOCATIONS, ", ")

  const RULES_TAIL :=
    ".\n"
    + "- Stay consistent with past claims.\n"
    + "- Reply in 1-2 sentences.\n"
    + "- Do NOT narrate actions or describe emotions.\n"
    + "\n"
    + "Context (memory snippets):\n"

  const RULES := RULES_HEAD + LOCATION_LIST + RULES_TAIL

  const QUESTION := "\n\nPlayer asked: \""

  /** The generation request: persona, style, rules with the locations, context lines, the question. */
  function BuildPrompt(styleText: string, context: seq<string>, playerText: string): string
  {
    PERSONA + styleText + RULES + Join(context, "\n") + QUESTION + playerText + "\"\n"
  }

  // ---------------------------------------------------------------- retrieval as a function of the store

  /** `line` is the formatted line of a record of `rs` stored for round `roundId`. */
  ghost predicate IsLineOfRound(line: string, rs: seq<Record>, roundId: string, clock: Clock)
  {
    exists x :: x in rs && Matches(x.metadata, RoundFilter(roundId)) && line == FormatLine(x.document, x.metadata, clock)
  }

  lemma LineOfHit(x: Record, rs: seq<Record>, roundId: string, clock: Clock)
    requires x in rs && Matches(x.metadata, RoundFilter(roundId))
    ensures IsLineOfRound(FormatLine(x.document, x.metadata, clock), rs, roundId, clock)
  {
  }

  /** Every line formatted from round-scoped hits is the line of a record of that round. */
  lemma FormattedHitsOfRound(hits: seq<Record>, rs: seq<Record>, roundId: string, clock: Clock)
    requires forall x :: x in hits ==> x in rs && Matches(x.metadata, RoundFilter(roundId))
    ensures var f := FormatAll(AsQueryResult(hits), clock);
            |f| == |hits| && forall j :: 0 <= j < |f| ==> IsLineOfRound(f[j], rs, roundId, clock)
  {
    var r := AsQueryResult(hits);
    var f := FormatAll(r, clock);
    assert FirstRow(r.documents) == r.documents.value[0];
    assert FirstRow(r.metadatas) == r.metadatas.value[0];
    forall j | 0 <= j < |f|
      ensures IsLineOfRound(f[j], rs, roundId, clock)
    {
      assert f[j] == FormatLine(hits[j].document, hits[j].metadata, clock);
      LineOfHit(hits[j], rs, roundId, clock);
    }
  }

  /** The filtered lines of the `k` records of `rs` nearest to `playerText` in round `roundId`. */
  function RetrievedLines(rs: seq<Record>, distance: Distance, clock: Clock, playerText: string, roundId: string,
                          k: nat): seq<string>
  {
    FilterMemory(FormatAll(AsQueryResult(Query(rs, distance, playerText, k, RoundFilter(roundId))), clock),
                 VALID_LOCATIONS)
  }

  /** At most `k` lines, each naming a canonical location and formatted from a record of the round. */
  lemma RetrievedLinesSound(rs: seq<Record>, distance: Distance, clock: Clock, playerText: string, roundId: string,
                            k: nat)
    ensures var lines := RetrievedLines(rs, distance, clock, playerText, roundId, k);
            && |lines| <= k
            && (forall i :: 0 <= i < |lines| ==> MentionsLocation(lines[i], VALID_LOCATIONS))
            && (forall i :: 0 <= i < |lines| ==> IsLineOfRound(lines[i], rs, roundId, clock))
  {
    var hits := Query(rs, distance, playerText, k, RoundFilter(roundId));
    var formatted := FormatAll(AsQueryResult(hits), clock);
    FormattedHitsOfRound(hits, rs, roundId, clock);
    FilteredLinesOfRound(formatted, rs, roundId, clock);
  }

  lemma FilteredLinesOfRound(formatted: seq<string>, rs: seq<Record>, roundId: string, clock: Clock)
    requires forall j :: 0 <= j < |formatted| ==> IsLineOfRound(formatted[j], rs, roundId, clock)
    ensures var lines := FilterMemory(formatted, VALID_LOCATIONS);
            forall i :: 0 <= i < |lines| ==> IsLineOfRound(lines[i], rs, roundId, clock)
  {
    var lines := FilterMemory(formatted, VALID_LOCATIONS);
    forall i | 0 <= i < |lines|
      ensures IsLineOfRound(lines[i], rs, roundId, clock)
    {
      assert lines[i] in multiset(lines);
      assert lines[i] in multiset(formatted);
      var j :| 0 <= j < |formatted| && formatted[j] == lines[i];
    }
  }

  /** The context block of a reply: the player lines first, then the NPC lines, each in rank order. */
  function ContextFor(players: seq<Record>, npcs: seq<Record>, distance: Distance, clock: Clock,
                      playerText: string, roundId: string): seq<string>
  {
    RetrievedLines(players, distance, clock, playerText, roundId, PLAYER_CONTEXT_SIZE)
      + RetrievedLines(npcs, distance, clock, playerText, roundId, NPC_CONTEXT_SIZE)
  }

  /** At most five context lines, each naming a location and coming from a record of the round. */
  lemma ContextSound(players: seq<Record>, npcs: seq<Record>, distance: Distance, clock: Clock,
                     playerText: string, roundId: string)
    ensures var context := ContextFor(players, npcs, distance, clock, playerText, roundId);
            && |context| <= PLAYER_CONTEXT_SIZE + NPC_CONTEXT_SIZE
            && (forall i :: 0 <= i < |context| ==> MentionsLocation(context[i], VALID_LOCATIONS))
            && (forall i :: 0 <= i < |context| ==>
                  IsLineOfRound(context[i], players, roundId, clock) || IsLineOfRound(context[i], npcs, roundId, clock))
  {
    RetrievedLinesSound(players, distance, clock, playerText, roundId, PLAYER_CONTEXT_SIZE);
    RetrievedLinesSound(npcs, distance, clock, playerText, roundId, NPC_CONTEXT_SIZE);
    ContextLines(RetrievedLines(players, distance, clock, playerText, roundId, PLAYER_CONTEXT_SIZE),
                 RetrievedLines(npcs, distance, clock, playerText, roundId, NPC_CONTEXT_SIZE),
                 players, npcs, roundId, clock);
  }

  /** The player lines followed by the NPC lines keep what each part promises. */
  lemma ContextLines(p: seq<string>, n: seq<string>, players: seq<Record>, npcs: seq<Record>, roundId: string,
                     clock: Clock)
    requires forall i :: 0 <= i < |p| ==> MentionsLocation(p[i], VALID_LOCATIONS)
    requires forall i :: 0 <= i < |p| ==> IsLineOfRound(p[i], players, roundId, clock)
    requires forall i :: 0 <= i < |n| ==> MentionsLocation(n[i], VALID_LOCATIONS)
    requires forall i :: 0 <= i < |n| ==> IsLineOfRound(n[i], npcs, roundId, clock)
    ensures forall i :: 0 <= i < |p + n| ==> MentionsLocation((p + n)[i], VALID_LOCATIONS)
    ensures forall i :: 0 <= i < |p + n| ==>
              IsLineOfRound((p + n)[i], players, roundId, clock) || IsLineOfRound((p + n)[i], npcs, roundId, clock)
  {
    forall i | 0 <= i < |p + n|
      ensures MentionsLocation((p + n)[i], VALID_LOCATIONS)
      ensures IsLineOfRound((p + n)[i], players, roundId, clock) || IsLineOfRound((p + n)[i], npcs, roundId, clock)
    {
      if i < |p| {
        assert (p + n)[i] == p[i];
      } else {
        assert (p + n)[i] == n[i - |p|];
      }
    }
  }

  /**
    The style step: a summary only when both an imitation target and a message list are
    given and truthy, otherwise the empty string and no model call.
   */
  function StyleText(generate: Generator, imitatePlayerId: Option<string>, recentMsgs: Option<seq<string>>): (g: Generated)
    ensures !(IsTruthyText(imitatePlayerId) && IsTruthyList(recentMsgs)) ==> g.text == "" && g.calls == []
    ensures IsTruthyText(imitatePlayerId) && IsTruthyList(recentMsgs) ==>
              g.calls == [StylePrompt(recentMsgs.value)] && g.text == Strip(generate(g.calls[0]))
  {
    if IsTruthyText(imitatePlayerId) && IsTruthyList(recentMsgs) then
      SummarizePlayerStyle(generate, imitatePlayerId.value, recentMsgs.value)
    else Generated("", [])
  }

  /**
    One partition's share of steps 1 and 2 of `generate_npc_reply`: query the `k` nearest
    records of round `roundId`, format them and keep the lines that name a canonical location.
   */
  method RetrieveLines(store: MemoryStore, p: Partition, distance: Distance, clock: Clock, playerText: string,
                       roundId: string, k: nat)
    returns (lines: seq<string>)
    ensures lines == RetrievedLines(store.Records(p), distance, clock, playerText, roundId, k)
  {
    assert IsTruthyFilter(Some(RoundFilter(roundId))) by {
      assert "round_id" in RoundFilter(roundId);
    }
    var result := store.QueryCollection(distance, p, playerText, k, Some(RoundFilter(roundId)));
    var formatted := FormatResults(result, clock);
    lines := FilterMemory(formatted, VALID_LOCATIONS);
  }

  /**
    Steps 1 to 3 of `generate_npc_reply`: the retrieved player lines followed by the retrieved
    NPC lines.
   */
  method RetrieveContext(store: MemoryStore, distance: Distance, clock: Clock, playerText: string, roundId: string)
    returns (context: seq<string>)
    ensures context == ContextFor(store.Records(PlayerMessages), store.Records(NpcMemory), distance, clock, playerText,
                                  roundId)
  {
    var pastMsgs := RetrieveLines(store, PlayerMessages, distance, clock, playerText, roundId, PLAYER_CONTEXT_SIZE);
    var pastNpc := RetrieveLines(store, NpcMemory, distance, clock, playerText, roundId, NPC_CONTEXT_SIZE);
    context := pastMsgs + pastNpc;
  }

  /**
    Steps 4 to 7 of `generate_npc_reply` for a given context block: the optional style call,
    the reply call on the assembled prompt, and the stripped reply saved as a "said" memory.
   */
  method Respond(store: MemoryStore, generate: Generator, context: seq<string>, playerText: string, roundId: string,
                 imitatePlayerId: Option<string>, recentMsgs: Option<seq<string>>)
    returns (reply: string, calls: seq<string>)
    requires store.Valid()
    modifies store
    ensures store.Valid()
    ensures var style := StyleText(generate, imitatePlayerId, recentMsgs);
            calls == style.calls + [BuildPrompt(style.text, context, playerText)]
    ensures reply == Strip(generate(calls[|calls| - 1]))
    ensures store.npcMemory == old(store.npcMemory) +
              [Record(MakeId(NPC_MEMORY_PREFIX, |old(store.npcMemory)|), reply, NpcMetadata("said", roundId))]
    ensures store.playerMessages == old(store.playerMessages) && store.gameEvents == old(store.gameEvents)
  {
    // 4. style summary if imitation requested: the statement form of `StyleText`, as in the source
    var styleText := "";
    calls := [];
    if IsTruthyText(imitatePlayerId) && IsTruthyList(recentMsgs) {
      var summary := SummarizePlayerStyle(generate, imitatePlayerId.value, recentMsgs.value);
      styleText, calls := summary.text, summary.calls;
    }
    // 5. build prompt, 6. call the model
    var prompt := BuildPrompt(styleText, context, playerText);
    var response := generate(prompt);
    calls := calls + [prompt];
    reply := Strip(response);
    // 7. save the reply into memory
    var _ := store.AddNpcMemory(reply, "said", roundId);
  }

  /**
    `generate_npc_reply`: the model is called once more than the style step calls it, on the
    prompt built from the context retrieved from the store as it was before the call, and its
    stripped answer is the reply, which is appended to the NPC memory and nowhere else.
   */
  method GenerateNpcReply(store: MemoryStore, generate: Generator, distance: Distance, clock: Clock,
                          playerText: string, roundId: string := "r1",
                          imitatePlayerId: Option<string> := None, recentMsgs: Option<seq<string>> := None)
    returns (reply: string, calls: seq<string>)
    requires store.Valid()
    modifies store
    ensures store.Valid()
    ensures var style := StyleText(generate, imitatePlayerId, recentMsgs);
            var context := ContextFor(old(store.Records(PlayerMessages)), old(store.Records(NpcMemory)), distance, clock,
                                      playerText, roundId);
            calls == style.calls + [BuildPrompt(style.text, context, playerText)]
    ensures reply == Strip(generate(calls[|calls| - 1]))
    ensures store.npcMemory == old(store.npcMemory) +
              [Record(MakeId(NPC_MEMORY_PREFIX, |old(store.npcMemory)|), reply, NpcMetadata("said", roundId))]
    ensures store.playerMessages == old(store.playerMessages) && store.gameEvents == old(store.gameEvents)
  {
    // 1.-3. query memory, format and filter the lines, build the context
    var context := RetrieveContext(store, distance, clock, playerText, roundId);
    // 4.-7. style, prompt, model call, persist
    reply, calls := Respond(store, generate, context, playerText, roundId, imitatePlayerId, recentMsgs);
  }

  // ---------------------------------------------------------------- what a reply's prompt contains

  /** Where the pieces of a seven-part concatenation sit. */
  lemma Layout(a: string, b: string, c: string, d: string, e: string, f: string, g: string)
    ensures var p := a + b + c + d + e + f + g;
            && p[..|a|] == a && p[|a|..|a| + |b|] == b
            && p[|p| - |e + f + g|..] == e + f + g
            && p == (a + b + c) + d + (e + f + g)
  {
  }

  /** The persona instructions come first, then the style text, before anything retrieved. */
  lemma PromptStartsWithPersona(styleText: string, context: seq<string>, playerText: string)
    ensures var p := BuildPrompt(styleText, context, playerText);
            |PERSONA| + |styleText| <= |p| && p[..|PERSONA|] == PERSONA
            && p[|PERSONA|..|PERSONA| + |styleText|] == styleText
  {
    Layout(PERSONA, styleText, RULES, Join(context, "\n"), QUESTION, playerText, "\"\n");
  }

  /** The player's question closes the prompt. */
  lemma PromptEndsWithQuestion(styleText: string, context: seq<string>, playerText: string)
    ensures var p := BuildPrompt(styleText, context, playerText);
            var q := QUESTION + playerText + "\"\n";
            |q| <= |p| && p[|p| - |q|..] == q
  {
    Layout(PERSONA, styleText, RULES, Join(context, "\n"), QUESTION, playerText, "\"\n");
  }

  /** Regrouping a concatenation whose third piece is itself three pieces. */
  lemma Regroup(a: string, b: string, c: string, d: string, e: string, f: string, g: string, h: string, i: string)
    ensures a + b + (c + d + e) + f + g + h + i == (a + b + c) + d + (e + f + g + h + i)
  {
  }

  /** Every canonical location is named in the prompt, whatever the context. */
  lemma PromptNamesEveryLocation(styleText: string, context: seq<string>, playerText: string)
    ensures forall k :: 0 <= k < |VALID_LOCATIONS| ==>
              Contains(BuildPrompt(styleText, context, playerText), VALID_LOCATIONS[k])
  {
    var block := Join(context, "\n");
    var before := PERSONA + styleText + RULES_HEAD;
    var after := RULES_TAIL + block + QUESTION + playerText + "\"\n";
    Regroup(PERSONA, styleText, RULES_HEAD, LOCATION_LIST, RULES_TAIL, block, QUESTION, playerText, "\"\n");
    assert BuildPrompt(styleText, context, playerText) == before + LOCATION_LIST + after;
    forall k | 0 <= k < |VALID_LOCATIONS|
      ensures Contains(BuildPrompt(styleText, context, playerText), VALID_LOCATIONS[k])
    {
      JoinContainsItem(VALID_LOCATIONS, ", ", k);
      ContainsInMiddle(before, LOCATION_LIST, after, VALID_LOCATIONS[k]);
    }
  }

  /** Every context line reaches the prompt. */
  lemma PromptContainsContext(styleText: string, context: seq<string>, playerText: string)
    ensures forall i :: 0 <= i < |context| ==> Contains(BuildPrompt(styleText, context, playerText), context[i])
  {
    var block := Join(context, "\n");
    Layout(PERSONA, styleText, RULES, block, QUESTION, playerText, "\"\n");
    forall i | 0 <= i < |context|
      ensures Contains(BuildPrompt(styleText, context, playerText), context[i])
    {
      JoinContainsItem(context, "\n", i);
      ContainsInMiddle(PERSONA + styleText + RULES, block, QUESTION + playerText + "\"\n", context[i]);
    }
  }

  /**
    The style step calls the model at most once, only on the profiler's analysis prompt for a
    non-empty message list (so never through the profiler's empty-list default), and not at all
    exactly when imitation is not requested, in which case the style text is empty.
   */
  lemma StyleTextOnlyWhenRequested(generate: Generator, imitatePlayerId: Option<string>,
                                   recentMsgs: Option<seq<string>>)
    ensures var g := StyleText(generate, imitatePlayerId, recentMsgs);
            && |g.calls| <= 1
            && (g.calls == [] <==> g.text == "" && !(IsTruthyText(imitatePlayerId) && IsTruthyList(recentMsgs)))
            && (g.calls != [] ==> recentMsgs.Some? && recentMsgs.value != [] && g.calls == [StylePrompt(recentMsgs.value)])
  {
  }
}
