/**
  Turning query results into context lines and sanitising them against the map's canonical
  locations: `VALID_LOCATIONS`, `format_results` and `filter_memory` of
  chromadb_backend/chromatesting.py.
 */
module Retrieval {
  import opened Wrappers
  import opened Strings
  import opened Store

  /** The canonical map locations, in the order the prompt lists them. */
  const VALID_LOCATIONS: seq<string> := ["Pavillion", "Church", "Mansion", "Greenhouse", "Sheds"]

  // ---------------------------------------------------------------- the location filter

  /** `any(loc in s for loc in valid_locations)`: some location is a substring of `s` (case-sensitive). */
  predicate MentionsLocation(s: string, validLocations: seq<string>)
  {
    exists k | 0 <= k < |validLocations| :: Contains(s, validLocations[k])
  }

  /** `r` is `s` with some elements left out, the rest in their original order. */
  ghost predicate IsSubsequence<T>(r: seq<T>, s: seq<T>)
    decreases |s|
  {
    if r == [] then true
    else if s == [] then false
    else (r[0] == s[0] && IsSubsequence(r[1..], s[1..])) || IsSubsequence(r, s[1..])
  }

  lemma {:induction false} SubsequenceMultiset<T>(r: seq<T>, s: seq<T>)
    requires IsSubsequence(r, s)
    ensures multiset(r) <= multiset(s)
    decreases |s|
  {
    if r != [] {
      assert s == [s[0]] + s[1..];
      if r[0] == s[0] && IsSubsequence(r[1..], s[1..]) {
        SubsequenceMultiset(r[1..], s[1..]);
        assert r == [r[0]] + r[1..];
      } else {
        SubsequenceMultiset(r, s[1..]);
      }
    }
  }

  /** `filter_memory`: the snippets that mention a valid location, in their original order. */
  function FilterMemory(snippets: seq<string>, validLocations: seq<string>): (r: seq<string>)
    ensures |r| <= |snippets|
    ensures forall i :: 0 <= i < |r| ==> MentionsLocation(r[i], validLocations)
    ensures forall x :: multiset(r)[x] == if MentionsLocation(x, validLocations) then multiset(snippets)[x] else 0
  {
    if snippets == [] then []
    else
      var rest := FilterMemory(snippets[1..], validLocations);
      assert snippets == [snippets[0]] + snippets[1..];
      if MentionsLocation(snippets[0], validLocations) then
        assert ([snippets[0]] + rest)[1..] == rest;
        [snippets[0]] + rest
      else
        rest
  }

  /** The kept snippets appear in their original order. */
  lemma {:induction false} FilterMemoryInOrder(snippets: seq<string>, validLocations: seq<string>)
    ensures IsSubsequence(FilterMemory(snippets, validLocations), snippets)
  {
    if snippets != [] {
      FilterMemoryInOrder(snippets[1..], validLocations);
      var r := FilterMemory(snippets, validLocations);
      var rest := FilterMemory(snippets[1..], validLocations);
      if MentionsLocation(snippets[0], validLocations) {
        assert r[0] == snippets[0] && r[1..] == rest;
      } else {
        assert r == rest;
      }
    }
  }

  /**
    The contract of `FilterMemory` pins its result down: any order-preserving selection from
    `snippets` holding each snippet that mentions a location as often as `snippets` does, and
    nothing else, is `FilterMemory(snippets)`.
   */
  lemma {:induction false} FilterMemoryUnique(r: seq<string>, snippets: seq<string>, validLocations: seq<string>)
    requires IsSubsequence(r, snippets)
    requires forall x :: multiset(r)[x] == if MentionsLocation(x, validLocations) then multiset(snippets)[x] else 0
    ensures r == FilterMemory(snippets, validLocations)
    decreases |snippets|
  {
    if snippets != [] {
      var x, rest := snippets[0], snippets[1..];
      assert snippets == [x] + rest;
      if r != [] && r[0] == x && IsSubsequence(r[1..], rest) {
        assert r == [x] + r[1..];
        assert MentionsLocation(x, validLocations) by {
          assert multiset(r)[x] > 0;
        }
        FilterMemoryUnique(r[1..], rest, validLocations);
      } else {
        assert IsSubsequence(r, rest);
        SubsequenceMultiset(r, rest);
        assert multiset(r)[x] <= multiset(rest)[x] < multiset(snippets)[x];
        assert !MentionsLocation(x, validLocations);
        FilterMemoryUnique(r, rest, validLocations);
      }
    }
  }

  lemma {:induction false} FilterMemoryIdempotent(snippets: seq<string>, validLocations: seq<string>)
    ensures FilterMemory(FilterMemory(snippets, validLocations), validLocations) == FilterMemory(snippets, validLocations)
  {
    if snippets != [] {
      FilterMemoryIdempotent(snippets[1..], validLocations);
    }
  }

  /** A list whose every snippet mentions a location passes the filter unchanged. */
  lemma {:induction false} FilterMemoryKeepsAll(snippets: seq<string>, validLocations: seq<string>)
    requires forall i :: 0 <= i < |snippets| ==> MentionsLocation(snippets[i], validLocations)
    ensures FilterMemory(snippets, validLocations) == snippets
  {
    if snippets != [] {
      FilterMemoryKeepsAll(snippets[1..], validLocations);
    }
  }

  // ---------------------------------------------------------------- formatting

  /** Uninterpreted `datetime.fromtimestamp(int(ts)/1000).strftime("%H:%M:%S")`. */
  type Clock = MetaValue -> string

  /** Python's `str(v)` inside an f-string. */
  function Render(v: MetaValue): string
  {
    match v
    case MStr(s) => s
    case MInt(i) => IntToString(i)
  }

  /** Python truthiness of a metadata value. */
  predicate IsTruthy(v: MetaValue)
  {
    match v
    case MStr(s) => s != ""
    case MInt(i) => i != 0
  }

  /** `meta.get("player_name", meta.get("player_id", "?"))`. */
  function PlayerField(meta: Metadata): string
  {
    if "player_name" in meta then Render(meta["player_name"])
    else if "player_id" in meta then Render(meta["player_id"])
    else "?"
  }

  /** `meta.get(key, default)` rendered as text. */
  function FieldOr(meta: Metadata, key: string, default: string): string
  {
    if key in meta then Render(meta[key]) else default
  }

  /** The timestamp column: the clock's rendering of a truthy `timestamp`, else "unknown". */
  function TimestampField(meta: Metadata, clock: Clock): string
  {
    if "timestamp" in meta && IsTruthy(meta["timestamp"]) then clock(meta["timestamp"]) else "unknown"
  }

  /** One context line, `[ts] player at loc (near nearby): doc`. */
  function FormatLine(doc: string, meta: Metadata, clock: Clock): string
  {
    "[" + TimestampField(meta, clock) + "] " + PlayerField(meta) + " at " + FieldOr(meta, "location", "?")
      + " (near " + FieldOr(meta, "nearby_players", "nobody") + "): " + doc
  }

  /** `results[field][0] if results[field] else []`. */
  function FirstRow<T>(rows: Option<seq<seq<T>>>): seq<T>
  {
    if rows.Some? && |rows.value| > 0 then rows.value[0] else []
  }

  /** The lines for `zip(docs, metas)`: one per pair, as many as the shorter list. */
  function FormatRows(docs: seq<string>, metas: seq<Metadata>, clock: Clock): (lines: seq<string>)
    ensures |lines| == Min(|docs|, |metas|)
    ensures forall i :: 0 <= i < |lines| ==> lines[i] == FormatLine(docs[i], metas[i], clock)
  {
    if docs == [] || metas == [] then []
    else [FormatLine(docs[0], metas[0], clock)] + FormatRows(docs[1..], metas[1..], clock)
  }

  function FormatAll(results: QueryResult, clock: Clock): seq<string>
  {
    FormatRows(FirstRow(results.documents), FirstRow(results.metadatas), clock)
  }

  /** `format_results`: one line per zipped (document, metadata) pair of the first result row. */
  method FormatResults(results: QueryResult, clock: Clock) returns (formatted: seq<string>)
    ensures formatted == FormatAll(results, clock)
  {
    var docs := FirstRow(results.documents);
    var metas := FirstRow(results.metadatas);
    var n := if |docs| <= |metas| then |docs| else |metas|;
    formatted := [];
    var i := 0;
    while i < n
      invariant 0 <= i <= n
      invariant |formatted| == i
      invariant forall j :: 0 <= j < i ==> formatted[j] == FormatLine(docs[j], metas[j], clock)
    {
      var doc, meta := docs[i], metas[i];
      var player := PlayerField(meta);
      var loc := FieldOr(meta, "location", "?");
      var nearby := FieldOr(meta, "nearby_players", "nobody");
      var tsText := TimestampField(meta, clock);
      formatted := formatted + ["[" + tsText + "] " + player + " at " + loc + " (near " + nearby + "): " + doc];
      i := i + 1;
    }
  }

  /** With `documents` or `metadatas` missing or empty there is nothing to format. */
  lemma FormatAllEmptyWhenMissing(results: QueryResult, clock: Clock)
    requires results.documents == None || results.documents == Some([]) ||
             results.metadatas == None || results.metadatas == Some([])
    ensures FormatAll(results, clock) == []
  {
  }

  // ---------------------------------------------------------------- lines of stored records

  /** Every field of an NPC memory record falls back: no timestamp, player, location or nearby players. */
  const NPC_LINE_PREFIX := "[" + "unknown" + "] " + "?" + " at " + "?" + " (near " + "nobody" + "): "

  lemma NpcLineForm(doc: string, memoryType: string, roundId: string, clock: Clock)
    ensures FormatLine(doc, NpcMetadata(memoryType, roundId), clock) == NPC_LINE_PREFIX + doc
  {
  }

  /** A player message formats back to its own fields, the nearby ids comma-joined. */
  lemma PlayerLineForm(text: string, playerId: string, playerName: string, roundId: string, location: string,
                       nearbyPlayers: seq<string>, timestamp: int, clock: Clock)
    ensures FormatLine(text, PlayerMetadata(playerId, playerName, roundId, location, nearbyPlayers, timestamp), clock)
            == "[" + (if timestamp != 0 then clock(MInt(timestamp)) else "unknown") + "] " + playerName
               + " at " + location + " (near " + Join(nearbyPlayers, ",") + "): " + text
  {
  }

  /** An NPC memory line passes the location filter exactly when its text names a location. */
  lemma NpcLineMentionsIff(doc: string, memoryType: string, roundId: string, clock: Clock)
    ensures MentionsLocation(FormatLine(doc, NpcMetadata(memoryType, roundId), clock), VALID_LOCATIONS)
            <==> MentionsLocation(doc, VALID_LOCATIONS)
  {
    NpcLineForm(doc, memoryType, roundId, clock);
    forall k | 0 <= k < |VALID_LOCATIONS|
      ensures Contains(NPC_LINE_PREFIX + doc, VALID_LOCATIONS[k]) <==> Contains(doc, VALID_LOCATIONS[k])
    {
      ContainsAfterPrefix(NPC_LINE_PREFIX, doc, VALID_LOCATIONS[k]);
    }
  }

  /** A player message stored at a canonical location always survives the location filter. */
  lemma PlayerLineAtValidLocation(text: string, playerId: string, playerName: string, roundId: string,
                                  location: string, nearbyPlayers: seq<string>, timestamp: int, clock: Clock)
    requires location in VALID_LOCATIONS
    ensures MentionsLocation(FormatLine(text, PlayerMetadata(playerId, playerName, roundId, location, nearbyPlayers,
                                                             timestamp), clock), VALID_LOCATIONS)
  {
    var meta := PlayerMetadata(playerId, playerName, roundId, location, nearbyPlayers, timestamp);
    var head := "[" + TimestampField(meta, clock) + "] " + PlayerField(meta) + " at ";
    var tail := " (near " + FieldOr(meta, "nearby_players", "nobody") + "): " + text;
    var line := FormatLine(text, meta, clock);
    assert line == head + location + tail;
    assert line[|head|..|head| + |location|] == location;
    ContainsAt(line, location, |head|);
    var k :| 0 <= k < |VALID_LOCATIONS| && VALID_LOCATIONS[k] == location;
  }
}
