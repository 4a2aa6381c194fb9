# NPC reply pipeline with retrieved memory

This project models the Python backend of a social-deduction game. In that game an alien NPC
pretends to be a human player. Each chat message a player sends is stored in a vector
database, chromadb_backend/chromatesting.py:

- `add_player_message` stores it with metadata: player id and name, round, location, nearby
  players and a timestamp.
- `add_npc_memory` stores everything the NPC says.

To answer a message, `generate_npc_reply` works in order:

1. It retrieves the three nearest player messages and the two nearest NPC memories of the
   same round (`query_collection`).
2. It renders them as chat lines (`format_results`).
3. It keeps only the lines that name one of the five map locations (`filter_memory`).
4. It optionally asks the language model for a summary of the imitated player's style
   (`summarize_player_style` in chromadb_backend/stylometric.py).
5. It assembles the prompt, asks the model for the reply, strips it, and saves it as a
   "said" memory of that round.

The HTTP endpoint `npc_reply` in fastapi-backend/server.py runs two round-scoped queries whose
results it does not use. It answers with a fixed placeholder text and saves that text as a
"said" memory.

The vector database becomes a `MemoryStore` class. It has one append-only `seq<Record>` per
collection, and the add helpers are methods that append to it. The stand-ins are:

- **Ranking:** an uninterpreted `Distance` oracle. A query keeps the records that match the
  `where` filter, sorts them stably by distance and takes the first `k`.
- **`uuid4`:** a counter. The record at position `i` of a partition has the id
  `prefix + str(i)`, so ids are unique.
- **The language model:** an uninterpreted `Generator`. Results report the prompts the
  model was called on, in call order.
- **Timestamp rendering:** an uninterpreted `Clock`.

Python behaviour is modelled exactly:

- `str.strip` strips the characters for which `str.isspace` holds.
- `in` on strings is substring search.
- `",".join` and `"\n".join` are `Join`.
- Truthiness of `None`, `""`, `[]` and `{}` is written out.

Modules follow the source:

| module | file | models |
|---|---|---|
| `Wrappers` | wrappers.dfy | `Option`, Python truthiness of optional text and lists |
| `Strings` | strings.dfy | substring, join, split, strip, `str(n)` |
| `Store` | store.dfy | records, ids, metadata, the `where` filter, ranking, `MemoryStore` |
| `Retrieval` | retrieval.dfy | `VALID_LOCATIONS`, `filter_memory`, `format_results` |
| `Stylometric` | stylometric.dfy | `summarize_player_style` |
| `Orchestrator` | orchestrator.dfy | `generate_npc_reply` and what its prompt contains |
| `Server` | server.dfy | `NPCRequest`, `npc_reply` |

Three behaviours of the code are worth noting:

- Creating a collection never fails with a schema conflict. An existing collection is
  reopened whatever embedding function is passed.
- The `where` filter matches metadata only, not ids. `Store.QuerySoleMatch` states what a
  query answers when exactly one record matches the filter.
- An empty `where` dict counts as no filter, like `None`.

## Model

| member | source | states |
|---|---|---|
| Store.MakeIdInjective | chromadb_backend/chromatesting.py:50 | two counter ids with the same prefix are equal only for the same position |
| Store.IdsUnique | chromadb_backend/chromatesting.py:50 | records whose ids follow the counter carry pairwise distinct ids |
| Store.NextIdFresh | chromadb_backend/chromatesting.py:69 | the next id handed out differs from every id already stored in the partition |
| Store.NearbyPlayersRecoverable | chromadb_backend/chromatesting.py:59 | the comma-joined `nearby_players` field splits back into the original list when it is non-empty and no id holds a comma |
| Store.Keep | chromadb_backend/chromatesting.py:79 | the `where` step keeps exactly the matching records: each result matches, and every matching record keeps its multiplicity while a non-matching one has none |
| Store.InsertByDistance | chromadb_backend/chromatesting.py:79 | inserting into a distance-sorted list keeps it sorted and adds exactly that record (multiset) |
| Store.Rank | chromadb_backend/chromatesting.py:79 | the ranking is a permutation of the candidates, sorted nearest first |
| Store.Query | chromadb_backend/chromatesting.py:79 | `n_results=k` with a `where` filter returns min(k, number of matches) records, each stored and matching |
| Store.QueryRanked | chromadb_backend/chromatesting.py:79 | the answer draws on the store without duplicating records, is nearest first, and no matching record left out is nearer than one returned |
| Store.TakeNearest | chromadb_backend/chromatesting.py:79 | the first k of a ranked list are sorted and no later record is nearer than any of them |
| Store.QuerySoleMatch | chromadb_backend/chromatesting.py:79 | a record that is the only match of the filter is the whole answer for any k >= 1 |
| Store.QueryIsRoundScoped | chromadb_backend/chromatesting.py:137-138 | a query with the `{"round_id": r}` filter never returns a record of another round |
| Store.AsQueryResult | chromadb_backend/chromatesting.py:79 | the result dict has one row whose ids, documents and metadatas are parallel lists of the hits, in order |
| Store.KeepAll | chromadb_backend/chromatesting.py:81 | without a filter every record is a candidate |
| Store.PlayerMetadata | chromadb_backend/chromatesting.py:53-61 | the metadata of a player message: `player_id`, `player_name`, `round_id` and `location` copied as strings, `nearby_players` comma-joined, `timestamp` as an integer |
| Store.NpcMetadata | chromadb_backend/chromatesting.py:72 | the metadata of an NPC memory: exactly `memory_type` and `round_id`, as strings |
| Store.MemoryStore.constructor | chromadb_backend/chromatesting.py:36-38 | the three collections start empty and the id invariant holds |
| Store.MemoryStore.AddPlayerMessage | chromadb_backend/chromatesting.py:41-64 | appends exactly one record to `player_messages`: the returned id, which starts with "msg-" and is fresh, the text, and the six flattened metadata fields with `nearby_players` comma-joined; other collections unchanged; id invariant kept |
| Store.MemoryStore.AddNpcMemory | chromadb_backend/chromatesting.py:68-75 | appends exactly one record to `npc_memory`: the returned fresh "npc-" id, the text, metadata exactly `{memory_type, round_id}`; other collections unchanged |
| Store.MemoryStore.QueryCollection | chromadb_backend/chromatesting.py:77-81 | the answer is one row of at most k stored records; with a truthy filter each matches it, with a falsy one (`None`, `{}`) there is no filter and the row has min(k, size) records |
| Retrieval.MentionsLocation | chromadb_backend/chromatesting.py:105-109 | `any(loc in s for loc in valid_locations)` as case-sensitive substring search; `VALID_LOCATIONS` is the constant list "Pavillion", "Church", "Mansion", "Greenhouse", "Sheds", in that order |
| Retrieval.FilterMemory | chromadb_backend/chromatesting.py:107-109 | no longer than the input; every kept snippet names a valid location as a substring; each snippet that does is kept as often as it occurs, the others never |
| Retrieval.FilterMemoryInOrder | chromadb_backend/chromatesting.py:109 | the kept snippets are a subsequence of the input, in original order |
| Retrieval.FilterMemoryUnique | chromadb_backend/chromatesting.py:107-109 | any order-preserving selection with those multiplicities is the filter's result, so the contract determines it |
| Retrieval.FilterMemoryIdempotent | chromadb_backend/chromatesting.py:107-109 | filtering twice equals filtering once |
| Retrieval.FilterMemoryKeepsAll | chromadb_backend/chromatesting.py:107-109 | a list whose snippets all name a location passes unchanged |
| Retrieval.PlayerField | chromadb_backend/chromatesting.py:89 | `player_name` if present, else `player_id`, else "?" |
| Retrieval.FieldOr | chromadb_backend/chromatesting.py:90-91 | a metadata field rendered as text, or the given fallback ("?" for `location`, "nobody" for `nearby_players`) when the key is missing |
| Retrieval.TimestampField | chromadb_backend/chromatesting.py:93-97 | the clock's rendering of a present and truthy `timestamp` (non-zero integer, non-empty string), otherwise "unknown" |
| Retrieval.FormatLine | chromadb_backend/chromatesting.py:98 | the line `[ts] player at loc (near nearby): doc` from those fields and the document |
| Retrieval.FormatRows | chromadb_backend/chromatesting.py:88-98 | one line per zipped (document, metadata) pair, as many as the shorter list, the i-th line formatted from the i-th pair |
| Retrieval.FormatResults | chromadb_backend/chromatesting.py:83-99 | the loop builds exactly the lines of the first row's zipped documents and metadatas |
| Retrieval.FormatAllEmptyWhenMissing | chromadb_backend/chromatesting.py:84-85 | with `documents` or `metadatas` missing or empty there are no lines |
| Retrieval.NpcLineForm | chromadb_backend/chromatesting.py:89-98 | an NPC memory renders with every fallback: `[unknown] ? at ? (near nobody): doc` |
| Retrieval.PlayerLineForm | chromadb_backend/chromatesting.py:89-98 | a player message renders as `[ts] name at location (near a,b): text`, with "unknown" for a zero timestamp |
| Retrieval.NpcLineMentionsIff | chromadb_backend/chromatesting.py:107-109 | an NPC memory line passes the location filter if and only if its text names a location |
| Retrieval.PlayerLineAtValidLocation | chromadb_backend/chromatesting.py:105-109 | a player message stored at one of the five locations always passes the filter |
| Stylometric.StylePrompt | chromadb_backend/stylometric.py:16-28 | the analysis prompt: the fixed header lines, "Messages:", the messages newline-joined, then "Player style summary:", as in the f-string |
| Stylometric.SummarizePlayerStyle | chromadb_backend/stylometric.py:7-33 | no messages: the neutral default and no model call; otherwise exactly one call on the analysis prompt, its output stripped, with no whitespace at either end |
| Stylometric.StylePromptEmbedsMessages | chromadb_backend/stylometric.py:16-28 | the prompt is the fixed header, the messages newline-joined, the fixed tail; the middle splits back into the messages if none holds a newline |
| Stylometric.StyleIndependentOfPlayer | chromadb_backend/stylometric.py:7-28 | the player id has no influence on the result |
| Stylometric.EmptyHistoryIgnoresGenerator | chromadb_backend/stylometric.py:12-13 | with no messages the result is the same for every model |
| Orchestrator.BuildPrompt | chromadb_backend/chromatesting.py:153-171 | the reply prompt: the persona lines and the style text, the rules with the comma-joined locations, the newline-joined context, and the quoted question, as in the f-string |
| Orchestrator.RetrievedLinesSound | chromadb_backend/chromatesting.py:137-142 | one partition's retrieved lines number at most k, each names a location and is the formatted line of a record of the request's round |
| Orchestrator.ContextSound | chromadb_backend/chromatesting.py:137-145 | the context has at most 3 + 2 lines, each names a location and comes from a player message or NPC memory of the round |
| Orchestrator.StyleText | chromadb_backend/chromatesting.py:148-150 | the style call happens only when `imitate_player_id` and `recent_msgs` are both truthy; otherwise the style text is "" and no call is made |
| Orchestrator.RetrieveLines | chromadb_backend/chromatesting.py:137-142 | the query, format and filter statements for one partition compute the retrieved lines of that partition |
| Orchestrator.RetrieveContext | chromadb_backend/chromatesting.py:137-145 | the context is the player lines followed by the NPC lines of the store as it is |
| Orchestrator.Respond | chromadb_backend/chromatesting.py:147-180 | the model calls are the style calls then one call on the assembled prompt; the reply is its stripped output, appended once as a "said" memory of the round; nothing else changes |
| Orchestrator.GenerateNpcReply | chromadb_backend/chromatesting.py:130-180 | as `Respond`, with the prompt's context retrieved from the store before the reply is saved, so the new memory is not part of its own context |
| Orchestrator.PromptStartsWithPersona | chromadb_backend/chromatesting.py:153-157 | the prompt opens with the persona, directly followed by the style text |
| Orchestrator.PromptEndsWithQuestion | chromadb_backend/chromatesting.py:167-171 | the prompt ends with the question quoting the player's text |
| Orchestrator.PromptNamesEveryLocation | chromadb_backend/chromatesting.py:162 | every valid location occurs in the prompt |
| Orchestrator.PromptContainsContext | chromadb_backend/chromatesting.py:167-168 | every context line occurs in the prompt |
| Orchestrator.StyleTextOnlyWhenRequested | chromadb_backend/chromatesting.py:148-150 | the style step calls the model at most once, only on the analysis prompt of a non-empty message list, and not at all exactly when imitation is not requested, in which case the style text is "" |
| Server.RequestDefaults | fastapi-backend/server.py:18-21 | a request with only the player's text has round "r1" and imitates "p1" |
| Server.ReplyText | fastapi-backend/server.py:44 | the placeholder `NPC imitating <imitate_player_id>: responding to '<player_text>'` |
| Server.ReplyTextInjective | fastapi-backend/server.py:44 | for ids without a colon, the reply text determines the imitated id and the player's text |
| Server.ReplyQuotesPlayer | fastapi-backend/server.py:44 | the reply contains the player's text |
| Server.RoundRow | fastapi-backend/server.py:28-41 | a round-scoped query with `n_results` k answers with at most k documents, each of a record of that round |
| Server.NpcReply | fastapi-backend/server.py:25-53 | returns the placeholder text built from the request alone; the player-message context has at most 3 documents and the NPC context at most 1, all of the round; `npc_memory` gains exactly the record (fresh "npc-" id, the returned text, `{said, round_id}`); `player_messages` is unchanged |
| Strings.Strip | chromadb_backend/chromatesting.py:175 | `str.strip()`, also used at stylometric.py:32: the result is the input with whitespace-only runs cut off at both ends, it has no whitespace at either end, and it is no longer than the input; whitespace is the `str.isspace` set |
| Strings.StripUnique | chromadb_backend/chromatesting.py:175 | any text without whitespace at its ends, framed by two whitespace-only runs, strips to itself, so the contract of `Strip` determines it |
| Strings.StripIdempotent | chromadb_backend/chromatesting.py:175 | stripping a reply that is already stripped changes nothing |
| Strings.JoinSplit | chromadb_backend/chromatesting.py:59 | every flattened `nearby_players` string is the comma-join of its own split, so the flattening reaches every comma-separated text |
| Strings.JoinEmptyIsJoinOfEmptyItem | chromadb_backend/chromatesting.py:59 | the flattening maps `[]` and `[""]` to the same "", which is why `Store.NearbyPlayersRecoverable` needs a non-empty list |

## Left out

- The vector database, its persistent client and the collection set-up (`safe_get_collection`): the store is an in-memory class. Since that code raises no error when a collection exists with another embedding function, the model has no schema-conflict error.
- Embeddings (`OllamaWrapper`) and similarity scores: ranking is an integer distance oracle with ties kept in stored order. Floating-point distances and the library's tie order are not modelled. The server opens the collections without an embedding function; the model gives its queries the same oracle as a parameter.
- Metadata values other than strings and integers, and filters that use operators or several keys in the library's syntax: the `where` filter is exact matching on every key given.
- The language model's sampling and temperature: `generate` is a function, so two calls on the same prompt give the same text. In the source the two modules each hold their own model client; the model passes one `Generator` to both.
- `datetime.fromtimestamp(int(ts)/1000).strftime(...)`, including the error `int()` raises on a non-numeric string: it is the `Clock` oracle applied to a truthy timestamp.
- `uuid4`: a counter gives fresh ids, which keeps the "fresh and unique" property and loses randomness.
- The `game_events` collection is created but never written by the core; the model keeps it as an untouched partition.
- `get_npc_reply_from_server`, the dead code after `return reply`, the `__main__` demo, the FastAPI application and its CORS settings, chromadb_backend/db.py, llm_backend/testingllm.py, fastapi-backend/test_npc.py and the Unity C# scripts are not part of this model.
- Concurrency between requests and failures of the store or the model: every call returns.
- Store.MemoryStore.QueryCollection: its contract states the answer through some row of matching stored records, not by rank. The exact answer is `Query`, whose ranking is stated by `Store.QueryRanked`, and the orchestrator relies on that exact answer.
- Server.NpcReply: the two unused query results are ghost outputs. Only their bound and their round are stated, not their rank order.
