# Lookup log and forced-lookup chat flow of the agent API

This project models the core of `agent-api/app.py`, a chat gateway that makes the
language model call a `get_knowledge` tool before it may answer. The core has three parts.

- **The per-user lookup log.** Redis holds one list per user under `USER:{user_id}:LOOKUPS`.
  `store_lookup` pushes a record at the head and trims the list to `MAX_LOOKUP_HISTORY`
  entries.
- **The filtered read.** `fetch_knowledge` reads the whole list. When the query is non-empty
  it keeps only the records whose `query` contains the query, ignoring letter case. It then
  returns the first `limit` records.
- **The request flow.** `chat_endpoint` checks that the last message comes from the user,
  prepends the system directive and makes the forced tool call. It runs the lookup, logs it,
  makes the second model call with the results, and returns the answer with lookup metadata.

Modules:

- `Wrappers` (wrappers.dfy): `Option`.
- `Text` (text.dfy): ASCII `str.lower` and Python's substring `in`. `ContainsIff` proves the
  substring test against an index-based reference definition.
- `RedisList` (redis_list.dfy): LPUSH, LTRIM and LRANGE over a key-to-list map. Indices follow
  Redis: negative ones count from the tail, out-of-range ones are clipped, and a list that
  becomes empty loses its key.
- `Lookups` (lookups.dfy): the `Record` type, the user key, and `fetch_knowledge` as the pure
  function `FetchKnowledge` of a snapshot of the log. The filter and slice lemmas live here.
- `KnowledgeStore` (knowledge_store.dfy): the class `Store`. Its field `lists` is the Redis key
  space and its constant `maxHistory` is `MAX_LOOKUP_HISTORY`. `Append` is `store_lookup` and
  `Fetch` is `fetch_knowledge`. It also holds lemmas about many appends in a row.
- `Gateway` (gateway.dfy): `chat_endpoint` as the method `Chat`, plus three client methods that
  replay concrete requests through `Chat`'s contract.

The model follows the code as written, including where it does less than its tool schema
(minimum 1, maximum 100) suggests:

- The tool-call `limit` is never clamped. Whatever integer the model sends is used for the
  slice and stored in the record.
- The only validation is the role of the last message. An empty `messages` list makes
  `messages[-1]` raise, which is modelled as `Failed(EmptyConversation)`. It happens before any
  model call or store access.
- On the early exit, `model_output` is `first_msg.get("content", "")`. An absent key gives `""`.
  A JSON `null` content stays `null`, which is `None` in the model.
- The answer is `final_msg["content"]`. A JSON `null` content is passed through as `null`. A
  message without the key raises, which is `Failed(MissingAnswerContent)`.
- The tool response carries the name of the tool the model actually called. That name is never
  checked against `get_knowledge`.
- If the second model call fails, the lookup record has already been written.

## Model

| member | source | states |
|---|---|---|
| Text.LowerChar | agent-api/app.py:67-68 | upper-case ASCII letters map to the matching lower-case letter; every other character is unchanged |
| Text.Lower | agent-api/app.py:67-68 | lower-casing keeps the length and lower-cases each character in place |
| Text.LowerIdempotent | agent-api/app.py:67-68 | lower-casing an already lower-cased string changes nothing |
| Text.LowerHasNoUpper | agent-api/app.py:67-68 | a lower-cased string holds no upper-case ASCII letter |
| Text.Contains | agent-api/app.py:68 | Python's `q in s`: a pattern that starts the text is found, and a pattern longer than the text never is (ContainsIff gives the full characterisation) |
| Text.ContainsIff | agent-api/app.py:68 | the `in` test holds exactly when the pattern occurs at some index of the text (both directions) |
| Text.ContainsEmpty | agent-api/app.py:61 | the empty string occurs in every string |
| Text.ContainsSelf | agent-api/app.py:68 | every string occurs in itself |
| RedisList.Range | agent-api/app.py:55 | the range LRANGE returns and LTRIM keeps is never longer than the list |
| RedisList.LPush | agent-api/app.py:54 | the pushed value becomes the head of the key's list; every other key reads the same as before |
| RedisList.LTrim | agent-api/app.py:55 | the key's list becomes the selected range; every other key reads the same as before |
| RedisList.RangeWhole | agent-api/app.py:63 | indices 0 and -1 select the whole list, so the read sees the entire log (and a cap of 0 would trim nothing) |
| RedisList.RangeHead | agent-api/app.py:55 | for a cap of at least 1, trimming to 0..cap-1 keeps exactly the first min(cap, length) entries |
| Lookups.KeyInjective | agent-api/app.py:53 | two users with the same key are the same user |
| Lookups.QueryField | agent-api/app.py:68 | `i.get("query", "")`: the stored query, or "" when the record has none |
| Lookups.Matches | agent-api/app.py:67-68 | an empty filter matches every record, and a match needs a filter no longer than the record's query; FilterMembers and MatchesIgnoresCase give the case-insensitive substring test |
| Lookups.Filter | agent-api/app.py:66-68 | filtering never lengthens the list and keeps only records of the input |
| Lookups.SlicePrefix | agent-api/app.py:70 | `items[:limit]` is a prefix of the items, of length min(limit, n) for limit >= 0 and max(0, n + limit) for a negative limit |
| Lookups.FilterCount | agent-api/app.py:68 | the comprehension keeps every copy of a matching record and no copy of any other (counts per record value) |
| Lookups.FilterMembers | agent-api/app.py:66-68 | a record is kept exactly when it is in the log and its lower-cased query (missing counts as "") contains the lower-cased filter |
| Lookups.FilterEmptyQuery | agent-api/app.py:61-68 | an empty filter keeps every record |
| Lookups.FilterCaseInsensitive | agent-api/app.py:67-68 | two filters that lower-case to the same text keep the same records |
| Lookups.FilterPrefixIsSubsequence | agent-api/app.py:66-70 | every prefix of the filtered list is an order-preserving subsequence of the log |
| Lookups.FetchKnowledge | agent-api/app.py:58-70 | `fetch_knowledge` on a snapshot of the log: every result is a record of the log, and there are at most `limit` of them when limit >= 0; the Fetch lemmas below give the rest |
| Lookups.FetchIsFilterThenSlice | agent-api/app.py:66-70 | the `if query` guard only skips work: the result is always the filtered log, sliced |
| Lookups.FetchEmptyQuery | agent-api/app.py:63-70 | with an empty query and limit >= 0 the result is exactly the newest min(limit, length) records, newest first |
| Lookups.FetchSound | agent-api/app.py:66-70 | every returned record is in the log and matches the filter, ignoring case |
| Lookups.FetchOrderAndBound | agent-api/app.py:66-70 | the result is an order-preserving subsequence of the log, at most `limit` long when limit >= 0 and never longer than the log |
| Lookups.FetchComplete | agent-api/app.py:66-70 | when the limit covers the whole log, a record is returned exactly when it is in the log and matches, and every copy of a matching record is returned |
| Lookups.FetchNegativeLimit | agent-api/app.py:70 | with a negative limit the result is the filtered list with its last -limit records removed (empty when it has fewer) |
| Lookups.FetchCaseInsensitive | agent-api/app.py:67-68 | filters that differ only in letter case fetch the same records |
| Lookups.FetchEmptyLog | agent-api/app.py:63-64 | a user with no log gets an empty list rather than an error |
| Lookups.MatchesIgnoresCase | agent-api/app.py:67-68 | a record whose query is "Python" matches the filter "python" |
| Lookups.MatchesOwnQuery | agent-api/app.py:68 | a record always matches its own query |
| KnowledgeStore.Store.constructor | agent-api/app.py:16 | the store starts with the given cap (at least 1) over the given database contents |
| KnowledgeStore.Store.Append | agent-api/app.py:51-55 | the user's log becomes the new record followed by the old log, cut to the cap: the record is at the head, the oldest entries are evicted and the length is at most the cap; this is one step of StoreAll; every other user's log and every other key is unchanged |
| KnowledgeStore.Store.Fetch | agent-api/app.py:58-70 | the result is the filtered, sliced snapshot of the user's current log, and the store is not changed |
| KnowledgeStore.StoreAll | agent-api/app.py:51-55 | the log after a run of `store_lookup` calls: once anything is stored it fits the cap and starts with the latest record |
| KnowledgeStore.StoreAllSnoc | agent-api/app.py:54-55 | one more `store_lookup` after a run is one more LPUSH and LTRIM on the log the run left, so a sequence of Append calls yields StoreAll of the records appended |
| KnowledgeStore.StoreAllKeepsNewest | agent-api/app.py:51-55 | after any run of appends the log is the appended records newest first, then the earlier log, cut to the cap |
| KnowledgeStore.StoreAllEvictsOldest | agent-api/app.py:51-55 | appending cap + k records (k >= 0) leaves exactly cap records, the newest ones; the k oldest appended records and the whole earlier log are evicted |
| Gateway.Prompt | agent-api/app.py:82-94 | the first model call sees the system directive first, then every conversation turn in order with role and content unchanged |
| Gateway.ModelOutput | agent-api/app.py:137 | `first_msg.get("content", "")`: an absent content gives "", a null content stays null, a string is passed through |
| Gateway.LookupQuery | agent-api/app.py:142 | the lookup query is the `query` argument, or "" when the model left it out |
| Gateway.LookupLimit | agent-api/app.py:143 | the lookup limit is the `limit` argument as sent, unclamped, or 20 when the model left it out |
| Gateway.AnswerText | agent-api/app.py:178 | the answer is the final message's content; a null content stays null |
| Gateway.Chat | agent-api/app.py:77-185 | an empty conversation fails and a last turn not from the user gets a 400, both with no model call and no store change; a missing tool call gives the fixed error with the model's content and no store change; otherwise the items are fetched from the log as it was, exactly one record (query and limit from the args with defaults "" and 20, result_count = number of items) is appended for this user only and no other key changes, the second call sees the prompt plus the tool request and the tool result, and lookup_meta echoes query, limit and the item count; a final message without content fails after the record is written |
| Gateway.FreshUserLookup | agent-api/app.py:140-184 | a fresh user saying "hi", with a model that looks up ("", 20) and answers "Hello!", gets that answer with zero returned items, and the log then holds exactly one record with result count 0 |
| Gateway.AssistantLastRejected | agent-api/app.py:79-80 | a conversation ending with an assistant turn is refused with 400 before any model call, and the database is unchanged |
| Gateway.NoToolCallReported | agent-api/app.py:134-138 | a first reply without a tool call ends with "Model did not request a knowledge lookup" and the model's text after one model call, and the database is unchanged |

## Left out

- JSON encoding and decoding of records, tool arguments and the tool result are left out. Records
  and arguments are already-decoded values. Arguments that do not decode to an object become
  `Failed(MalformedToolArguments)`.
- Tool-argument values of the wrong JSON type are left out. A `query` that is not a string, or a
  `limit` that `int()` would convert from a string or float, are not modelled. So the crash of
  `.lower()` on a non-string stored query is not modelled either.
- `str.lower` is modelled on ASCII letters only. Python's full Unicode case mapping is not.
- The Redis client, its connection and the async suspension points are replaced by the in-memory
  `Store`. Concurrent requests for the same user can interleave between the fetch, the push and
  the trim; the model runs one request at a time.
- The model endpoint is replaced by input values. The two replies are parameters of `Chat`, and
  `None` stands for a failed call. The model name, base URL, API key and the temperatures (0.0
  and 0.7, floating point) are not modelled.
- `openai.utils.now()` is the parameter `now` of `Chat`.
- Configuration loading from the environment is left out. `MAX_LOOKUP_HISTORY` is the
  constructor argument of `Store`, restricted to at least 1.
- FastAPI routing, pydantic validation and the mapping of exceptions to HTTP statuses are left
  out. Exceptions are the `Failed` outcomes. `session_id` is carried but unused, as in the source.
- `agent-api/load-data.py` is not part of this model. It seeds `KB:*` hashes that app.py never reads.
