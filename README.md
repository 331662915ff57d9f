# modx core, modelled in Dafny

This project models the core of modx. modx is an OpenAI-compatible chat gateway: it authenticates requests, forwards chat completions upstream, and streams the replies back as server-sent events. The conversation so far is kept in a Redis cache. The model covers these parts:

- **The cache.** The sentinels `Empty`, `Placeholder` and `CacheMiss`. `RedisCache`, the Redis implementation of the `KVCache` contract. The Redis server itself, modelled only as far as the cache relies on it. The optional HMAC signing of pickled payloads.
- **`AsyncStream`.** A replayable asynchronous stream and its derived operators.
- **`ChatCompletion.chat`.** The glue: the cache read, the upstream message list, `map_chunk` and `map_finish_reason`, and the write of the extended conversation on the plain and the streaming paths.
- **`SSEStream`.** Framing of items as server-sent events. The model also proves that a client interprets each frame back into its event name and data.
- **Chat request validators.** The checks on the message list, the completion ID and the model ID.
- **`Context`.** The request context: a mutable mapping stored in a context variable.
- **Authentication middleware.** `extract_route` and `AuthMiddleware.__call__`.
- **`APIKey`.** The API-key resource.

Files and their form:

| file | what it holds | form |
|---|---|---|
| `common.dfy` | shared helpers: `Option`, `Result`, whitespace and line handling, integer printing | functions |
| `sentinels.dfy` | `PyValue`, the Python values that flow through the cache, with the three sentinels | functions and lemmas |
| `store.dfy` | the Redis commands the cache issues, as functions, and the class `RedisStore` | class with a `map` of entries |
| `signing.dfy` | `serl` / `deserl`: pickling and the HMAC tag | functions and lemmas |
| `cache_ops.dfy` | what each `RedisCache` operation does to the store, and the properties of those operations | functions and lemmas |
| `cache.dfy` | `RedisCache`: one method per operation, proved against `cache_ops.dfy` | class |
| `stream_ops.dfy`, `stream_spec.dfy` | the sequence semantics of the operators; the traversal state machine of `__aiter__` / `__anext__` | functions and lemmas |
| `stream.dfy` | `AsyncStream`, its iterator state and its operators | class with loops |
| `chat_glue.dfy` | `map_finish_reason`, `map_chunk`, and `ChatCompletion.chat` on both paths | functions, lemmas, class |
| `chat_validation.dfy` | `val_messages`, `ChatCompletionID` and `ModelID` | loop method, functions |
| `sse.dfy` | `SSEStream.format` and `__aiter__`, and an event-stream interpreter | functions, loop method |
| `context.dfy` | `Context` over a shared context-variable cell | class |
| `auth.dfy` | `extract_route` and `AuthMiddleware.__call__` | functions, class with a loop |
| `api_key.dfy` | `APIKey` and `_parse` | functions and lemmas |

These inputs are parameters of the model:

- Store failures: every Redis call takes a `fault` flag; `true` means the call raised `RedisError`.
- The pickler and the HMAC function, as a `Codec` record of functions.
- The JSON serialisers used for SSE items.
- The clock: the `created` time, and expiry through an explicit `Advance(dt)`.
- The generated IDs.
- The upstream reply: a completion, or a finite source of chunks.
- The authentication interface's verdict.

`extract_route` finds its route with a regular expression, `(?:^/)?(?:api/)?v\d+(?:\.\d+)?(/.*)`, using a search. Both optional groups can match empty, so a match exists exactly when the path contains `v`, then digits, then optionally `.` and digits, then `/`. Python's `re.search` takes the leftmost such `v`. The digit runs are greedy, with backtracking that cannot change which `/` follows. Group 1 is the rest of the line, up to the first `\n`. `Auth.FindVersion` and `Auth.ExtractRoute` state this directly.

## Model

| member | source | states |
|---|---|---|
| Sentinels.EmptyIsFalsyAndEqualOnlyToEmpty | modx/cache/__init__.py:9-27 | `Empty` is falsy and compares equal only to another `Empty`, from either side |
| Sentinels.CacheMissIsFalsyAndNeverEmpty | modx/cache/__init__.py:57-81 | `CacheMiss` is falsy, equal only to `CacheMiss`, and never equal to `Empty` |
| Sentinels.PlaceholderIsTruthyAndEqualOnlyToPlaceholder | modx/cache/__init__.py:30-54 | `Placeholder` is truthy and equal only to `Placeholder` |
| Sentinels.ClassOf | modx/cache/__init__.py:9-81 | a value has a sentinel class exactly when it is one of the three sentinels |
| Sentinels.SentinelStateRoundTrip | modx/cache/__init__.py:41-45 | a sentinel's pickled state is empty, and restoring its class from that state gives an equal sentinel |
| Signing.SerlLayout | modx/cache/redis.py:65-91 | what `serl` stores: the 32-byte HMAC tag of the pickle followed by the pickle when signing is on, the pickle alone otherwise |
| Signing.SerlDeserlRoundTrip | modx/cache/redis.py:65-130 | `deserl(serl(v)) == v` under one configuration, with signing on or off |
| Signing.DeserlAcceptsOnlyTagged | modx/cache/redis.py:92-130 | with signing on, accepted data is at least a tag long, its tag equals the HMAC of the rest, and the value is the unpickled rest |
| Signing.DeserlRejectsShort | modx/cache/redis.py:92-110 | with signing on, data shorter than a tag is rejected |
| Signing.TamperedTagRejected | modx/cache/redis.py:92-130 | changing any byte of a signed payload's tag makes it undecodable |
| Signing.CacheMissRoundTrip | modx/cache/redis.py:131-146 | the negative-cache marker reads back as `CacheMiss` |
| Store.PrefixPatternMatchesStartsWith | modx/cache/redis.py:207-235 | the SCAN pattern `prefix*` matches a key exactly when the key starts with the prefix, for a prefix without glob characters |
| Store.ParseIntBytes | modx/cache/redis.py:436-461 | the counter bytes Redis stores for an integer parse back to that integer |
| Store.IncrAbsentStartsAtZero | modx/cache/redis.py:436-461 | INCRBY / DECRBY on a missing key reply with the amount, or its negation |
| Store.IncrThenIncr | modx/cache/redis.py:436-448 | two INCRBYs on a fresh counter read back as their sum |
| Store.SetExExpires | modx/cache/redis.py:178-193 | a SETEX key exists until exactly its TTL has passed |
| Store.SetNeverExpires | modx/cache/redis.py:365-386 | a plain SET key reports TTL -1 and survives any clock advance |
| Store.RedisStore.Get | modx/cache/redis.py:147-177 | the GET reply: an error exactly on a fault, and otherwise the stored bytes of a present key |
| Store.RedisStore.Exists | modx/cache/redis.py:236-249 | EXISTS is positive exactly for a present key |
| Store.RedisStore.Ttl | modx/cache/redis.py:387-406 | TTL replies -2 exactly for a missing key |
| CacheOps.AddPrefix | modx/cache/redis.py:61-64 | the physical key is the prefix followed by the logical key |
| CacheOps.PrefixRestored | modx/cache/redis.py:61-64 | stripping the prefix from a namespace key and adding it back gives the key |
| CacheOps.StripAll | modx/cache/redis.py:207-225 | iteration yields exactly the stripped forms of the scanned keys that start with the prefix |
| CacheOps.GetItemSound | modx/cache/redis.py:147-177 | `cache[key]` returns the live value stored under the key or `EMPTY`; without a store error it returns the live value when there is one; only a corrupt entry is deleted |
| CacheOps.SetThenGet | modx/cache/redis.py:178-193 | what `cache[key] = v` writes is read back, and it disappears after the default TTL |
| CacheOps.NegativeEntryHidesKey | modx/cache/redis.py:131-177 | after `set_negative`, the key reads as `EMPTY` (or the default of `get`), `in` still reports it, and it expires after the negative TTL |
| CacheOps.CorruptEntrySelfHeals | modx/cache/redis.py:147-177 | an undecodable entry reads as `EMPTY` and is deleted |
| CacheOps.TamperedEntryDeleted | modx/cache/redis.py:92-177 | with signing on, an entry whose tag was altered reads as `EMPTY` and is deleted |
| CacheOps.SetDefaultKeepsValue | modx/cache/redis.py:257-296 | `setdefault` on a live value returns it and writes nothing |
| CacheOps.SetDefaultKeepsTombstone | modx/cache/redis.py:257-296 | `setdefault` on a tombstone returns the default and leaves the tombstone |
| CacheOps.SetDefaultStoresDefault | modx/cache/redis.py:257-296 | `setdefault` on a missing key stores the default, and the next lookup returns it |
| CacheOps.SetDefaultNoneIsNegative | modx/cache/redis.py:257-296 | `setdefault(key, None)` on a missing key records a tombstone |
| CacheOps.DelItemRaisesIffAbsent | modx/cache/redis.py:194-206 | `del cache[key]` raises KeyError exactly when the store fails or the key is absent, and otherwise removes it |
| CacheOps.PopRemoves | modx/cache/redis.py:310-334 | `pop` returns the live value or the default, and removes whatever entry there was |
| CacheOps.PopItemFindsPoppable | modx/cache/redis.py:335-360 | `popitem` raises KeyError exactly when no scanned key holds a live value other than None; otherwise it returns such a key and value and removes that key |
| CacheOps.ClearEmptiesNamespace | modx/cache/redis.py:297-309 | `clear` removes every key the namespace pattern matches and keeps all the others |
| CacheOps.NamespaceIsPrefix | modx/cache/redis.py:207-235 | for a prefix without glob characters, the SCAN namespace is exactly the keys starting with the prefix |
| CacheOps.StripAllKeepsPrefixed | modx/cache/redis.py:207-225 | when every scanned key has the prefix, iteration keeps them all, in order |
| CacheOps.StripInjective | modx/cache/redis.py:207-225 | two namespace keys never strip to the same logical key |
| CacheOps.StripAllDistinct | modx/cache/redis.py:207-225 | distinct scanned keys give distinct logical keys |
| CacheOps.StripAllKeys | modx/cache/redis.py:207-225 | the set of iterated keys is the image of the prefixed scanned keys |
| CacheOps.StripAllWithin | modx/cache/redis.py:207-225 | a scan that returns only matching keys yields only logical keys of the namespace; a full scan yields all of them |
| Store.GlobLiteral | modx/cache/redis.py:208-210 | literal pattern characters match only themselves, one for one |
| CacheOps.LenCountsWhatIterSkips | modx/cache/redis.py:207-235 | for any prefix with one `?` or `*` among literal characters, a key matches the scan pattern, so `len` counts it, but does not start with the prefix, so iteration skips it |
| CacheOps.SetXChoosesExpiry | modx/cache/redis.py:365-386 | `setx` with a positive TTL sets exactly that TTL; without a TTL the key never expires; a TTL of 0 or less writes nothing |
| CacheOps.SetXThenGet | modx/cache/redis.py:365-386 | what `setx` wrote with a positive TTL is read back unchanged and reports that TTL |
| CacheOps.TtlNoneIffNoExpiry | modx/cache/redis.py:387-406 | `ttl` is None exactly for a missing key or one without expiry, and on a store error |
| CacheOps.ExpireSetsOrClears | modx/cache/redis.py:407-435 | `expire(key, None)` makes a key permanent; a positive TTL replaces its expiry; a TTL of 0 or less deletes it |
| CacheOps.IncrDecrCancel | modx/cache/redis.py:436-461 | a fresh counter incremented by `a` reads `a`, and decrementing it by `a` reads 0 |
| CacheOps.CounterErrorReadsZero | modx/cache/redis.py:436-461 | a store error on `incr` / `decr` reads as 0 and changes nothing |
| CacheOps.ValuesSkipNone | modx/cache/redis.py:466-474 | `values()` never yields None and has at most one value per key |
| CacheOps.ItemsSkipNone | modx/cache/redis.py:475-483 | `items()` pairs only iterated keys with values other than None |
| CacheOps.ItemsAreLive | modx/cache/redis.py:475-483 | without store errors, every pair of `items()` is an iterated key with its live value (stored, not None, not EMPTY), and every iterated key holding a live value appears with it |
| CacheOps.ValuesAreItemValues | modx/cache/redis.py:466-483 | `values()` is the value column of `items()` over the same keys, pair for pair, and leaves the same store, whatever fails |
| Cache.RedisCache.constructor | modx/cache/redis.py:26-60 | the cache holds its configuration, codec and store |
| Cache.RedisCache.SetNegative | modx/cache/redis.py:131-146 | the store afterwards is the result of `set_negative` |
| Cache.RedisCache.GetItem | modx/cache/redis.py:147-177 | the result and the new store are those of the lookup |
| Cache.RedisCache.SetItem | modx/cache/redis.py:178-193 | the new store is the SETEX of the serialised value, or the old store on failure |
| Cache.RedisCache.DelItem | modx/cache/redis.py:194-206 | the outcome and the new store are those of the deletion |
| Store.RedisStore.Scan | modx/cache/redis.py:210-211 | `scan_iter` returns only keys the pattern matches, every one of them when no SCAN call fails, possibly repeated; a failing call ends it after at most the given number of keys |
| Cache.RedisCache.Iter | modx/cache/redis.py:207-225 | the keys are the stripped prefixed keys of the scan, in scan order, repeats included; all logical keys of the namespace without error, and the ones yielded before it on a store error; distinct when the scan repeats nothing |
| Cache.RedisCache.StripPrefixes | modx/cache/redis.py:211-219 | the loop of `__iter__` yields the stripped scanned keys that carry the prefix |
| Cache.RedisCache.Len | modx/cache/redis.py:226-235 | 0 on error; otherwise one per scanned key, repeats included, so at least the number of keys the namespace pattern matches, and exactly that when the scan repeats none |
| Cache.RedisCache.Contains | modx/cache/redis.py:236-249 | EXISTS on the physical key of a string; False for anything else or on error |
| Cache.RedisCache.Get | modx/cache/redis.py:250-256 | the lookup, with the default in place of `EMPTY` |
| Cache.RedisCache.SetDefault | modx/cache/redis.py:257-296 | the result and the new store are those of `setdefault` |
| Cache.RedisCache.Clear | modx/cache/redis.py:297-309 | the new store is the old one without the keys the namespace pattern matches; unchanged when the scan fails, because the keys are listed before the DEL |
| Cache.RedisCache.Pop | modx/cache/redis.py:310-334 | the result and the new store are those of `pop` |
| Cache.RedisCache.PopItem | modx/cache/redis.py:335-360 | the keys scanned before any error are popped in order up to the first that holds a value other than None, which is returned; KeyError when none does, also when the scan fails after them |
| Cache.RedisCache.Set | modx/cache/redis.py:361-364 | the same as item assignment |
| Cache.RedisCache.SetX | modx/cache/redis.py:365-386 | the new store is the SETEX or SET that `setx` issues |
| Cache.RedisCache.Ttl | modx/cache/redis.py:387-406 | the remaining TTL, or None |
| Cache.RedisCache.Expire | modx/cache/redis.py:407-435 | the new store is the EXPIRE or PERSIST that `expire` issues |
| Cache.RedisCache.Incr | modx/cache/redis.py:436-448 | the counter value and the new store after INCRBY, or 0 on error |
| Cache.RedisCache.Decr | modx/cache/redis.py:449-461 | the counter value and the new store after DECRBY, or 0 on error |
| Cache.RedisCache.Keys | modx/cache/redis.py:462-465 | the list of iterated keys: logical keys of the namespace, all of them without a store error |
| Cache.RedisCache.Values | modx/cache/redis.py:466-474 | `get` of every iterated key in turn (those yielded before a scan error, all of them otherwise), keeping the results that are not None |
| Cache.RedisCache.GetValues | modx/cache/redis.py:468-474 | the result and the new store of the `values()` loop are `ValuesOp` over the key list |
| Cache.RedisCache.Items | modx/cache/redis.py:475-483 | (key, `get(key)`) for every iterated key in turn (those yielded before a scan error, all of them otherwise), keeping values that are not None |
| Cache.RedisCache.GetItems | modx/cache/redis.py:477-483 | the result and the new store of the `items()` loop are `ItemsOp` over the key list |
| StreamOps.MapSeq | modx/chatbot/types/stream.py:70-76 | `map` yields the mapper applied to each item, one for one |
| StreamOps.MapSeqId | modx/chatbot/types/stream.py:13-24 | a stream without a mapper yields its source items unchanged |
| StreamOps.FilterSeq | modx/chatbot/types/stream.py:54-61 | `filter` keeps only items satisfying the predicate, drawn from the source |
| StreamOps.FilterAppend | modx/chatbot/types/stream.py:54-61 | filtering keeps the relative order of the items |
| StreamOps.FilterKeepsSatisfying | modx/chatbot/types/stream.py:54-61 | every item satisfying the predicate is kept |
| StreamOps.TakeSkipSplit | modx/chatbot/types/stream.py:77-98 | `take(n)` followed by `skip(n)` gives the whole stream; `take(n)` has min(max(n, 0), length) items |
| StreamOps.TakeWhileSeq | modx/chatbot/types/stream.py:112-120 | `take_while` is the longest prefix whose items all satisfy the predicate |
| StreamOps.EnumerateSeq | modx/chatbot/types/stream.py:121-128 | `enumerate` yields one pair per item |
| StreamOps.EnumeratePairs | modx/chatbot/types/stream.py:121-128 | item `i` is paired with `start + i` |
| StreamOps.ChunkShape | modx/chatbot/types/stream.py:99-111 | chunks rebuild the stream when flattened; each has 1 to `size` items, and all but the last are full |
| StreamOps.ChunkIsFullPlusRemainder | modx/chatbot/types/stream.py:99-111 | chunking is the full batches yielded in the loop, then the non-empty remainder |
| StreamOps.Remainder | modx/chatbot/types/stream.py:99-111 | the batch left after the loop has fewer than `size` items |
| StreamOps.FoldLeftAppend | modx/chatbot/types/stream.py:134-139 | `reduce` applies `func` to the accumulator and each item in turn |
| StreamOps.FirstFailure | modx/chatbot/types/stream.py:140-148 | the index of the first item failing the predicate: every item before it passes |
| StreamOps.TakeWhileStopsAtFirstFailure | modx/chatbot/types/stream.py:112-148 | `take_while` stops exactly where `all` finds its first failure |
| StreamSpec.PullKeepsCoherent | modx/chatbot/types/stream.py:25-53 | one `__anext__` keeps the buffer equal to the mapped prefix of the source pulled so far |
| StreamSpec.CloseKeepsCoherent | modx/chatbot/types/stream.py:25-48 | dropping a generator keeps the state coherent |
| StreamSpec.TraverseBeyondEnd | modx/chatbot/types/stream.py:25-48 | once a traversal has ended, allowing more pulls changes nothing |
| StreamSpec.TraverseIsPrefixOfDrain | modx/chatbot/types/stream.py:25-48 | a bounded traversal sees a prefix of what a draining one sees, and no exception unless it reaches the end |
| StreamSpec.EndIsDrain | modx/chatbot/types/stream.py:25-48 | a consumer that reached the end has seen exactly what a drain gives |
| StreamSpec.FirstTraversal | modx/chatbot/types/stream.py:25-48 | the first traversal maps the source items; it then marks the stream consumed, and completed when it reached the end |
| StreamSpec.LaterTraversalsReplay | modx/chatbot/types/stream.py:25-41 | every later traversal replays the buffer and never advances the source |
| StreamSpec.EarlyStopTruncatesReplays | modx/chatbot/types/stream.py:25-48 | after a first traversal stops early, replays yield only the items buffered so far |
| StreamSpec.ErrorRaisedOnce | modx/chatbot/types/stream.py:25-48 | the source's exception reaches the first draining consumer only; replays end normally |
| StreamSpec.TakeRound | modx/chatbot/types/stream.py:77-87 | one pull of a consumer bounded to `k` items either extends its progress or ends where a traversal of `k` items ends |
| StreamSpec.TakeWhileRound | modx/chatbot/types/stream.py:112-120 | one pull of a consumer that stops at the first failing item either extends its progress or ends where the traversal up to that failure ends, holding the longest passing prefix |
| Stream.AsyncStream.constructor | modx/chatbot/types/stream.py:13-24 | a new stream has not started: empty buffer, no error, not consumed |
| Stream.AsyncStream.IsCompleted | modx/chatbot/types/stream.py:150-152 | only a consumed stream is completed |
| Stream.AsyncStream.Error | modx/chatbot/types/stream.py:154-156 | the recorded error is the source's exception, set only once the source is exhausted; mappers and predicates are total here, so a callback's exception is never recorded |
| Stream.AsyncStream.ItemsCount | modx/chatbot/types/stream.py:158-160 | the number of source items pulled, at most the source length |
| Stream.AsyncStream.Drive | modx/chatbot/types/stream.py:29-48 | one step of the first traversal's body, with a mapper that does not raise |
| Stream.AsyncStream.Pull | modx/chatbot/types/stream.py:25-48 | one `__anext__` on a generator of `__aiter__`: the stream is consumed once any generator has started |
| Stream.AsyncStream.Close | modx/chatbot/types/stream.py:44-48 | dropping a generator runs the `finally` of a traversal that is driving the source |
| Stream.AsyncStream.Next | modx/chatbot/types/stream.py:49-53 | `__anext__` pulls the generator created on first use |
| Stream.AsyncStream.Traverse | modx/chatbot/types/stream.py:25-48 | `async for` with at most `k` items: delivered items, exception and new state are those of the traversal |
| Stream.AsyncStream.Filter | modx/chatbot/types/stream.py:54-61 | the child yields the filtered drain of this stream, then its exception |
| Stream.AsyncStream.FilterLoop | modx/chatbot/types/stream.py:54-61 | the drain loop keeps exactly the passing items, and leaves the state a drain leaves |
| Stream.AsyncStream.Tap | modx/chatbot/types/stream.py:62-69 | the child yields the drain unchanged; the action is called on each item in order |
| Stream.AsyncStream.Map | modx/chatbot/types/stream.py:70-76 | the child yields the mapped drain |
| Stream.AsyncStream.Take | modx/chatbot/types/stream.py:77-87 | the child yields the first `n` items; this stream is pulled once more than it keeps |
| Stream.AsyncStream.TakeLoop | modx/chatbot/types/stream.py:77-87 | the loop keeps the first `n` items and lets the generator go at the first one too many |
| Stream.AsyncStream.Skip | modx/chatbot/types/stream.py:88-98 | the child yields everything after the first `n` items |
| Stream.AsyncStream.Chunk | modx/chatbot/types/stream.py:99-111 | the child yields the batches of the drain; a trailing partial batch is dropped when the source raises |
| Stream.AsyncStream.TakeWhile | modx/chatbot/types/stream.py:112-120 | the child yields the longest passing prefix; this stream is traversed up to its first failing item |
| Stream.AsyncStream.TakeWhileLoop | modx/chatbot/types/stream.py:112-120 | the loop keeps the longest passing prefix and stops at the first failing item |
| Stream.AsyncStream.TakeWhileStep | modx/chatbot/types/stream.py:112-120 | one round of that loop: keep a passing item, or stop at the end or at the first failing item |
| Stream.AsyncStream.Enumerate | modx/chatbot/types/stream.py:121-128 | the child yields the drain paired with indices from `start` |
| Stream.AsyncStream.Foreach | modx/chatbot/types/stream.py:130-133 | the action is awaited on every item of the drain, in order |
| Stream.AsyncStream.Reduce | modx/chatbot/types/stream.py:134-139 | the left fold of the drain from `initial`, unless the source raises |
| Stream.AsyncStream.All | modx/chatbot/types/stream.py:140-148 | True exactly when every item passes; the traversal stops at the first failure |
| ChatGlue.MapFinishReason | modx/chatbot/openai.py:28-38 | `length` and `content_filter` are kept; any other reason becomes `stop` |
| ChatGlue.MapChunkPriority | modx/chatbot/openai.py:105-138 | `map_chunk` gives priority to usage, then text, then a finish reason; each chunk carries the call's id, time and model |
| ChatGlue.CollectIsConcat | modx/chatbot/openai.py:143-150 | tapping with `collect_content` gives the chunk contents concatenated in order |
| ChatGlue.ContentsAppend | modx/chatbot/openai.py:145-148 | one more chunk appends its content |
| ChatGlue.CacheKey | modx/chatbot/openai.py:65-66 | a cache key is used exactly when caching is on and the key is non-empty |
| ChatGlue.PriorContext | modx/chatbot/openai.py:67 | a falsy cached value gives an empty context; a non-empty context is the cached list; any other truthy value fails |
| ChatGlue.MessageListShape | modx/chatbot/openai.py:74-81 | the upstream list is the system prompt, the context, then each request message with its role and content |
| ChatGlue.NoKeyNoRead | modx/chatbot/openai.py:64-67 | without a key the cache is neither read nor changed, and the context is empty |
| ChatGlue.UnknownModelNotFound | modx/chatbot/openai.py:70-71 | an unknown model raises NotFoundError before any upstream call |
| ChatGlue.MissGivesEmptyContext | modx/chatbot/openai.py:65-67 | a miss, a tombstone, a corrupt entry or a store error give an empty context |
| ChatGlue.WrittenConversationIsNextContext | modx/chatbot/openai.py:65-81 | the conversation written under a key is the context of the next call with that key |
| ChatGlue.CompletionAsWrittenAlwaysRaises | modx/chatbot/openai.py:179-185 | as written, the plain path never returns a completion |
| ChatGlue.BuildCompletion | modx/chatbot/openai.py:179-185 | the completion carries the call's id, time and model, the first choice's content, refusal and mapped finish reason, and the usage; it fails exactly when there are no choices |
| ChatGlue.CompleteWritesConversation | modx/chatbot/openai.py:169-178 | with a key, the plain path stores context + last message + reply for the cache TTL, and the next lookup reads it; without a key it writes nothing |
| ChatGlue.StreamWritesOnlyWhenDrained | modx/chatbot/openai.py:142-166 | the streaming write happens only when the consumer drains the stream without error and the text is not blank |
| ChatGlue.StreamWriteReadsBack | modx/chatbot/openai.py:156-164 | the streaming write stores the collected text after the context and the last message, where the next lookup finds it |
| ChatGlue.ChatCompletion.constructor | modx/chatbot/openai.py:44-51 | the glue holds the models, the cache and the cache TTL |
| ChatGlue.ChatCompletion.Prepare | modx/chatbot/openai.py:63-81 | the result and the new store are those of the cache read, the model check and the message list |
| ChatGlue.CompleteAsWrittenWritesThenRaises | modx/chatbot/openai.py:169-185 | as written, the plain path makes the same write as the corrected one and then raises TypeError instead of returning the completion |
| ChatGlue.ChatCompletion.Complete | modx/chatbot/openai.py:169-185 | the plain path's write, then the completion built with the upstream usage: the corrected construction of the Findings table, where the code as written raises TypeError after the write |
| ChatGlue.ChatCompletion.CacheOnComplete | modx/chatbot/openai.py:142-166 | a consumer taking `k` chunks gets those of the mapped stream; the store changes only when the stream commits |
| ChatGlue.ChatCompletion.StreamChat | modx/chatbot/openai.py:140-167 | the returned stream maps the upstream chunks with `map_chunk`; consuming it writes the conversation exactly when it commits |
| ChatValidation.ValMessages | modx/value_obj/chat_completion.py:16-55 | accepted exactly when the list is non-empty, every role is valid, the first is user, neighbouring roles differ and the last is user; each error names the first failing check |
| ChatValidation.AcceptedIffAlternating | modx/value_obj/chat_completion.py:16-55 | the accepted lists are exactly the strictly alternating ones that start and end with the user |
| ChatValidation.ChatCompletionId | modx/value_obj/chat_completion.py:58-77 | the id is valid exactly when it starts with `chatcmpl-` with 32 characters after it; a given empty id is replaced by the generated one |
| ChatValidation.ChatCompletionIdDefaults | modx/value_obj/chat_completion.py:61-66 | a missing or empty id takes the generated one; a given id never does |
| ChatValidation.ModelId | modx/value_obj/chat_completion.py:80-84 | a model id is accepted exactly when it has 1 to 100 characters |
| Sse.EventName | modx/helpers/sse.py:38-39 | the argument's event wins when truthy, then the stream's; there is an event line exactly when one of them is truthy |
| Sse.SplitJoinLF | modx/helpers/sse.py:48-51 | splitting a join on line feeds gives back the lines, when none contains one |
| Sse.FrameShape | modx/helpers/sse.py:35-51 | a frame is an optional `event:` line, a `data:` line and a blank line, so it ends with two line feeds |
| Sse.ArgumentEventWins | modx/helpers/sse.py:32-39 | the end frame is always an `end` event, whatever the stream's event |
| Sse.DecodeFormat | modx/helpers/sse.py:35-51 | when the content and the event name hold no CR and no LF, an event-stream client reads the frame back as (its event name or `message`, its content) |
| Sse.FrameHasNoCR | modx/helpers/sse.py:35-51 | such a frame holds no CR, so its only line ends are the LFs `format` writes |
| Sse.RetryFrameIsNoEvent | modx/helpers/sse.py:26-27 | the retry frame dispatches no event |
| Sse.ItemFrames | modx/helpers/sse.py:29-30 | one frame per item |
| Sse.ItemFramesAt | modx/helpers/sse.py:29-30 | frame `i` is item `i` formatted without an event argument |
| Sse.FormatItems | modx/helpers/sse.py:29-30 | the `async for` loop yields one frame per item, in order |
| Sse.Emit | modx/helpers/sse.py:25-33 | the frames `__aiter__` yields for a finite source that ends or raises, and whether the source's exception propagates |
| Sse.FramesInOrder | modx/helpers/sse.py:25-33 | the frames are the retry frame when retry is non-zero, the item frames in order, then the end frame when `end` is truthy and the source did not raise |
| Sse.DefaultEndEvent | modx/helpers/sse.py:17-33 | with the default end and a source that ends normally, the last frame reads as event `end` with data `[DONE]` |
| RequestContext.ContextVar.constructor | modx/context.py:9-11 | the context variable starts empty |
| RequestContext.Context.constructor | modx/context.py:13-14 | the cell holds a copy of the initial data, or nothing |
| RequestContext.Context.GetItem | modx/context.py:16-18 | the stored value of a present key; KeyError exactly for a missing one |
| RequestContext.Context.SetItem | modx/context.py:20-24 | the new mapping is the old one with the key bound to the value |
| RequestContext.Context.DelItem | modx/context.py:26-31 | the new mapping is the old one without the key; a missing key is no error |
| RequestContext.Context.Keys | modx/context.py:33-34 | exactly the keys of the mapping |
| RequestContext.Context.Len | modx/context.py:36-37 | the number of keys |
| RequestContext.Context.Values | modx/context.py:75-76 | exactly the values bound to some key |
| RequestContext.Context.Items | modx/context.py:78-79 | exactly the bound pairs |
| RequestContext.Context.Get | modx/context.py:47-48 | the bound value, or the default |
| RequestContext.Context.Set | modx/context.py:50-52 | binds the key and returns the context itself |
| RequestContext.Context.SetX | modx/context.py:54-58 | overrides the mapping with the keyword arguments and returns the context itself |
| RequestContext.Context.Delete | modx/context.py:60-63 | removes the key when present and returns the context itself |
| RequestContext.Context.Clear | modx/context.py:65-67 | empties the mapping and returns the context itself |
| RequestContext.Context.Copy | modx/context.py:69-70 | a mapping with the same keys and values |
| RequestContext.Context.Pop | modx/context.py:81-85 | returns the bound value or the default, and removes the key |
| RequestContext.Context.Update | modx/context.py:87-99 | as written: the mapping overridden by `other`, with the keyword arguments ignored |
| RequestContext.Context.UpdateWithKwargs | modx/context.py:87-99 | the mapping overridden by `other`, then by the keyword arguments |
| RequestContext.UpdatedAsWritten | modx/context.py:93-98 | keys of either mapping; `other`'s values win; keyword arguments play no part |
| RequestContext.Updated | modx/context.py:87-99 | keys of all three; keyword arguments win over `other`, which wins over the old mapping |
| RequestContext.UpdateAsWrittenDropsKwargs | modx/context.py:87-99 | `update({}, user='u')` on an empty context leaves it empty; the corrected update binds `user` |
| RequestContext.UpdatedWithoutKwargs | modx/context.py:87-99 | with no keyword arguments both updates agree |
| RequestContext.SelfUpdateIsNoChange | modx/context.py:93-98 | updating a context from itself changes nothing |
| RequestContext.GetStrCases | modx/context.py:102-104 | `get_str` gives the default for a missing or None value, and a string value itself |
| RequestContext.ParseIntToString | modx/context.py:106-111 | `int()` reads back every integer's decimal text |
| RequestContext.ParseNeedsDigits | modx/context.py:106-111 | text without digits does not parse as an integer |
| RequestContext.GetIntCases | modx/context.py:106-111 | `get_int` gives the default when the key is missing or the value is neither string, int nor bool; the integer of a decimal string, an int itself, and 1 for True; a string that is not an integer literal raises ValueError, as `int(value)` does |
| RequestContext.GetBoolOfString | modx/context.py:113-118 | a string value is true exactly when its lower case is `true`, `1`, `yes` or `on` |
| RequestContext.GetBoolCases | modx/context.py:113-119 | a missing key gives the default; any other non-string value its truthiness |
| Auth.FindVersionIsLeftmost | modx/http/middlewares/auth.py:18-21 | the match found is the leftmost version tag followed by `/` |
| Auth.VersionedPathRoute | modx/http/middlewares/auth.py:18-21 | a path `…v<digits>[.<digits>]/rest` routes to `/rest`, for a prefix without `v` and a rest on one line |
| Auth.UnversionedPathRoute | modx/http/middlewares/auth.py:18-24 | without a version tag, `/api/x` routes to `/x` and any other path to itself |
| Auth.RouteKeepsLeadingSlash | modx/http/middlewares/auth.py:18-24 | a route of an absolute path is absolute |
| Auth.AuthorizationHeaderIsFirst | modx/http/middlewares/auth.py:66-71 | the header used is the first whose name is `authorization` in any case |
| Auth.AuthMiddleware.constructor | modx/http/middlewares/auth.py:44-45 | the open routes are the configured ones plus `/ping` and `/metrics` |
| Auth.AuthMiddleware.Call | modx/http/middlewares/auth.py:47-122 | the decision of `__call__`: pass-through, a 401 / 403 response, or a propagated error |
| Auth.AppReachedIffAuthorized | modx/http/middlewares/auth.py:47-122 | the app is called exactly for non-HTTP scopes, open routes, and well-formed bearer tokens that authenticate |
| Auth.ResponsesAre401Or403 | modx/http/middlewares/auth.py:73-121 | every response is 401 with UNAUTHORIZED or 403 with FORBIDDEN; 403 only when authentication raised ForbiddenError |
| Auth.MissingOrMalformedHeader | modx/http/middlewares/auth.py:97-108 | on a protected route, a missing or empty header gives "Authentication required", a malformed one "Invalid authorization header format", whatever the authenticator |
| Auth.HealthRoutesAreOpen | modx/http/middlewares/auth.py:44-64 | `/ping` and `/metrics` are always open |
| ApiKey.Keys | modx/resources/api_key.py:23-37 | `self.data or []` |
| ApiKey.StripIsInfix | modx/resources/api_key.py:17-21 | a stripped line is a substring of the line |
| ApiKey.StripEachAt | modx/resources/api_key.py:17-21 | element `i` of the stripped lines is line `i` stripped |
| ApiKey.NonEmptyAt | modx/resources/api_key.py:17-21 | every kept string is a non-empty element of the stripped lines |
| ApiKey.KeysOfLinesAreTrimmed | modx/resources/api_key.py:17-21 | each key is non-empty, without surrounding whitespace or line breaks, and the stripped form of one line |
| ApiKey.ParsedKeysAreTrimmed | modx/resources/api_key.py:17-21 | every parsed key is non-empty, trimmed and on one line |
| ApiKey.NonBlankLineIsKey | modx/resources/api_key.py:17-21 | every non-blank line contributes its stripped form |
| ApiKey.KeysOfLinesAppend | modx/resources/api_key.py:17-21 | parsing keeps the file's order |
| ApiKey.ContainsMeaning | modx/resources/api_key.py:23-26 | only a string can be contained, and only in a loaded list |
| ApiKey.Len | modx/resources/api_key.py:28-29 | 0 before loading, the number of keys after |
| ApiKey.Iter | modx/resources/api_key.py:31-32 | the keys in file order, exactly those `in` reports |
| ApiKey.Index | modx/resources/api_key.py:34-37 | Python list indexing: a negative index counts from the end; IndexError exactly outside -len..len-1 |
| ApiKey.GetItem | modx/resources/api_key.py:34-37 | IndexError before loading or out of range; otherwise the iterated key at that position |
| ApiKey.GetItemAgreesWithIter | modx/resources/api_key.py:31-37 | `k[i]` and `k[i - len(k)]` are both item `i` of the iteration |
| ApiKey.ApiKeys | modx/resources/api_key.py:39-41 | the property lists the iterated keys |
| ApiKey.UnloadedIsEmpty | modx/resources/api_key.py:23-37 | before loading, the resource is empty and indexing raises |
| ApiKey.BlankFileHasNoKeys | modx/resources/api_key.py:17-21 | a blank file holds no keys |

## Left out

- The Redis connection pool and the client's connection handling, `init` and `close`: the store is a map, and each call's failure is a `fault` flag.
- Logging, and the `print` calls in `Context`: neither affects any result.
- Pickle, JSON and HMAC-SHA256 are function parameters. Signing assumes only that unpickling undoes pickling and that tags are 32 bytes.
- fnmatch character classes `[...]`: `Store.Glob` matches `*` and `?` only, with Redis' backslash escape. Auth route patterns with brackets are not modelled.
- Stream.AsyncStream.Filter (and the other derived operators): the child stream is built eagerly. The operator traverses its parent before the child is returned, so a child consumed only partly has still traversed its parent as far as the generator body would. A generator dropped after `break` is closed at once, where CPython defers `aclose` to the event loop.
- Stream.AsyncStream.All: the default predicate of `all(None)` is not modelled; the caller passes the truthiness test it wants.
- Asynchrony and concurrency: the model has one consumer at a time and no interleaving.
- The context variable's per-task isolation. The model has a single cell shared by every `Context` of one task, as the class attribute is.
- ChatGlue.MapChunk: a chunk with neither usage nor choices is excluded by its type. The source raises IndexError on it, and that error path is not modelled.
- ChatGlue.ChatCompletion.CacheOnComplete: the `tap` stream and the `cache_on_complete` wrapper are one method driving the mapped stream for a consumer that takes `k` chunks.
- The upstream HTTP call, the OpenAI client, tool calls and `render_safe`: the reply and the system prompt are inputs.
- `gen_id` randomness and `time.time()`: the generated id and `created` are inputs.
- The `Completion` and `CompletionChunk` pydantic models: they are plain datatypes.
- Header bytes: header names and values are already decoded text. A header that is not valid UTF-8 is not modelled.
- Common.Lower: lower-casing is ASCII-only. This is exact for the names compared, `authorization` and `bearer`, and for the `get_bool` spellings.
- Auth.DigitRun: Python's `\d` also matches non-ASCII decimal digits; the model takes ASCII digits only.
- Store.RedisStore.Scan: the SCAN cursor loop is one call that reads the store as it is when the scan starts. A failing SCAN call is given as the number of keys returned before it. Keys changed between batches, by other clients or by `popitem`'s own pops and `values()`'s and `items()`'s deletions, are not modelled; the source interleaves those with later batches, and the model runs the scan first.
- Store.RedisStore.Scan: the contract admits repeated keys, as Redis does, but the model's own enumeration returns each key once; nothing else depends on that. The store faults of `popitem`, `values()` and `items()` are given per key, so a key the scan repeats meets the same fault each time.
- ChatGlue.ChatCompletion.Complete: returns the completion built with the upstream usage. The code as written raises TypeError after the write; `ChatGlue.CompleteAsWrittenOp` models that path.
- RequestContext.ParsePyInt: accepts ASCII digits only, with sign, surrounding whitespace and single underscores between digits. Python's `int()` also accepts other Unicode decimal digits, which the model rejects with ValueError.
- Sse.Decode: the client interpreter splits lines at LF only and reads one frame. The standard also ends lines at CR and CRLF, so `Sse.DecodeFormat` is stated only for texts without CR or LF, where `Sse.FrameHasNoCR` makes the two splits agree. A content or event name holding a line break is framed unchanged by `format`, and a client then reads a different event; the model does not say which.
- Stream.AsyncStream.Error (and Drive, Filter, Tap, Map, TakeWhile, Foreach, Reduce, All): the mapper, predicates and actions are total functions; a callback that raises is not modelled. In the source, a raising mapper ends the first traversal with that exception recorded as the stream's error and only the earlier items buffered. A raising predicate or action ends the derived stream with that exception. The model records only the source's own exception.
- Cache keys are text: the UTF-8 decoding of scanned keys in `__iter__` and `popitem` is not modelled. A key in the namespace that is not valid UTF-8 raises UnicodeDecodeError there, which no handler catches.
- RequestContext.Context.Keys: dict order is not modelled; keys, values and items are sets.
- RequestContext.Context.GetInt: objects with `__int__` / `__index__` other than int and bool are not modelled; they read as the default.
- APIKey's file watching, and the file reading of `WatchedResource`: the file's text is an input of `Load`.

## Findings

| source | as written | input that shows it | evidently intended | confidence | as-written member | corrected member |
|---|---|---|---|---|---|---|
| modx/chatbot/openai.py:179-185 | the non-streaming `Completion(...)` has no `usage` argument, which the completion model requires | any non-streaming call whose reply has at least one choice | pass the upstream usage on, so the call returns the completion | not executed | ChatGlue.CompletionAsWrittenAlwaysRaises | ChatGlue.BuildCompletion |
| modx/context.py:87-99 | `update(other, **kwargs)` accepts keyword arguments and ignores them | `Context().update({}, user='u')` leaves the context without `user` | apply the keyword arguments after `other`, as `dict.update` does | not executed | RequestContext.UpdateAsWrittenDropsKwargs | RequestContext.Context.UpdateWithKwargs |
