/**
 * `ChatCompletion.chat`: the conversation kept in the cache under a key,
 * the message list sent upstream, the mapping of upstream chunks, and the
 * write of the extended conversation, after the reply on the plain path and
 * only after the stream is drained on the streaming path. The upstream
 * response, the system prompt, the generated id and the clock are inputs.
 */
module ChatGlue {

  import opened Common
  import opened Sentinels
  import opened Store
  import opened Signing
  import opened CacheOps
  import opened Cache
  import opened StreamOps
  import opened StreamSpec
  import opened Stream

  datatype ChatError = NotFoundError | TypeError | IndexError

  /** The finish reasons a completion reports. */
  datatype Reason = FinishStop | FinishLength | FinishContentFilter

  /** `map_finish_reason`: stop, length and content_filter are kept; every other reason becomes stop. */
  function MapFinishReason(reason: string): (r: Reason)
    ensures r == FinishLength <==> reason == "length"
    ensures r == FinishContentFilter <==> reason == "content_filter"
    ensures r == FinishStop <==> reason != "length" && reason != "content_filter"
  {
    if reason == "stop" then FinishStop
    else if reason == "length" then FinishLength
    else if reason == "content_filter" then FinishContentFilter
    else FinishStop
  }

  // ---------------------------------------------------------------------
  // Chunks

  datatype Delta = Delta(content: Option<string>, refusal: Option<string>)

  datatype RawChoice = RawChoice(delta: Delta, finishReason: Option<string>)

  /** An upstream chunk: whether it carries usage, and its choices. */
  datatype RawChunk = RawChunk(usage: bool, choices: seq<RawChoice>)

  /** A chunk `map_chunk` can map: one without usage and without choices makes it index an empty list. */
  type MappableChunk = c: RawChunk | c.usage || |c.choices| > 0 witness RawChunk(true, [])

  datatype Chunk = Chunk(id: string, created: int, model: string, delta: Delta, finishReason: Option<Reason>)

  /** Python truthiness of an optional string. */
  predicate Present(s: Option<string>)
  {
    s.Some? && s.value != ""
  }

  /** `map_chunk`. */
  function MapChunk(id: string, created: int, model: string, c: MappableChunk): (r: Chunk)
  {
    var empty := Delta(None, None);
    if c.usage then Chunk(id, created, model, empty, None)
    else if Present(c.choices[0].delta.content) || Present(c.choices[0].delta.refusal) then
      Chunk(id, created, model, c.choices[0].delta, None)
    else if Present(c.choices[0].finishReason) then
      Chunk(id, created, model, empty, Some(MapFinishReason(c.choices[0].finishReason.value)))
    else Chunk(id, created, model, empty, None)
  }

  /**
   * The order in which `map_chunk` looks at a chunk: usage, then text, then
   * a finish reason; the delta carries content and refusal together or nothing,
   * and every chunk carries the call's id, creation time and model.
   */
  lemma MapChunkPriority(id: string, created: int, model: string, c: MappableChunk)
    ensures var r := MapChunk(id, created, model, c);
      && r.id == id && r.created == created && r.model == model
      && (r.delta == Delta(None, None) || r.delta == c.choices[0].delta)
      && (r.finishReason.Some? <==>
            !c.usage && !Present(c.choices[0].delta.content) && !Present(c.choices[0].delta.refusal)
            && Present(c.choices[0].finishReason))
      && (r.finishReason.Some? ==> r.finishReason == Some(MapFinishReason(c.choices[0].finishReason.value)))
      && (Present(r.delta.content) || Present(r.delta.refusal) <==>
            !c.usage && (Present(c.choices[0].delta.content) || Present(c.choices[0].delta.refusal)))
  {
  }

  function ChunkMapper(id: string, created: int, model: string): MappableChunk -> Chunk
  {
    (c: MappableChunk) => MapChunk(id, created, model, c)
  }

  /** `collect_content`: the content of a chunk is appended when it is non-empty. */
  function CollectContent(full: string, c: Chunk): string
  {
    if Present(c.delta.content) then full + c.delta.content.value else full
  }

  function ContentOf(c: Chunk): string
  {
    if Present(c.delta.content) then c.delta.content.value else ""
  }

  /** The contents of the chunks, in order. */
  function Contents(cs: seq<Chunk>): string
  {
    if cs == [] then "" else ContentOf(cs[0]) + Contents(cs[1..])
  }

  /** Tapping with `collect_content` accumulates exactly the chunk contents, in order. */
  lemma {:induction false} CollectIsConcat(acc: string, cs: seq<Chunk>)
    ensures FoldLeft(CollectContent, acc, cs) == acc + Contents(cs)
    decreases |cs|
  {
    if cs != [] {
      CollectIsConcat(CollectContent(acc, cs[0]), cs[1..]);
      assert CollectContent(acc, cs[0]) == acc + ContentOf(cs[0]);
    }
  }

  lemma {:induction false} ContentsAppend(cs: seq<Chunk>, c: Chunk)
    ensures Contents(cs + [c]) == Contents(cs) + ContentOf(c)
    decreases |cs|
  {
    if cs == [] {
      assert Contents([c]) == ContentOf(c) + Contents([]);
    } else {
      assert (cs + [c])[1..] == cs[1..] + [c];
      ContentsAppend(cs[1..], c);
    }
  }

  // ---------------------------------------------------------------------
  // Key, context and message list

  /** A request message; its role is 'user' or 'assistant'. */
  datatype Message = Message(role: string, content: string)

  /** `cache and cache_key`, as far as `if key:` is concerned. */
  function CacheKey(cache: bool, cacheKey: Option<string>): (k: Option<string>)
    ensures k.Some? <==> cache && cacheKey.Some? && cacheKey.value != ""
    ensures k.Some? ==> k == cacheKey
  {
    if cache && cacheKey.Some? && cacheKey.value != "" then cacheKey else None
  }

  /**
   * `self.cache.get(key) or []`, then concatenated to a list: a falsy value
   * is no context, a list is the context, anything else cannot be added to a list.
   */
  function PriorContext(v: PyValue): (r: Result<seq<PyValue>, ChatError>)
    ensures !Truthy(v) ==> r == Ok([])
    ensures r.Ok? && r.value != [] ==> v == PyList(r.value)
    ensures r.Err? <==> Truthy(v) && !v.PyList?
  {
    if !Truthy(v) then Ok([]) else if v.PyList? then Ok(v.elems) else Err(TypeError)
  }

  function MsgDict(role: string, content: PyValue): PyValue
  {
    PyDict([("role", PyStr(role)), ("content", content)])
  }

  function RequestDict(m: Message): PyValue
  {
    MsgDict(if m.role == "user" then "user" else "assistant", PyStr(m.content))
  }

  /** The list sent upstream: the system prompt, the stored context, then the request's messages. */
  function MessageList(sysprompt: string, prior: seq<PyValue>, messages: seq<Message>): seq<PyValue>
  {
    [MsgDict("system", PyStr(sysprompt))] + prior + MapSeq(RequestDict, messages)
  }

  /** Each request message keeps its place, its role and its content. */
  lemma MessageListShape(sysprompt: string, prior: seq<PyValue>, messages: seq<Message>)
    requires forall i :: 0 <= i < |messages| ==> messages[i].role == "user" || messages[i].role == "assistant"
    ensures var l := MessageList(sysprompt, prior, messages);
      && |l| == 1 + |prior| + |messages|
      && l[0] == MsgDict("system", PyStr(sysprompt))
      && l[1..1 + |prior|] == prior
      && forall i :: 0 <= i < |messages| ==>
           l[1 + |prior| + i] == MsgDict(messages[i].role, PyStr(messages[i].content))
  {
    var l := MessageList(sysprompt, prior, messages);
    var tail := MapSeq(RequestDict, messages);
    assert l == [MsgDict("system", PyStr(sysprompt))] + prior + tail;
    assert l[1..1 + |prior|] == prior;
    forall i | 0 <= i < |messages|
      ensures l[1 + |prior| + i] == MsgDict(messages[i].role, PyStr(messages[i].content))
    {
      assert l[1 + |prior| + i] == tail[i];
    }
  }

  /** The conversation written back: the context, the last request message, and the reply. */
  function Conversation(prior: seq<PyValue>, last: string, reply: PyValue): PyValue
  {
    PyList(prior + [MsgDict("user", PyStr(last)), MsgDict("assistant", reply)])
  }

  function OptStr(s: Option<string>): PyValue
  {
    if s.Some? then PyStr(s.value) else PyNone
  }

  // ---------------------------------------------------------------------
  // The request and the prepared call

  datatype Request = Request(
    messages: seq<Message>,
    model: string,
    cache: bool,
    cacheKey: Option<string>,
    chatcmplId: Option<string>)

  /** What the call learns before it goes upstream. */
  datatype Prepared = Prepared(key: Option<string>, prior: seq<PyValue>, id: string, messageList: seq<PyValue>)

  /** `chatcmpl_id or utils.gen_id(...)`. */
  function ChatId(given: Option<string>, generated: string): string
  {
    if given.Some? && given.value != "" then given.value else generated
  }

  /**
   * Everything before the upstream call: the cache read (which may delete a
   * corrupt entry), the model check, and the message list.
   */
  function PrepareOp(cfg: CacheConfig, c: Codec, m: Entries, models: set<string>, req: Request,
                     generated: string, sysprompt: string, fGet: bool, fDel: bool): (Result<Prepared, ChatError>, Entries)
  {
    var key := CacheKey(req.cache, req.cacheKey);
    var (v, m') := if key.Some? then GetOp(cfg, c, m, key.value, PyNone, fGet, fDel) else (PyList([]), m);
    if req.model !in models then (Err(NotFoundError), m')
    else
      match PriorContext(v)
      case Err(e) => (Err(e), m')
      case Ok(prior) =>
        (Ok(Prepared(key, prior, ChatId(req.chatcmplId, generated), MessageList(sysprompt, prior, req.messages))), m')
  }

  /** Without a key the cache is neither read nor changed, and the context is empty. */
  lemma NoKeyNoRead(cfg: CacheConfig, c: Codec, m: Entries, models: set<string>, req: Request,
                    generated: string, sysprompt: string, fGet: bool, fDel: bool)
    requires !req.cache || req.cacheKey.None? || req.cacheKey.value == ""
    ensures var (r, m') := PrepareOp(cfg, c, m, models, req, generated, sysprompt, fGet, fDel);
      m' == m && (r.Ok? ==> r.value.key.None? && r.value.prior == [])
  {
  }

  /** An unknown model is reported before any upstream call, whatever the cache held. */
  lemma UnknownModelNotFound(cfg: CacheConfig, c: Codec, m: Entries, models: set<string>, req: Request,
                             generated: string, sysprompt: string, fGet: bool, fDel: bool)
    requires req.model !in models
    ensures PrepareOp(cfg, c, m, models, req, generated, sysprompt, fGet, fDel).0 == Err(NotFoundError)
  {
  }

  /** A miss, a tombstone, a corrupt entry or a store error all give an empty context. */
  lemma MissGivesEmptyContext(cfg: CacheConfig, c: Codec, m: Entries, models: set<string>, req: Request,
                              generated: string, sysprompt: string, fGet: bool, fDel: bool)
    requires req.model in models
    requires req.cache && req.cacheKey.Some? && req.cacheKey.value != ""
    requires || fGet
             || Classify(cfg, c, m, req.cacheKey.value).None?
             || Classify(cfg, c, m, req.cacheKey.value) == Some(Tombstone)
             || Classify(cfg, c, m, req.cacheKey.value) == Some(Corrupt)
    ensures var (r, _) := PrepareOp(cfg, c, m, models, req, generated, sysprompt, fGet, fDel);
      r.Ok? && r.value.prior == [] && r.value.key == req.cacheKey
  {
  }

  /**
   * The conversation written under a key is the context of the next call
   * with that key: its messages follow the next system prompt.
   */
  lemma WrittenConversationIsNextContext(cfg: CacheConfig, c: Codec, m: Entries, models: set<string>, req: Request,
                                         prior: seq<PyValue>, last: string, reply: PyValue, ttl: int,
                                         generated: string, sysprompt: string, fDel: bool)
    requires CodecOk(c) && ttl > 0 && req.model in models
    requires req.cache && req.cacheKey.Some? && req.cacheKey.value != ""
    requires Serl(cfg, c, Conversation(prior, last, reply)).Some?
    ensures var m1 := SetXOp(cfg, c, m, req.cacheKey.value, Conversation(prior, last, reply), Some(ttl), false);
      var (r, m2) := PrepareOp(cfg, c, m1, models, req, generated, sysprompt, false, fDel);
      && m2 == m1
      && r.Ok? && r.value.prior == prior + [MsgDict("user", PyStr(last)), MsgDict("assistant", reply)]
      && r.value.messageList[1..1 + |r.value.prior|] == r.value.prior
  {
    SerlDeserlRoundTrip(cfg, c, Conversation(prior, last, reply));
    var m1 := SetXOp(cfg, c, m, req.cacheKey.value, Conversation(prior, last, reply), Some(ttl), false);
    var l := MessageList(sysprompt, prior + [MsgDict("user", PyStr(last)), MsgDict("assistant", reply)], req.messages);
    assert l[1..1 + |prior| + 2] == prior + [MsgDict("user", PyStr(last)), MsgDict("assistant", reply)];
  }

  // ---------------------------------------------------------------------
  // The reply without streaming

  datatype Usage = Usage(promptTokens: nat, completionTokens: nat)

  datatype RawMessageChoice = RawMessageChoice(content: Option<string>, refusal: Option<string>, finishReason: string)

  datatype RawCompletion = RawCompletion(choices: seq<RawMessageChoice>, usage: Usage)

  datatype Completion = Completion(
    id: string, created: int, model: string,
    content: Option<string>, refusal: Option<string>, finishReason: Reason, usage: Usage)

  /**
   * The `Completion(...)` call as written: it passes no `usage`, which the
   * constructor requires as a keyword argument, so it raises TypeError.
   */
  function CompletionAsWritten(id: string, created: int, model: string, resp: RawCompletion): (r: Result<Completion, ChatError>)
  {
    if resp.choices == [] then Err(IndexError) else Err(TypeError)
  }

  /** As written, no non-streaming call returns a completion. */
  lemma CompletionAsWrittenAlwaysRaises(id: string, created: int, model: string, resp: RawCompletion)
    ensures CompletionAsWritten(id, created, model, resp).Err?
    ensures resp.choices != [] ==> CompletionAsWritten(id, created, model, resp) == Err(TypeError)
  {
  }

  /** The completion with the upstream usage passed on, as the constructor expects. */
  function BuildCompletion(id: string, created: int, model: string, resp: RawCompletion): (r: Result<Completion, ChatError>)
    ensures r.Err? <==> resp.choices == []
    ensures r.Ok? ==> && r.value.id == id && r.value.created == created && r.value.model == model
                      && r.value.content == resp.choices[0].content && r.value.refusal == resp.choices[0].refusal
                      && r.value.finishReason == MapFinishReason(resp.choices[0].finishReason)
                      && r.value.usage == resp.usage
  {
    if resp.choices == [] then Err(IndexError)
    else
      var ch := resp.choices[0];
      Ok(Completion(id, created, model, ch.content, ch.refusal, MapFinishReason(ch.finishReason), resp.usage))
  }

  /** The plain path after the upstream call: the write comes first, then the result. */
  function CompleteOp(cfg: CacheConfig, c: Codec, m: Entries, p: Prepared, messages: seq<Message>,
                      created: int, model: string, resp: RawCompletion, cacheTtl: int, fSet: bool): (Result<Completion, ChatError>, Entries)
  {
    if p.key.Some? && (messages == [] || resp.choices == []) then (Err(IndexError), m)
    else
      var m' := if p.key.Some? then
        SetXOp(cfg, c, m, p.key.value,
               Conversation(p.prior, messages[|messages| - 1].content, OptStr(resp.choices[0].content)), Some(cacheTtl), fSet)
      else m;
      (BuildCompletion(p.id, created, model, resp), m')
  }

  /** The plain path as written: the same write, then the `Completion(...)` call that raises. */
  function CompleteAsWrittenOp(cfg: CacheConfig, c: Codec, m: Entries, p: Prepared, messages: seq<Message>,
                               created: int, model: string, resp: RawCompletion, cacheTtl: int, fSet: bool): (Result<Completion, ChatError>, Entries)
  {
    if p.key.Some? && (messages == [] || resp.choices == []) then (Err(IndexError), m)
    else
      var m' := if p.key.Some? then
        SetXOp(cfg, c, m, p.key.value,
               Conversation(p.prior, messages[|messages| - 1].content, OptStr(resp.choices[0].content)), Some(cacheTtl), fSet)
      else m;
      (CompletionAsWritten(p.id, created, model, resp), m')
  }

  /**
   * As written, the plain path leaves the store exactly as the corrected one
   * does, because the write happens before the construction, and then raises
   * instead of returning: the conversation is cached but the caller gets
   * TypeError.
   */
  lemma CompleteAsWrittenWritesThenRaises(cfg: CacheConfig, c: Codec, m: Entries, p: Prepared, messages: seq<Message>,
                                          created: int, model: string, resp: RawCompletion, cacheTtl: int, fSet: bool)
    ensures var (r, m') := CompleteAsWrittenOp(cfg, c, m, p, messages, created, model, resp, cacheTtl, fSet);
      && m' == CompleteOp(cfg, c, m, p, messages, created, model, resp, cacheTtl, fSet).1
      && r.Err?
      && (resp.choices != [] && (p.key.None? || messages != []) ==> r == Err(TypeError))
      && (resp.choices != [] && (p.key.None? || messages != []) ==> CompleteOp(cfg, c, m, p, messages, created, model, resp, cacheTtl, fSet).0.Ok?)
  {
    CompletionAsWrittenAlwaysRaises(p.id, created, model, resp);
  }

  /**
   * With a key, the plain path stores the context, the last request message
   * and the first choice's content, whatever that content is, and reads it
   * back on the next call; without a key it writes nothing.
   */
  lemma CompleteWritesConversation(cfg: CacheConfig, c: Codec, m: Entries, p: Prepared, messages: seq<Message>,
                                   created: int, model: string, resp: RawCompletion, cacheTtl: int)
    requires CodecOk(c) && cacheTtl > 0
    ensures var (r, m') := CompleteOp(cfg, c, m, p, messages, created, model, resp, cacheTtl, false);
      && (p.key.None? ==> m' == m && r == BuildCompletion(p.id, created, model, resp))
      && (p.key.Some? && messages != [] && resp.choices != [] ==>
            var conv := Conversation(p.prior, messages[|messages| - 1].content, OptStr(resp.choices[0].content));
            r.Ok?
            && (Serl(cfg, c, conv).Some? ==>
                  GetItemOp(cfg, c, m', p.key.value, false, false) == (conv, m')
                  && TtlOp(cfg, m', p.key.value, false) == Some(cacheTtl)))
  {
    if p.key.Some? && messages != [] && resp.choices != [] {
      var conv := Conversation(p.prior, messages[|messages| - 1].content, OptStr(resp.choices[0].content));
      if Serl(cfg, c, conv).Some? {
        SerlDeserlRoundTrip(cfg, c, conv);
      }
    }
  }

  // ---------------------------------------------------------------------
  // The call

  /** How a consumer's traversal of the returned stream ended. */
  datatype StreamEnd = Ended | StoppedEarly | UpstreamRaised(exc: Exc) | GlueRaised(err: ChatError)

  /** The streaming write happens when the stream was drained without error, with a key and some text. */
  predicate Commits(p: Prepared, k: nat, n: nat, err: Option<Exc>, full: string)
  {
    k > n && err.None? && p.key.Some? && Strip(full) != ""
  }

  class ChatCompletion {
    const models: set<string>
    const cache: RedisCache
    const cacheTtl: int

    constructor (models: set<string>, cache: RedisCache, cacheTtl: int)
      ensures this.models == models && this.cache == cache && this.cacheTtl == cacheTtl
    {
      this.models := models;
      this.cache := cache;
      this.cacheTtl := cacheTtl;
    }

    /** The part of `chat` before the upstream call. */
    method Prepare(req: Request, generated: string, sysprompt: string, fGet: bool, fDel: bool)
      returns (r: Result<Prepared, ChatError>)
      modifies cache.store
      ensures (r, cache.store.entries) ==
        PrepareOp(cache.cfg, cache.codec, old(cache.store.entries), models, req, generated, sysprompt, fGet, fDel)
    {
      var cached := PyList([]);
      var key := CacheKey(req.cache, req.cacheKey);
      if key.Some? {
        cached := cache.Get(key.value, PyNone, fGet, fDel);
      }
      var id := ChatId(req.chatcmplId, generated);
      if req.model !in models {
        return Err(NotFoundError);
      }
      var prior := PriorContext(cached);
      if prior.Err? {
        return Err(prior.error);
      }
      r := Ok(Prepared(key, prior.value, id, MessageList(sysprompt, prior.value, req.messages)));
    }

    /** The plain path after the upstream call. */
    method Complete(p: Prepared, messages: seq<Message>, created: int, model: string, resp: RawCompletion, fSet: bool)
      returns (r: Result<Completion, ChatError>)
      modifies cache.store
      ensures (r, cache.store.entries) ==
        CompleteOp(cache.cfg, cache.codec, old(cache.store.entries), p, messages, created, model, resp, cacheTtl, fSet)
    {
      if p.key.Some? {
        if messages == [] || resp.choices == [] {
          return Err(IndexError);
        }
        var conv := Conversation(p.prior, messages[|messages| - 1].content, OptStr(resp.choices[0].content));
        cache.SetX(p.key.value, conv, Some(cacheTtl), fSet);
      }
      r := BuildCompletion(p.id, created, model, resp);
    }

    /**
     * `cache_on_complete` over the tapped stream, for a consumer that pulls
     * at most `k` chunks: each chunk passes through `collect_content`, and
     * once the mapped stream ends normally the conversation is written
     * before the consumer sees the end.
     */
    method CacheOnComplete(astream: AsyncStream<MappableChunk, Chunk>, p: Prepared, messages: seq<Message>, k: nat, fSet: bool)
      returns (delivered: seq<Chunk>, end: StreamEnd)
      modifies astream, cache.store
      requires astream.Valid() && astream.St() == Fresh()
      ensures var (d, r, st') := TraverseOp(astream.source, astream.mapper, Fresh(), k);
        && delivered == d && astream.St() == st'
        && end == StreamEndOp(p, messages, |astream.source.items|, k, d, r)
        && cache.store.entries ==
             StreamWriteOp(cache.cfg, cache.codec, old(cache.store.entries), p, messages, |astream.source.items|, k, d, r, cacheTtl, fSet)
    {
      ghost var src := astream.source;
      ghost var f := astream.mapper;
      ghost var st0 := astream.St();
      var full := "";
      var g := NotStarted;
      delivered := [];
      while |delivered| < k
        invariant astream.Valid() && astream.source == src && astream.mapper == f
        invariant Progress(src, f, st0, g, astream.St(), delivered) && |delivered| <= k
        invariant full == Contents(delivered)
        invariant cache.store.entries == old(cache.store.entries)
        decreases k - |delivered|
      {
        PullStep(src, f, st0, g, astream.St(), delivered);
        var ev, g' := astream.Pull(g);
        if !ev.Yield? {
          TraverseBeyondEnd(src, f, st0, |delivered| + 1, k);
          FirstTraversal(src, f, k);
          if ev.Raise? {
            end := UpstreamRaised(ev.exc);
            return;
          }
          end := Ended;
          if p.key.Some? && Strip(full) != "" {
            if messages == [] {
              end := GlueRaised(IndexError);
              return;
            }
            cache.SetX(p.key.value, Conversation(p.prior, messages[|messages| - 1].content, PyStr(full)), Some(cacheTtl), fSet);
          }
          return;
        }
        ContentsAppend(delivered, ev.item);
        full := CollectContent(full, ev.item);
        delivered, g := delivered + [ev.item], g';
      }
      CloseStep(src, f, st0, g, astream.St(), delivered);
      astream.Close(g);
      if k > 0 {
        FirstTraversal(src, f, k);
      }
      end := StoppedEarly;
    }

    /**
     * The streaming path: the mapped stream, returned as it is when the cache
     * flag is off, and otherwise wrapped by the tap and `cache_on_complete`.
     */
    method StreamChat(p: Prepared, messages: seq<Message>, created: int, model: string, cacheFlag: bool,
                      upstream: Source<MappableChunk>, k: nat, fSet: bool)
      returns (astream: AsyncStream<MappableChunk, Chunk>, delivered: seq<Chunk>, end: StreamEnd)
      modifies cache.store
      requires p.key.Some? ==> cacheFlag
      ensures fresh(astream) && astream.source == upstream && astream.mapper == ChunkMapper(p.id, created, model)
      ensures var (d, r, st') := TraverseOp(upstream, ChunkMapper(p.id, created, model), Fresh(), k);
        && delivered == d && astream.St() == st'
        && end == StreamEndOp(p, messages, |upstream.items|, k, d, r)
        && cache.store.entries ==
             StreamWriteOp(cache.cfg, cache.codec, old(cache.store.entries), p, messages, |upstream.items|, k, d, r, cacheTtl, fSet)
    {
      astream := new AsyncStream<MappableChunk, Chunk>(upstream, ChunkMapper(p.id, created, model));
      if cacheFlag {
        delivered, end := CacheOnComplete(astream, p, messages, k, fSet);
      } else {
        var raised;
        delivered, raised := astream.Traverse(k);
        if k > 0 {
          FirstTraversal(upstream, astream.mapper, k);
        }
        end := if raised.Some? then UpstreamRaised(raised.value) else if k <= |upstream.items| then StoppedEarly else Ended;
      }
    }
  }

  /** How the consumer's traversal ends, given what a traversal of `k` mapped chunks out of `n` gives. */
  function StreamEndOp(p: Prepared, messages: seq<Message>, n: nat, k: nat, d: seq<Chunk>, r: Option<Exc>): StreamEnd
  {
    if r.Some? then UpstreamRaised(r.value)
    else if k <= n then StoppedEarly
    else if Commits(p, k, n, r, Contents(d)) && messages == [] then GlueRaised(IndexError)
    else Ended
  }

  /** The store after that traversal: the conversation with the collected text, or unchanged. */
  function StreamWriteOp(cfg: CacheConfig, c: Codec, m: Entries, p: Prepared, messages: seq<Message>,
                         n: nat, k: nat, d: seq<Chunk>, r: Option<Exc>, cacheTtl: int, fSet: bool): Entries
  {
    if Commits(p, k, n, r, Contents(d)) && messages != [] then
      SetXOp(cfg, c, m, p.key.value, Conversation(p.prior, messages[|messages| - 1].content, PyStr(Contents(d))), Some(cacheTtl), fSet)
    else m
  }

  /**
   * A consumer that stops early, or sees an upstream exception, leaves the
   * cache as it was; a write happens only after every mapped chunk was
   * delivered and their text is not blank.
   */
  lemma StreamWritesOnlyWhenDrained(cfg: CacheConfig, c: Codec, m: Entries, p: Prepared, messages: seq<Message>,
                                    upstream: Source<MappableChunk>, f: MappableChunk -> Chunk, k: nat, cacheTtl: int, fSet: bool)
    ensures var n := |upstream.items|;
      var (d, r, _) := TraverseOp(upstream, f, Fresh(), k);
      && (k <= n || upstream.err.Some? || p.key.None? || messages == [] ==>
            StreamWriteOp(cfg, c, m, p, messages, n, k, d, r, cacheTtl, fSet) == m)
      && (Commits(p, k, n, r, Contents(d)) ==> d == MapSeq(f, upstream.items) && Strip(Contents(d)) != "")
  {
    if k > 0 {
      FirstTraversal(upstream, f, k);
    }
  }

  /** The streaming write stores the collected text after the context and the last request message, where the next lookup finds it. */
  lemma StreamWriteReadsBack(cfg: CacheConfig, c: Codec, m: Entries, p: Prepared, messages: seq<Message>,
                             n: nat, k: nat, d: seq<Chunk>, cacheTtl: int)
    requires CodecOk(c) && cacheTtl > 0
    requires Commits(p, k, n, None, Contents(d)) && messages != []
    requires Serl(cfg, c, Conversation(p.prior, messages[|messages| - 1].content, PyStr(Contents(d)))).Some?
    ensures var conv := Conversation(p.prior, messages[|messages| - 1].content, PyStr(Contents(d)));
      var m' := StreamWriteOp(cfg, c, m, p, messages, n, k, d, None, cacheTtl, false);
      && GetItemOp(cfg, c, m', p.key.value, false, false) == (conv, m')
      && TtlOp(cfg, m', p.key.value, false) == Some(cacheTtl)
  {
    var conv := Conversation(p.prior, messages[|messages| - 1].content, PyStr(Contents(d)));
    assert StreamWriteOp(cfg, c, m, p, messages, n, k, d, None, cacheTtl, false) == SetXOp(cfg, c, m, p.key.value, conv, Some(cacheTtl), false);
    SetXThenGet(cfg, c, m, p.key.value, conv, cacheTtl);
  }
}
