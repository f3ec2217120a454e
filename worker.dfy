/**
 * The background AI task: look the conversation up in the reply cache, otherwise frame it
 * behind the trading-assistant system prompt, ask the language model and cache its reply
 * for an hour. Also the analytics task, which records one action per user and kind.
 */
module AiProcessing {
  import opened Wrappers
  import opened JsonValue
  import opened Store

  /** One turn of a conversation as the client sends it. */
  datatype ChatMessage = ChatMessage(role: string, content: string)

  /** The two system prompts in use: the background task's and the gateway's fallback's. */
  datatype Prompt = WorkerPrompt | FallbackPrompt

  /** A message as sent to the language model. */
  datatype Framed = System(prompt: Prompt) | Turn(role: string, content: string)

  /** What the language model call gives back: the first choice's content (which the API
      may leave null), or an exception. */
  datatype Completion = Replied(content: Option<string>) | Raised

  /** A language model: a reply for each framed conversation. */
  type Model = seq<Framed> -> Completion

  /** A digest function on text, such as the MD5 hex digest. */
  type Digest = string -> string

  /** The background task's return value, or the failure that `task.get` re-raises. */
  datatype TaskResult = TaskReturned(reply: Json, fromCache: bool, taskId: string) | TaskFailed

  const ReplyTtlSeconds: int := 3600
  const AnalyticsTtlSeconds: int := 86400

  /** The conversation behind a system prompt, turn for turn. */
  function Frame(prompt: Prompt, messages: seq<ChatMessage>): (r: seq<Framed>)
    ensures |r| == |messages| + 1 && r[0] == System(prompt)
    ensures forall i | 0 <= i < |messages| :: r[i + 1] == Turn(messages[i].role, messages[i].content)
  {
    [System(prompt)] + seq(|messages|, i requires 0 <= i < |messages| => Turn(messages[i].role, messages[i].content))
  }

  /** Builds the framed conversation one message at a time. */
  method FrameMessages(prompt: Prompt, messages: seq<ChatMessage>) returns (framed: seq<Framed>)
    ensures framed == Frame(prompt, messages)
  {
    framed := [System(prompt)];
    var i := 0;
    while i < |messages|
      invariant 0 <= i <= |messages|
      invariant |framed| == i + 1 && framed[0] == System(prompt)
      invariant forall k | 0 <= k < i :: framed[k + 1] == Turn(messages[k].role, messages[k].content)
    {
      framed := framed + [Turn(messages[i].role, messages[i].content)];
      i := i + 1;
    }
  }

  // ---- the cache key ----

  function Quote(s: string): string {
    "'" + s + "'"
  }

  function RenderMessage(m: ChatMessage): string {
    "{'role': " + Quote(m.role) + ", 'content': " + Quote(m.content) + "}"
  }

  function RenderItems(messages: seq<ChatMessage>): string
    decreases |messages|
  {
    if |messages| == 0 then ""
    else if |messages| == 1 then RenderMessage(messages[0])
    else RenderMessage(messages[0]) + ", " + RenderItems(messages[1..])
  }

  /** `str(messages)` for a list of role/content dicts. */
  function Render(messages: seq<ChatMessage>): string {
    "[" + RenderItems(messages) + "]"
  }

  /** The key under which a user's conversation's reply is cached. */
  function ReplyKey(userId: int, messages: seq<ChatMessage>, md5: Digest): (r: string)
    ensures NamespaceOf(r) == AiResponses
  {
    AiResponseKey(userId, md5(Render(messages)))
  }

  /** A completion's content as the background task returns and caches it (null when absent). */
  function ReplyJson(c: Option<string>): Json {
    if c.Some? then JStr(c.value) else JNull
  }

  function CachedReply(reply: Json): (r: Json)
    ensures Truthy(r) && Member(r, "reply") == Some(reply)
  {
    JObj(map["reply" := reply])
  }

  /** Whether a completion goes into the reply cache: as written, even a null one. */
  predicate Caches(rev: Revision, c: Option<string>) {
    rev == AsWritten || c.Some?
  }

  /** A cache entry the gateway can serve: either nothing (a miss) or an object whose
      "reply" is a string. */
  predicate ServableCache(s: StoreState, key: string) {
    var cached := GetSpec(s, key);
    Truthy(cached) ==> Member(cached, "reply").Some? && Member(cached, "reply").value.JStr?
  }

  /** `process_ai_request_async` run to completion on the store state `s`. */
  function ProcessSpec(rev: Revision, s: StoreState, messages: seq<ChatMessage>, userId: int, md5: Digest, llm: Model, taskId: string)
    : (r: (StoreState, TaskResult))
    ensures r.0.data - {ReplyKey(userId, messages, md5)} == s.data - {ReplyKey(userId, messages, md5)}
    ensures r.0.now == s.now && r.0.up == s.up
    ensures Truthy(GetSpec(s, ReplyKey(userId, messages, md5))) ==>
      r.0 == s
      && r.1 == (match Member(GetSpec(s, ReplyKey(userId, messages, md5)), "reply")
                 case Some(reply) => TaskReturned(reply, true, taskId)
                 case None => TaskFailed)
    ensures r.1.TaskReturned? && !r.1.fromCache ==>
      llm(Frame(WorkerPrompt, messages)).Replied?
      && ReplyJson(llm(Frame(WorkerPrompt, messages)).content) == r.1.reply
    ensures r.1.TaskReturned? && !r.1.fromCache && s.up && Caches(rev, llm(Frame(WorkerPrompt, messages)).content) ==>
      GetSpec(r.0, ReplyKey(userId, messages, md5)) == CachedReply(r.1.reply)
    ensures r.1.TaskFailed? && !Truthy(GetSpec(s, ReplyKey(userId, messages, md5))) ==> r.0 == s
    ensures !Truthy(GetSpec(s, ReplyKey(userId, messages, md5))) && llm(Frame(WorkerPrompt, messages)).Replied? ==>
      r.1 == TaskReturned(ReplyJson(llm(Frame(WorkerPrompt, messages)).content), false, taskId)
    ensures !Truthy(GetSpec(s, ReplyKey(userId, messages, md5))) && llm(Frame(WorkerPrompt, messages)).Raised? ==>
      r == (s, TaskFailed)
  {
    var key := ReplyKey(userId, messages, md5);
    var cached := GetSpec(s, key);
    if Truthy(cached) then
      match Member(cached, "reply")
      case Some(reply) => (s, TaskReturned(reply, true, taskId))
      case None => (s, TaskFailed)
    else
      match llm(Frame(WorkerPrompt, messages))
      case Raised => (s, TaskFailed)
      case Replied(c) =>
        var s1 := if Caches(rev, c) then SetSpec(s, key, CachedReply(ReplyJson(c)), ReplyTtlSeconds).0 else s;
        (s1, TaskReturned(ReplyJson(c), false, taskId))
  }

  /** The background task writes nothing but the reply it caches. */
  lemma ProcessLog(rev: Revision, s: StoreState, messages: seq<ChatMessage>, userId: int, md5: Digest, llm: Model, taskId: string)
    ensures var s1 := ProcessSpec(rev, s, messages, userId, md5, llm, taskId).0;
      s.log <= s1.log && forall i | |s.log| <= i < |s1.log| :: s1.log[i] == Wrote(ReplyKey(userId, messages, md5))
  {
  }

  /** The background task never touches anyone's daily quota counter: keys of the two kinds differ. */
  lemma ProcessSparesQuota(rev: Revision, s: StoreState, messages: seq<ChatMessage>, userId: int, md5: Digest, llm: Model,
                           taskId: string, anyone: int)
    ensures var s1 := ProcessSpec(rev, s, messages, userId, md5, llm, taskId).0;
      s.log <= s1.log && !Touches(Written(s, s1), DailyQueriesKey(anyone))
  {
    var s1 := ProcessSpec(rev, s, messages, userId, md5, llm, taskId).0;
    ProcessLog(rev, s, messages, userId, md5, llm, taskId);
    assert ReplyKey(userId, messages, md5) != DailyQueriesKey(anyone) by {
      assert NamespaceOf(ReplyKey(userId, messages, md5)) != NamespaceOf(DailyQueriesKey(anyone));
    }
    forall i | 0 <= i < |Written(s, s1)|
      ensures Written(s, s1)[i].key != DailyQueriesKey(anyone)
    {
      assert Written(s, s1)[i] == s1.log[|s.log| + i];
    }
  }

  /** Asking again at once with the same conversation is answered from the cache with the
      same reply, as long as the store answers and the reply was cached. */
  lemma RepeatIsServedFromCache(rev: Revision, s: StoreState, messages: seq<ChatMessage>, userId: int, md5: Digest, llm: Model,
                                firstId: string, secondId: string)
    requires s.up
    requires ProcessSpec(rev, s, messages, userId, md5, llm, firstId).1.TaskReturned?
    requires rev == AsWritten || ProcessSpec(rev, s, messages, userId, md5, llm, firstId).1.reply.JStr?
    ensures var (s1, first) := ProcessSpec(rev, s, messages, userId, md5, llm, firstId);
      ProcessSpec(rev, s1, messages, userId, md5, llm, secondId) == (s1, TaskReturned(first.reply, true, secondId))
  {
  }

  /** As written, a null completion is cached as `{"reply": null}`: a truthy entry whose
      reply the gateway cannot serve. */
  lemma NullReplyPoisonsCache(s: StoreState, messages: seq<ChatMessage>, userId: int, md5: Digest, llm: Model, taskId: string)
    requires s.up && !Truthy(GetSpec(s, ReplyKey(userId, messages, md5)))
    requires llm(Frame(WorkerPrompt, messages)) == Replied(None)
    ensures !ServableCache(ProcessSpec(AsWritten, s, messages, userId, md5, llm, taskId).0, ReplyKey(userId, messages, md5))
  {
    var key := ReplyKey(userId, messages, md5);
    var s1 := ProcessSpec(AsWritten, s, messages, userId, md5, llm, taskId).0;
    assert GetSpec(s1, key) == CachedReply(JNull);
  }

  /** Corrected, the background task only ever caches string replies, so the entry stays servable. */
  lemma CorrectedCacheStaysServable(s: StoreState, messages: seq<ChatMessage>, userId: int, md5: Digest, llm: Model, taskId: string)
    requires ServableCache(s, ReplyKey(userId, messages, md5))
    ensures ServableCache(ProcessSpec(Corrected, s, messages, userId, md5, llm, taskId).0, ReplyKey(userId, messages, md5))
  {
  }

  method ProcessAiRequest(store: KeyValueStore, messages: seq<ChatMessage>, userId: int, md5: Digest, llm: Model, taskId: string)
    returns (r: TaskResult)
    modifies store
    ensures (store.State(), r) == ProcessSpec(AsWritten, old(store.State()), messages, userId, md5, llm, taskId)
  {
    var key := ReplyKey(userId, messages, md5);
    var cached := store.Get(key);
    if Truthy(cached) {
      match Member(cached, "reply") {
        case Some(reply) => return TaskReturned(reply, true, taskId);
        case None => return TaskFailed;
      }
    }
    var framed := FrameMessages(WorkerPrompt, messages);
    match llm(framed) {
      case Raised =>
        r := TaskFailed;
      case Replied(c) =>
        var _ := store.Set(key, CachedReply(ReplyJson(c)), ReplyTtlSeconds);
        r := TaskReturned(ReplyJson(c), false, taskId);
    }
  }

  // ---- analytics ----

  /** The record kept for a user's action: `metadata or {}`, and the shared clock entry
      `current_timestamp` or "unknown". */
  function AnalyticsRecord(userId: int, action: string, metadata: Json, timestamp: Json): (r: Json)
    ensures Member(r, "user_id") == Some(JInt(userId)) && Member(r, "action") == Some(JStr(action))
    ensures Member(r, "timestamp").Some? && Truthy(Member(r, "timestamp").value)
    ensures Truthy(metadata) ==> Member(r, "metadata") == Some(metadata)
    ensures !Truthy(metadata) ==> Member(r, "metadata") == Some(JObj(map[]))
  {
    JObj(map[
      "user_id" := JInt(userId),
      "action" := JStr(action),
      "metadata" := if Truthy(metadata) then metadata else JObj(map[]),
      "timestamp" := if Truthy(timestamp) then timestamp else JStr("unknown")])
  }

  /** `update_user_analytics`: the latest record per user and action, kept for a day. */
  function AnalyticsSpec(s: StoreState, userId: int, action: string, metadata: Json): (r: StoreState)
    ensures r.data - {AnalyticsKey(userId, action)} == s.data - {AnalyticsKey(userId, action)}
    ensures s.up ==> (Slot(r, AnalyticsKey(userId, action)) ==
      Some(Entry(Doc(AnalyticsRecord(userId, action, metadata, GetSpec(s, "current_timestamp"))),
                 Some(s.now + AnalyticsTtlSeconds * MicrosPerSecond))))
    ensures !s.up ==> r == s
  {
    var record := AnalyticsRecord(userId, action, metadata, GetSpec(s, "current_timestamp"));
    SetSpec(s, AnalyticsKey(userId, action), record, AnalyticsTtlSeconds).0
  }

  method UpdateUserAnalytics(store: KeyValueStore, userId: int, action: string, metadata: Json) returns (status: string)
    modifies store
    ensures store.State() == AnalyticsSpec(old(store.State()), userId, action, metadata)
    ensures status == "success"
  {
    var timestamp := store.Get("current_timestamp");
    var record := AnalyticsRecord(userId, action, metadata, timestamp);
    var _ := store.Set(AnalyticsKey(userId, action), record, AnalyticsTtlSeconds);
    status := "success";
  }
}
