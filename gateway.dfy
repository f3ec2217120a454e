/**
 * The AI chat endpoint and the query-count endpoint. A chat request passes the burst
 * limiter, a read-only look at the daily quota, the reply cache, the background task
 * (waited on for a bounded time) and, when the background task fails, a synchronous fallback; the
 * daily quota is charged ("committed") only after a reply was produced.
 *
 * The read-only quota look-up the endpoints call does not exist in the rate limiter; the
 * flow is modelled with it taken from `RateLimiting.PeekSpec`, and the flow as it actually
 * runs is `ChatMissingPeek`.
 */
module Gateway {
  import opened Wrappers
  import opened JsonValue
  import opened Store
  import opened RateLimiting
  import opened AiProcessing
  import opened ChartAnalysis

  const BurstEndpoint: string := "ai_chat"
  const BurstLimit: int := 10
  const BurstWindowSeconds: int := 60

  /** The body of a successful chat response. */
  datatype ChatReply = ChatReply(
    reply: string,
    used: int,
    limit: int,
    fromCache: bool,
    taskId: Option<string>,
    chartUpdate: Option<ChartAnalysisResult>)

  /** What the client gets: a reply, a 429, or a 500. */
  datatype ChatOutcome = Answered(response: ChatReply) | TooManyRequests | ServerError

  /** How handing the conversation to the background task goes: the broker refuses the
      task, the bounded wait runs out, or the background task runs to completion under an id. */
  datatype Dispatch = BrokerDown | TimedOut | Completed(taskId: string)

  /** The state after (part of) a request, its outcome, and how many daily commits it made. */
  type Step = (StoreState, ChatOutcome, nat)

  /** The text the chart analysis looks at: the latest message, or "" for none. */
  function LatestContent(messages: seq<ChatMessage>): (r: string)
    ensures |messages| > 0 ==> r == messages[|messages| - 1].content
    ensures |messages| == 0 ==> r == ""
  {
    if |messages| > 0 then messages[|messages| - 1].content else ""
  }

  function ChartUpdate(chart: ChartAnalysisResult): (r: Option<ChartAnalysisResult>)
    ensures r.Some? <==> chart.needsChartUpdate
  {
    if chart.needsChartUpdate then Some(chart) else None
  }

  /** The commits a request should make: one for a reply that did not come from a cache. */
  function Charged(o: ChatOutcome): nat {
    if o.Answered? && !o.response.fromCache then 1 else 0
  }

  /** The synchronous fallback: ask the model behind the gateway's own prompt, cache the
      reply for an hour, commit, and answer; a null reply fails validation after the commit. */
  function FallbackSpec(rev: Revision, s: StoreState, userId: int, plan: string, messages: seq<ChatMessage>,
                        md5: Digest, llm: Model, update: Option<ChartAnalysisResult>): (r: Step)
    ensures r.2 <= 1
    ensures r.1 != TooManyRequests
    ensures r.1.Answered? ==> !r.1.response.fromCache && r.1.response.taskId.None? && r.2 == 1
    ensures r.1.Answered? ==> llm(Frame(FallbackPrompt, messages)) == Replied(Some(r.1.response.reply))
    ensures rev == Corrected ==> r.2 == Charged(r.1)
    ensures r.1.Answered? ==> r.1.response.chartUpdate == update
    ensures r.0.now == s.now && r.0.up == s.up
    ensures llm(Frame(FallbackPrompt, messages)).Raised? ==> r == (s, ServerError, 0)
    ensures llm(Frame(FallbackPrompt, messages)).Replied? && llm(Frame(FallbackPrompt, messages)).content.Some? ==>
      r.1.Answered? && r.1.response.reply == llm(Frame(FallbackPrompt, messages)).content.value
      && r.1.response.limit == DailyLimit(plan)
      && (s.up ==> GetSpec(r.0, ReplyKey(userId, messages, md5)) == CachedReply(JStr(r.1.response.reply)))
  {
    match llm(Frame(FallbackPrompt, messages))
    case Raised => (s, ServerError, 0)
    case Replied(c) =>
      var s1 := if Caches(rev, c) then SetSpec(s, ReplyKey(userId, messages, md5), CachedReply(ReplyJson(c)), ReplyTtlSeconds).0 else s;
      if rev == Corrected && c.None? then (s1, ServerError, 0)
      else
        var (s2, info) := DailyQuerySpec(s1, userId, plan);
        ReplyKeyIsNotCounter(userId, messages, md5, userId);
        SlotUnaffected(s1, s2, DailyQueriesKey(userId), ReplyKey(userId, messages, md5));
        if c.Some? then (s2, Answered(ChatReply(c.value, info.used, info.dailyLimit, false, None, update)), 1)
        else (s2, ServerError, 1)
  }

  /** What follows a completed task: commit unless it answered from its own cache, then build
      the response, whose validation fails on a reply that is not a string. As written that
      failure lands in the fallback after the commit; corrected, the reply is checked first. */
  function AfterTaskSpec(rev: Revision, s: StoreState, peek: QuotaInfo, result: TaskResult, userId: int, plan: string,
                         messages: seq<ChatMessage>, md5: Digest, llm: Model, update: Option<ChartAnalysisResult>): (r: Step)
    ensures r.2 <= 2
    ensures r.1 != TooManyRequests
    ensures r.1.Answered? && r.1.response.fromCache ==> r.2 == 0
    ensures r.1.Answered? && !r.1.response.fromCache ==> r.2 >= 1
    ensures rev == Corrected ==> r.2 == Charged(r.1)
    ensures r.1.Answered? ==> r.1.response.chartUpdate == update
    ensures r.0.now == s.now && r.0.up == s.up
    ensures result.TaskFailed? ==> r == FallbackSpec(rev, s, userId, plan, messages, md5, llm, update)
    ensures result.TaskReturned? && result.reply.JStr? ==>
      r.1.Answered? && r.1.response.reply == result.reply.s && r.1.response.taskId == Some(result.taskId)
      && r.1.response.fromCache == result.fromCache
      && (result.fromCache ==> r.0 == s && r.1.response.used == peek.used && r.1.response.limit == peek.dailyLimit)
      && (!result.fromCache ==>
            r.0 == DailyQuerySpec(s, userId, plan).0 && r.1.response.used == DailyQuerySpec(s, userId, plan).1.used
            && r.1.response.limit == DailyLimit(plan))
    ensures rev == Corrected && result.TaskReturned? && !result.reply.JStr? ==>
      r == FallbackSpec(rev, s, userId, plan, messages, md5, llm, update)
    ensures rev == AsWritten && result.TaskReturned? && !result.reply.JStr? && !result.fromCache ==>
      var f := FallbackSpec(rev, DailyQuerySpec(s, userId, plan).0, userId, plan, messages, md5, llm, update);
      r == (f.0, f.1, 1 + f.2)
  {
    match result
    case TaskFailed => FallbackSpec(rev, s, userId, plan, messages, md5, llm, update)
    case TaskReturned(reply, fromCache, taskId) =>
      if rev == Corrected && !reply.JStr? then FallbackSpec(rev, s, userId, plan, messages, md5, llm, update)
      else
        var (s1, info) := if fromCache then (s, peek) else DailyQuerySpec(s, userId, plan);
        var commits: nat := if fromCache then 0 else 1;
        if reply.JStr? then (s1, Answered(ChatReply(reply.s, info.used, info.dailyLimit, fromCache, Some(taskId), update)), commits)
        else
          var (s2, o, k) := FallbackSpec(rev, s1, userId, plan, messages, md5, llm, update);
          (s2, o, commits + k)
  }

  /** After the two checks: the reply cache, then the background task. A cached entry whose
      reply is not a string fails validation outside the fallback's reach. */
  function ServeSpec(rev: Revision, s: StoreState, peek: QuotaInfo, userId: int, plan: string, messages: seq<ChatMessage>,
                     md5: Digest, llm: Model, dispatch: Dispatch, update: Option<ChartAnalysisResult>): (r: Step)
    ensures r.2 <= 2
    ensures r.1 != TooManyRequests
    ensures r.1.Answered? && r.1.response.fromCache ==> r.2 == 0
    ensures r.1.Answered? && !r.1.response.fromCache ==> r.2 >= 1
    ensures rev == Corrected ==> r.2 == Charged(r.1)
    ensures Truthy(GetSpec(s, ReplyKey(userId, messages, md5))) ==> r.0 == s && r.2 == 0
    ensures r.1.Answered? ==> r.1.response.chartUpdate == update
    ensures r.0.now == s.now && r.0.up == s.up
    ensures var cached := GetSpec(s, ReplyKey(userId, messages, md5));
      Truthy(cached) ==>
        r.1 == if Member(cached, "reply").Some? && Member(cached, "reply").value.JStr?
               then Answered(ChatReply(Member(cached, "reply").value.s, peek.used, peek.dailyLimit, true, None, update))
               else ServerError
    ensures !Truthy(GetSpec(s, ReplyKey(userId, messages, md5))) && dispatch == BrokerDown ==> r == (s, ServerError, 0)
    ensures !Truthy(GetSpec(s, ReplyKey(userId, messages, md5))) && dispatch == TimedOut ==>
      r == FallbackSpec(rev, s, userId, plan, messages, md5, llm, update)
    ensures !Truthy(GetSpec(s, ReplyKey(userId, messages, md5))) && dispatch.Completed? ==>
      var (s1, result) := ProcessSpec(rev, s, messages, userId, md5, llm, dispatch.taskId);
      r == AfterTaskSpec(rev, s1, peek, result, userId, plan, messages, md5, llm, update)
  {
    var cached := GetSpec(s, ReplyKey(userId, messages, md5));
    if Truthy(cached) then
      match Member(cached, "reply")
      case Some(JStr(text)) => (s, Answered(ChatReply(text, peek.used, peek.dailyLimit, true, None, update)), 0)
      case _ => (s, ServerError, 0)
    else
      match dispatch
      case BrokerDown => (s, ServerError, 0)
      case TimedOut => FallbackSpec(rev, s, userId, plan, messages, md5, llm, update)
      case Completed(taskId) =>
        var (s1, result) := ProcessSpec(rev, s, messages, userId, md5, llm, taskId);
        AfterTaskSpec(rev, s1, peek, result, userId, plan, messages, md5, llm, update)
  }

  /** `chat_with_ai_coach` with the read-only quota look-up in place. */
  function ChatSpec(rev: Revision, s: StoreState, userId: int, plan: string, messages: seq<ChatMessage>,
                    md5: Digest, llm: Model, dispatch: Dispatch, chart: ChartAnalysisResult): (r: Step)
    ensures r.2 <= 2
    ensures r.1.Answered? && r.1.response.fromCache ==> r.2 == 0
    ensures r.1.Answered? && !r.1.response.fromCache ==> r.2 >= 1
    ensures rev == Corrected ==> r.2 == Charged(r.1)
    ensures r.1.Answered? ==> r.1.response.chartUpdate == ChartUpdate(chart)
    ensures r.1 == TooManyRequests ==>
      r.2 == 0 && r.0.data - {RateLimitKey(userId, BurstEndpoint)} == s.data - {RateLimitKey(userId, BurstEndpoint)}
    ensures var (s1, rate) := RateLimitSpec(s, userId, BurstEndpoint, BurstLimit, BurstWindowSeconds);
      r.1 == TooManyRequests <==> !rate.allowed || PeekSpec(s1, userId, plan).used >= PeekSpec(s1, userId, plan).dailyLimit
    ensures var (s1, rate) := RateLimitSpec(s, userId, BurstEndpoint, BurstLimit, BurstWindowSeconds);
      rate.allowed && PeekSpec(s1, userId, plan).used < PeekSpec(s1, userId, plan).dailyLimit ==>
        r == ServeSpec(rev, s1, PeekSpec(s1, userId, plan), userId, plan, messages, md5, llm, dispatch, ChartUpdate(chart))
    ensures r.0.now == s.now && r.0.up == s.up
  {
    var (s1, rate) := RateLimitSpec(s, userId, BurstEndpoint, BurstLimit, BurstWindowSeconds);
    if !rate.allowed then (s1, TooManyRequests, 0)
    else
      var peek := PeekSpec(s1, userId, plan);
      if peek.used >= peek.dailyLimit then (s1, TooManyRequests, 0)
      else ServeSpec(rev, s1, peek, userId, plan, messages, md5, llm, dispatch, ChartUpdate(chart))
  }

  /** A user whose daily quota is used up is refused with a 429 before the cache or the
      background task is consulted: whatever the cache, the model and the broker, the
      burst counter is the only key written and nothing is charged. */
  lemma ExhaustedQuotaRefused(rev: Revision, s: StoreState, userId: int, plan: string, messages: seq<ChatMessage>,
                              md5: Digest, llm: Model, dispatch: Dispatch, chart: ChartAnalysisResult)
    requires var (s1, rate) := RateLimitSpec(s, userId, BurstEndpoint, BurstLimit, BurstWindowSeconds);
      PeekSpec(s1, userId, plan).used >= PeekSpec(s1, userId, plan).dailyLimit
    ensures var r := ChatSpec(rev, s, userId, plan, messages, md5, llm, dispatch, chart);
      r.1 == TooManyRequests && r.2 == 0 && r.0 == RateLimitSpec(s, userId, BurstEndpoint, BurstLimit, BurstWindowSeconds).0
  {
  }

  /** A reply that did not come from a cache is left in the reply cache for the next
      request, by the background task or by the fallback, as long as the store answers. */
  lemma FreshAnswerCached(rev: Revision, s: StoreState, peek: QuotaInfo, userId: int, plan: string, messages: seq<ChatMessage>,
                          md5: Digest, llm: Model, dispatch: Dispatch, update: Option<ChartAnalysisResult>)
    requires s.up
    ensures var r := ServeSpec(rev, s, peek, userId, plan, messages, md5, llm, dispatch, update);
      r.1.Answered? && !r.1.response.fromCache ==>
        GetSpec(r.0, ReplyKey(userId, messages, md5)) == CachedReply(JStr(r.1.response.reply))
  {
    var key := ReplyKey(userId, messages, md5);
    if !Truthy(GetSpec(s, key)) && dispatch.Completed? {
      var (s1, result) := ProcessSpec(rev, s, messages, userId, md5, llm, dispatch.taskId);
      if result.TaskReturned? && result.reply.JStr? && !result.fromCache {
        ReplyKeyIsNotCounter(userId, messages, md5, userId);
        SlotUnaffected(s1, DailyQuerySpec(s1, userId, plan).0, DailyQueriesKey(userId), key);
      }
    }
  }

  /** The same conversation asked again at once, with room left under both limits, is
      answered from the cache with the same reply and is not charged. */
  lemma RepeatServedFromCache(rev: Revision, s: StoreState, userId: int, plan: string, messages: seq<ChatMessage>,
                              md5: Digest, llm: Model, dispatch: Dispatch, again: Dispatch, chart: ChartAnalysisResult)
    requires s.up
    requires ChatSpec(rev, s, userId, plan, messages, md5, llm, dispatch, chart).1.Answered?
    requires var s1 := ChatSpec(rev, s, userId, plan, messages, md5, llm, dispatch, chart).0;
      BurstOpen(s1, userId) && QuotaOpen(s1, userId, plan)
    ensures var r := ChatSpec(rev, s, userId, plan, messages, md5, llm, dispatch, chart);
      var r2 := ChatSpec(rev, r.0, userId, plan, messages, md5, llm, again, chart);
      r2.1.Answered? && r2.1.response.fromCache && r2.1.response.reply == r.1.response.reply && r2.2 == 0
  {
    var key := ReplyKey(userId, messages, md5);
    var burst := RateLimitKey(userId, BurstEndpoint);
    assert burst != key by {
      assert NamespaceOf(burst) != NamespaceOf(key);
    }
    var r := ChatSpec(rev, s, userId, plan, messages, md5, llm, dispatch, chart);
    var (s1, rate) := RateLimitSpec(s, userId, BurstEndpoint, BurstLimit, BurstWindowSeconds);
    var peek := PeekSpec(s1, userId, plan);
    assert r == ServeSpec(rev, s1, peek, userId, plan, messages, md5, llm, dispatch, ChartUpdate(chart));
    if !r.1.response.fromCache {
      FreshAnswerCached(rev, s1, peek, userId, plan, messages, md5, llm, dispatch, ChartUpdate(chart));
    }
    assert Member(GetSpec(r.0, key), "reply") == Some(JStr(r.1.response.reply));
    var (t1, rate2) := RateLimitSpec(r.0, userId, BurstEndpoint, BurstLimit, BurstWindowSeconds);
    SlotUnaffected(r.0, t1, burst, key);
    ChecksPass(r.0, userId, plan, key);
  }

  // ---- charging: the daily counter against the commits ----

  lemma ReplyKeyIsNotCounter(userId: int, messages: seq<ChatMessage>, md5: Digest, anyone: int)
    ensures ReplyKey(userId, messages, md5) != DailyQueriesKey(anyone)
  {
    assert NamespaceOf(ReplyKey(userId, messages, md5)) != NamespaceOf(DailyQueriesKey(anyone));
  }

  /** A write elsewhere keeps room under the daily limit. */
  lemma QuotaOpenKept(s: StoreState, s1: StoreState, written: string, userId: int, plan: string)
    requires QuotaOpen(s, userId, plan)
    requires s1.data - {written} == s.data - {written} && s1.now == s.now && s1.up == s.up
    requires written != DailyQueriesKey(userId)
    ensures QuotaOpen(s1, userId, plan)
  {
    SlotUnaffected(s, s1, written, DailyQueriesKey(userId));
  }

  /** The fallback increments the daily counter at most as often as it commits; corrected and
      with room left, exactly as often. */
  lemma FallbackCharges(rev: Revision, s: StoreState, userId: int, plan: string, messages: seq<ChatMessage>,
                        md5: Digest, llm: Model, update: Option<ChartAnalysisResult>)
    ensures var r := FallbackSpec(rev, s, userId, plan, messages, md5, llm, update);
      s.log <= r.0.log && Increments(Written(s, r.0), DailyQueriesKey(userId)) <= r.2
      && (QuotaOpen(s, userId, plan) ==> Increments(Written(s, r.0), DailyQueriesKey(userId)) == r.2)
  {
    var counter := DailyQueriesKey(userId);
    var r := FallbackSpec(rev, s, userId, plan, messages, md5, llm, update);
    assert Written(s, s) == [];
    match llm(Frame(FallbackPrompt, messages)) {
      case Raised =>
      case Replied(c) =>
        var key := ReplyKey(userId, messages, md5);
        var s1 := if Caches(rev, c) then SetSpec(s, key, CachedReply(ReplyJson(c)), ReplyTtlSeconds).0 else s;
        SetIncrementsNothing(s, key, CachedReply(ReplyJson(c)), ReplyTtlSeconds, counter);
        assert s.log <= s1.log && Increments(Written(s, s1), counter) == 0;
        if !(rev == Corrected && c.None?) {
          var s2 := DailyQuerySpec(s1, userId, plan).0;
          DailyQueryLog(s1, userId, plan, counter);
          WrittenChain(s, s1, s2, counter);
          if QuotaOpen(s, userId, plan) {
            ReplyKeyIsNotCounter(userId, messages, md5, userId);
            QuotaOpenKept(s, s1, key, userId, plan);
            OpenQuotaAdmits(s1, userId, plan);
          }
        }
    }
  }

  lemma AfterTaskCharges(rev: Revision, s: StoreState, peek: QuotaInfo, result: TaskResult, userId: int, plan: string,
                         messages: seq<ChatMessage>, md5: Digest, llm: Model, update: Option<ChartAnalysisResult>)
    ensures var r := AfterTaskSpec(rev, s, peek, result, userId, plan, messages, md5, llm, update);
      s.log <= r.0.log && Increments(Written(s, r.0), DailyQueriesKey(userId)) <= r.2
      && (rev == Corrected && QuotaOpen(s, userId, plan) ==> Increments(Written(s, r.0), DailyQueriesKey(userId)) == r.2)
  {
    var counter := DailyQueriesKey(userId);
    assert Written(s, s) == [];
    match result {
      case TaskFailed =>
        FallbackCharges(rev, s, userId, plan, messages, md5, llm, update);
      case TaskReturned(reply, fromCache, taskId) =>
        if rev == Corrected && !reply.JStr? {
          FallbackCharges(rev, s, userId, plan, messages, md5, llm, update);
        } else {
          var s1 := if fromCache then s else DailyQuerySpec(s, userId, plan).0;
          DailyQueryLog(s, userId, plan, counter);
          assert s.log <= s1.log && Increments(Written(s, s1), counter) <= if fromCache then 0 else 1;
          if rev == Corrected && QuotaOpen(s, userId, plan) && !fromCache {
            OpenQuotaAdmits(s, userId, plan);
          }
          if !reply.JStr? {
            FallbackCharges(rev, s1, userId, plan, messages, md5, llm, update);
            var s2 := FallbackSpec(rev, s1, userId, plan, messages, md5, llm, update).0;
            WrittenChain(s, s1, s2, counter);
          }
        }
    }
  }

  lemma ServeCharges(rev: Revision, s: StoreState, peek: QuotaInfo, userId: int, plan: string, messages: seq<ChatMessage>,
                     md5: Digest, llm: Model, dispatch: Dispatch, update: Option<ChartAnalysisResult>)
    ensures var r := ServeSpec(rev, s, peek, userId, plan, messages, md5, llm, dispatch, update);
      s.log <= r.0.log && Increments(Written(s, r.0), DailyQueriesKey(userId)) <= r.2
      && (rev == Corrected && QuotaOpen(s, userId, plan) ==> Increments(Written(s, r.0), DailyQueriesKey(userId)) == r.2)
  {
    var counter := DailyQueriesKey(userId);
    assert Written(s, s) == [];
    if !Truthy(GetSpec(s, ReplyKey(userId, messages, md5))) {
      match dispatch {
        case BrokerDown =>
        case TimedOut =>
          FallbackCharges(rev, s, userId, plan, messages, md5, llm, update);
        case Completed(taskId) =>
          var (s1, result) := ProcessSpec(rev, s, messages, userId, md5, llm, taskId);
          ProcessSparesQuota(rev, s, messages, userId, md5, llm, taskId, userId);
          UntouchedNotIncremented(Written(s, s1), counter);
          AfterTaskCharges(rev, s1, peek, result, userId, plan, messages, md5, llm, update);
          var s2 := AfterTaskSpec(rev, s1, peek, result, userId, plan, messages, md5, llm, update).0;
          WrittenChain(s, s1, s2, counter);
          if QuotaOpen(s, userId, plan) {
            ReplyKeyIsNotCounter(userId, messages, md5, userId);
            QuotaOpenKept(s, s1, ReplyKey(userId, messages, md5), userId, plan);
          }
      }
    }
  }

  /** A chat request increments the user's daily counter at most as often as it commits. */
  lemma ChatCharges(rev: Revision, s: StoreState, userId: int, plan: string, messages: seq<ChatMessage>,
                    md5: Digest, llm: Model, dispatch: Dispatch, chart: ChartAnalysisResult)
    ensures var r := ChatSpec(rev, s, userId, plan, messages, md5, llm, dispatch, chart);
      s.log <= r.0.log && Increments(Written(s, r.0), DailyQueriesKey(userId)) <= r.2
  {
    var counter := DailyQueriesKey(userId);
    var (s1, rate) := RateLimitSpec(s, userId, BurstEndpoint, BurstLimit, BurstWindowSeconds);
    RateLimitSparesQuota(s, userId, BurstEndpoint, BurstLimit, BurstWindowSeconds, userId);
    if rate.allowed {
      var peek := PeekSpec(s1, userId, plan);
      if peek.used < peek.dailyLimit {
        ServeCharges(rev, s1, peek, userId, plan, messages, md5, llm, dispatch, ChartUpdate(chart));
        var s2 := ServeSpec(rev, s1, peek, userId, plan, messages, md5, llm, dispatch, ChartUpdate(chart)).0;
        WrittenChain(s, s1, s2, counter);
      }
    }
  }

  /** Corrected, the daily counter goes up exactly once for each reply that did not come
      from a cache, and never otherwise, while the store answers and the counter is sound. */
  lemma CorrectedChargesExactlyOnce(s: StoreState, userId: int, plan: string, messages: seq<ChatMessage>,
                                    md5: Digest, llm: Model, dispatch: Dispatch, chart: ChartAnalysisResult)
    requires s.up && IsCounter(s, DailyQueriesKey(userId))
    ensures var r := ChatSpec(Corrected, s, userId, plan, messages, md5, llm, dispatch, chart);
      s.log <= r.0.log && Increments(Written(s, r.0), DailyQueriesKey(userId)) == Charged(r.1)
  {
    var counter := DailyQueriesKey(userId);
    var (s1, rate) := RateLimitSpec(s, userId, BurstEndpoint, BurstLimit, BurstWindowSeconds);
    RateLimitSparesQuota(s, userId, BurstEndpoint, BurstLimit, BurstWindowSeconds, userId);
    if rate.allowed {
      var peek := PeekSpec(s1, userId, plan);
      if peek.used < peek.dailyLimit {
        assert RateLimitKey(userId, BurstEndpoint) != counter by {
          assert NamespaceOf(RateLimitKey(userId, BurstEndpoint)) != NamespaceOf(counter);
        }
        SlotUnaffected(s, s1, RateLimitKey(userId, BurstEndpoint), counter);
        CountOfCounter(s1, counter);
        assert QuotaOpen(s1, userId, plan);
        ServeCharges(Corrected, s1, peek, userId, plan, messages, md5, llm, dispatch, ChartUpdate(chart));
        var s2 := ServeSpec(Corrected, s1, peek, userId, plan, messages, md5, llm, dispatch, ChartUpdate(chart)).0;
        WrittenChain(s, s1, s2, counter);
      }
    }
  }

  // ---- the findings, stated on concrete situations ----

  /** Room left under the burst limit on a counter the store can increment. */
  predicate BurstOpen(s: StoreState, userId: int) {
    s.up && IsCounter(s, RateLimitKey(userId, BurstEndpoint)) && CounterValue(s, RateLimitKey(userId, BurstEndpoint)) < BurstLimit
  }

  /** With room under both limits the request gets past the checks, the peek reports the
      counter as it stands, and nothing but the burst counter has changed. */
  lemma ChecksPass(s: StoreState, userId: int, plan: string, other: string)
    requires BurstOpen(s, userId) && QuotaOpen(s, userId, plan)
    requires NamespaceOf(other) != RateLimits
    ensures var (s1, rate) := RateLimitSpec(s, userId, BurstEndpoint, BurstLimit, BurstWindowSeconds);
      rate.allowed && QuotaOpen(s1, userId, plan)
      && CounterValue(s1, DailyQueriesKey(userId)) == CounterValue(s, DailyQueriesKey(userId))
      && PeekSpec(s1, userId, plan).used == CounterValue(s, DailyQueriesKey(userId))
      && GetSpec(s1, other) == GetSpec(s, other)
  {
    var burst := RateLimitKey(userId, BurstEndpoint);
    var (s1, rate) := RateLimitSpec(s, userId, BurstEndpoint, BurstLimit, BurstWindowSeconds);
    CountOfCounter(s, burst);
    assert burst != DailyQueriesKey(userId) by {
      assert NamespaceOf(burst) != NamespaceOf(DailyQueriesKey(userId));
    }
    SlotUnaffected(s, s1, burst, DailyQueriesKey(userId));
    SlotUnaffected(s, s1, burst, other);
    CountOfCounter(s1, DailyQueriesKey(userId));
  }

  /** As written: the background task's null reply is committed at once, fails validation,
      and the fallback commits again. */
  lemma NullReplyAfterTask(s: StoreState, peek: QuotaInfo, userId: int, plan: string, messages: seq<ChatMessage>,
                           md5: Digest, llm: Model, taskId: string, update: Option<ChartAnalysisResult>, text: string)
    requires QuotaOpen(s, userId, plan) && CounterValue(s, DailyQueriesKey(userId)) + 1 < DailyLimit(plan)
    requires llm(Frame(FallbackPrompt, messages)) == Replied(Some(text))
    ensures var r := AfterTaskSpec(AsWritten, s, peek, TaskReturned(JNull, false, taskId), userId, plan, messages, md5, llm, update);
      r.1.Answered? && !r.1.response.fromCache && r.2 == 2
      && s.log <= r.0.log && Increments(Written(s, r.0), DailyQueriesKey(userId)) == 2
  {
    var counter := DailyQueriesKey(userId);
    var s1 := DailyQuerySpec(s, userId, plan).0;
    OpenQuotaAdmits(s, userId, plan);
    DailyQueryLog(s, userId, plan, counter);
    CommitKeepsRoom(s, userId, plan);
    FallbackCharges(AsWritten, s1, userId, plan, messages, md5, llm, update);
    var s2 := FallbackSpec(AsWritten, s1, userId, plan, messages, md5, llm, update).0;
    WrittenChain(s, s1, s2, counter);
  }

  /** A commit with room for two leaves room for one. */
  lemma CommitKeepsRoom(s: StoreState, userId: int, plan: string)
    requires QuotaOpen(s, userId, plan) && CounterValue(s, DailyQueriesKey(userId)) + 1 < DailyLimit(plan)
    ensures QuotaOpen(DailyQuerySpec(s, userId, plan).0, userId, plan)
  {
    OpenQuotaAdmits(s, userId, plan);
  }

  /** As written, a null reply from the background task costs two queries for one answer. */
  lemma NullTaskReplyChargedTwice(s: StoreState, userId: int, plan: string, messages: seq<ChatMessage>, md5: Digest,
                                  llm: Model, taskId: string, chart: ChartAnalysisResult, text: string)
    requires BurstOpen(s, userId) && QuotaOpen(s, userId, plan)
    requires CounterValue(s, DailyQueriesKey(userId)) + 1 < DailyLimit(plan)
    requires !Truthy(GetSpec(s, ReplyKey(userId, messages, md5)))
    requires llm(Frame(WorkerPrompt, messages)) == Replied(None)
    requires llm(Frame(FallbackPrompt, messages)) == Replied(Some(text))
    ensures var r := ChatSpec(AsWritten, s, userId, plan, messages, md5, llm, Completed(taskId), chart);
      r.1.Answered? && !r.1.response.fromCache && r.2 == 2
      && s.log <= r.0.log && Increments(Written(s, r.0), DailyQueriesKey(userId)) == 2
  {
    var key := ReplyKey(userId, messages, md5);
    ChecksPass(s, userId, plan, key);
    var s1 := RateLimitSpec(s, userId, BurstEndpoint, BurstLimit, BurstWindowSeconds).0;
    RateLimitSparesQuota(s, userId, BurstEndpoint, BurstLimit, BurstWindowSeconds, userId);
    var peek := PeekSpec(s1, userId, plan);
    NullTaskServe(s1, peek, userId, plan, messages, md5, llm, taskId, ChartUpdate(chart), text);
    var s3 := ServeSpec(AsWritten, s1, peek, userId, plan, messages, md5, llm, Completed(taskId), ChartUpdate(chart)).0;
    WrittenChain(s, s1, s3, DailyQueriesKey(userId));
  }

  /** The request after the two checks: the background task runs, returns a null reply, and
      both the gateway and its fallback charge the quota. */
  lemma NullTaskServe(s1: StoreState, peek: QuotaInfo, userId: int, plan: string, messages: seq<ChatMessage>,
                      md5: Digest, llm: Model, taskId: string, update: Option<ChartAnalysisResult>, text: string)
    requires QuotaOpen(s1, userId, plan)
    requires CounterValue(s1, DailyQueriesKey(userId)) + 1 < DailyLimit(plan)
    requires !Truthy(GetSpec(s1, ReplyKey(userId, messages, md5)))
    requires llm(Frame(WorkerPrompt, messages)) == Replied(None)
    requires llm(Frame(FallbackPrompt, messages)) == Replied(Some(text))
    ensures var r := ServeSpec(AsWritten, s1, peek, userId, plan, messages, md5, llm, Completed(taskId), update);
      r.1.Answered? && !r.1.response.fromCache && r.2 == 2
      && s1.log <= r.0.log && Increments(Written(s1, r.0), DailyQueriesKey(userId)) == 2
  {
    var counter := DailyQueriesKey(userId);
    var key := ReplyKey(userId, messages, md5);
    ReplyKeyIsNotCounter(userId, messages, md5, userId);
    var (s2, result) := ProcessSpec(AsWritten, s1, messages, userId, md5, llm, taskId);
    assert result == TaskReturned(JNull, false, taskId);
    ProcessSparesQuota(AsWritten, s1, messages, userId, md5, llm, taskId, userId);
    UntouchedNotIncremented(Written(s1, s2), counter);
    QuotaOpenKept(s1, s2, key, userId, plan);
    SlotUnaffected(s1, s2, key, counter);
    NullReplyAfterTask(s2, peek, userId, plan, messages, md5, llm, taskId, update, text);
    var s3 := AfterTaskSpec(AsWritten, s2, peek, result, userId, plan, messages, md5, llm, update).0;
    WrittenChain(s1, s2, s3, counter);
  }

  /** Corrected, the same situation costs one query: the null reply is sent to the fallback
      before anything is committed. */
  lemma CorrectedNullTaskReplyChargedOnce(s: StoreState, userId: int, plan: string, messages: seq<ChatMessage>, md5: Digest,
                                          llm: Model, taskId: string, chart: ChartAnalysisResult, text: string)
    requires BurstOpen(s, userId) && QuotaOpen(s, userId, plan)
    requires !Truthy(GetSpec(s, ReplyKey(userId, messages, md5)))
    requires llm(Frame(WorkerPrompt, messages)) == Replied(None)
    requires llm(Frame(FallbackPrompt, messages)) == Replied(Some(text))
    ensures var r := ChatSpec(Corrected, s, userId, plan, messages, md5, llm, Completed(taskId), chart);
      r.1.Answered? && !r.1.response.fromCache && r.1.response.reply == text && r.2 == 1
      && s.log <= r.0.log && Increments(Written(s, r.0), DailyQueriesKey(userId)) == 1
  {
    ChecksPass(s, userId, plan, ReplyKey(userId, messages, md5));
    CorrectedChargesExactlyOnce(s, userId, plan, messages, md5, llm, Completed(taskId), chart);
  }

  /** An entry left alone by a write elsewhere stays as servable as it was. */
  lemma ServableKept(s: StoreState, s1: StoreState, written: string, key: string)
    requires s1.data - {written} == s.data - {written} && s1.now == s.now && s1.up == s.up && written != key
    ensures ServableCache(s1, key) == ServableCache(s, key)
  {
    SlotUnaffected(s, s1, written, key);
  }

  /** As written, a null reply in the fallback is cached as `{"reply": null}`, charged, and
      answered with a 500. */
  lemma FallbackCachesNull(s: StoreState, userId: int, plan: string, messages: seq<ChatMessage>,
                           md5: Digest, llm: Model, update: Option<ChartAnalysisResult>)
    requires s.up && llm(Frame(FallbackPrompt, messages)) == Replied(None)
    ensures var r := FallbackSpec(AsWritten, s, userId, plan, messages, md5, llm, update);
      r.1 == ServerError && r.2 == 1 && !ServableCache(r.0, ReplyKey(userId, messages, md5))
  {
    var key := ReplyKey(userId, messages, md5);
    var s1 := SetSpec(s, key, CachedReply(JNull), ReplyTtlSeconds).0;
    assert GetSpec(s1, key) == CachedReply(JNull);
    ReplyKeyIsNotCounter(userId, messages, md5, userId);
    ServableKept(s1, DailyQuerySpec(s1, userId, plan).0, DailyQueriesKey(userId), key);
  }

  /** Once `{"reply": null}` is cached, every request for that conversation that passes the
      checks fails with a 500 until the entry expires, and none is served. */
  lemma PoisonedEntryFailsEveryRequest(rev: Revision, s: StoreState, userId: int, plan: string, messages: seq<ChatMessage>,
                                       md5: Digest, llm: Model, dispatch: Dispatch, chart: ChartAnalysisResult)
    requires BurstOpen(s, userId) && QuotaOpen(s, userId, plan)
    requires GetSpec(s, ReplyKey(userId, messages, md5)) == CachedReply(JNull)
    ensures var r := ChatSpec(rev, s, userId, plan, messages, md5, llm, dispatch, chart);
      r.1 == ServerError && r.2 == 0
  {
    ChecksPass(s, userId, plan, ReplyKey(userId, messages, md5));
  }

  /** A servable cached reply is served as it is, with the peeked counts and no commit. */
  lemma ServableHitAnswers(rev: Revision, s: StoreState, userId: int, plan: string, messages: seq<ChatMessage>,
                           md5: Digest, llm: Model, dispatch: Dispatch, chart: ChartAnalysisResult)
    requires BurstOpen(s, userId) && QuotaOpen(s, userId, plan)
    requires ServableCache(s, ReplyKey(userId, messages, md5)) && Truthy(GetSpec(s, ReplyKey(userId, messages, md5)))
    ensures var r := ChatSpec(rev, s, userId, plan, messages, md5, llm, dispatch, chart);
      r.2 == 0
      && r.1 == Answered(ChatReply(Member(GetSpec(s, ReplyKey(userId, messages, md5)), "reply").value.s,
                                   CounterValue(s, DailyQueriesKey(userId)), DailyLimit(plan), true, None, ChartUpdate(chart)))
  {
    ChecksPass(s, userId, plan, ReplyKey(userId, messages, md5));
  }

  lemma FallbackKeepsServable(s: StoreState, userId: int, plan: string, messages: seq<ChatMessage>,
                              md5: Digest, llm: Model, update: Option<ChartAnalysisResult>)
    requires ServableCache(s, ReplyKey(userId, messages, md5))
    ensures ServableCache(FallbackSpec(Corrected, s, userId, plan, messages, md5, llm, update).0, ReplyKey(userId, messages, md5))
  {
    var key := ReplyKey(userId, messages, md5);
    ReplyKeyIsNotCounter(userId, messages, md5, userId);
    match llm(Frame(FallbackPrompt, messages)) {
      case Raised =>
      case Replied(c) =>
        if c.Some? {
          var s1 := SetSpec(s, key, CachedReply(ReplyJson(c)), ReplyTtlSeconds).0;
          assert ServableCache(s1, key);
          ServableKept(s1, DailyQuerySpec(s1, userId, plan).0, DailyQueriesKey(userId), key);
        }
    }
  }

  /** Corrected, a chat request never leaves an entry the gateway cannot serve. */
  lemma CorrectedChatKeepsCacheServable(s: StoreState, userId: int, plan: string, messages: seq<ChatMessage>,
                                        md5: Digest, llm: Model, dispatch: Dispatch, chart: ChartAnalysisResult)
    requires ServableCache(s, ReplyKey(userId, messages, md5))
    ensures ServableCache(ChatSpec(Corrected, s, userId, plan, messages, md5, llm, dispatch, chart).0, ReplyKey(userId, messages, md5))
  {
    var key := ReplyKey(userId, messages, md5);
    var update := ChartUpdate(chart);
    var (s1, rate) := RateLimitSpec(s, userId, BurstEndpoint, BurstLimit, BurstWindowSeconds);
    assert RateLimitKey(userId, BurstEndpoint) != key by {
      assert NamespaceOf(RateLimitKey(userId, BurstEndpoint)) != NamespaceOf(key);
    }
    ServableKept(s, s1, RateLimitKey(userId, BurstEndpoint), key);
    ReplyKeyIsNotCounter(userId, messages, md5, userId);
    var peek := PeekSpec(s1, userId, plan);
    if rate.allowed && peek.used < peek.dailyLimit && !Truthy(GetSpec(s1, key)) {
      match dispatch {
        case BrokerDown =>
        case TimedOut =>
          FallbackKeepsServable(s1, userId, plan, messages, md5, llm, update);
        case Completed(taskId) =>
          var (s2, result) := ProcessSpec(Corrected, s1, messages, userId, md5, llm, taskId);
          CorrectedCacheStaysServable(s1, messages, userId, md5, llm, taskId);
          if result.TaskFailed? || !result.reply.JStr? {
            FallbackKeepsServable(s2, userId, plan, messages, md5, llm, update);
          } else if !result.fromCache {
            ServableKept(s2, DailyQuerySpec(s2, userId, plan).0, DailyQueriesKey(userId), key);
          }
      }
    }
  }

  // ---- the endpoints as they run, without the quota look-up ----

  /** `chat_with_ai_coach` as it runs: after an admitted burst check the call to the missing
      quota look-up raises AttributeError, which the catch-all turns into a 500. */
  function ChatMissingPeek(s: StoreState, userId: int): (r: (StoreState, ChatOutcome))
    ensures !r.1.Answered?
    ensures r.0.data - {RateLimitKey(userId, BurstEndpoint)} == s.data - {RateLimitKey(userId, BurstEndpoint)}
  {
    var (s1, rate) := RateLimitSpec(s, userId, BurstEndpoint, BurstLimit, BurstWindowSeconds);
    if rate.allowed then (s1, ServerError) else (s1, TooManyRequests)
  }

  /** Every request with burst budget left fails with a 500 and still spends that budget,
      and no request is ever charged to the daily quota. */
  lemma MissingPeekFailsEveryRequest(s: StoreState, userId: int)
    requires BurstOpen(s, userId)
    ensures var r := ChatMissingPeek(s, userId);
      r.1 == ServerError
      && CounterValue(r.0, RateLimitKey(userId, BurstEndpoint)) == CounterValue(s, RateLimitKey(userId, BurstEndpoint)) + 1
      && s.log <= r.0.log && Increments(Written(s, r.0), DailyQueriesKey(userId)) == 0
  {
    CountOfCounter(s, RateLimitKey(userId, BurstEndpoint));
    RateLimitSparesQuota(s, userId, BurstEndpoint, BurstLimit, BurstWindowSeconds, userId);
  }

  // ---- the query-count endpoint ----

  /** The body of `/query-count`. */
  datatype QueryCount = QueryCount(used: int, limit: int)

  /** `get_daily_query_count` with the read-only look-up in place. */
  function QueryCountSpec(s: StoreState, userId: int, plan: string): (r: QueryCount)
    ensures r.limit == DailyLimit(plan)
    ensures s.up && IsCounter(s, DailyQueriesKey(userId)) ==> r.used == CounterValue(s, DailyQueriesKey(userId))
    ensures !s.up ==> r.used == 0
  {
    var info := PeekSpec(s, userId, plan);
    QueryCount(info.used, info.dailyLimit)
  }

  /** The reply of `/query-count`: the count, or the 500 that the catch-all makes of any error. */
  datatype CountReply = CountOk(count: QueryCount) | CountServerError

  /** `get_daily_query_count`. As written, the call to the missing quota look-up raises
      AttributeError, which becomes a 500; corrected, the read-only look-up answers the
      count. Either way the endpoint writes nothing, so only the reply is modelled. */
  function QueryCountEndpoint(rev: Revision, s: StoreState, userId: int, plan: string): (r: CountReply)
    ensures r.CountServerError? <==> rev == AsWritten
    ensures r.CountOk? ==> r.count.limit == DailyLimit(plan)
  {
    match rev
    case AsWritten => CountServerError
    case Corrected => CountOk(QueryCountSpec(s, userId, plan))
  }

  /** As written, `/query-count` is a 500 even for a user whose counter the store holds and
      answers; corrected, that user is told the counter's value and the plan's limit. */
  lemma MissingPeekCountAlwaysFails(s: StoreState, userId: int, plan: string)
    requires s.up && IsCounter(s, DailyQueriesKey(userId))
    ensures QueryCountEndpoint(AsWritten, s, userId, plan) == CountServerError
    ensures QueryCountEndpoint(Corrected, s, userId, plan)
         == CountOk(QueryCount(CounterValue(s, DailyQueriesKey(userId)), DailyLimit(plan)))
  {
  }

  method GetDailyQueryCount(store: KeyValueStore, userId: int, plan: string) returns (r: QueryCount)
    ensures r == QueryCountSpec(store.State(), userId, plan)
  {
    var info := PeekDailyQueries(store, userId, plan);
    r := QueryCount(info.used, info.dailyLimit);
  }

  // ---- the handler ----

  /** The fallback path of the handler, framing the conversation one message at a time. */
  method Fallback(store: KeyValueStore, userId: int, plan: string, messages: seq<ChatMessage>, md5: Digest, llm: Model,
                  update: Option<ChartAnalysisResult>) returns (outcome: ChatOutcome)
    modifies store
    ensures var r := FallbackSpec(AsWritten, old(store.State()), userId, plan, messages, md5, llm, update);
      store.State() == r.0 && outcome == r.1
  {
    var framed := FrameMessages(FallbackPrompt, messages);
    match llm(framed) {
      case Raised =>
        outcome := ServerError;
      case Replied(c) =>
        var _ := store.Set(ReplyKey(userId, messages, md5), CachedReply(ReplyJson(c)), ReplyTtlSeconds);
        var _, info := CheckDailyQueries(store, userId, plan);
        if c.Some? {
          outcome := Answered(ChatReply(c.value, info.used, info.dailyLimit, false, None, update));
        } else {
          outcome := ServerError;
        }
    }
  }

  /** What the handler does with the background task's result. */
  method AfterTask(store: KeyValueStore, queryInfo: QuotaInfo, result: TaskResult, userId: int, plan: string,
                   messages: seq<ChatMessage>, md5: Digest, llm: Model, update: Option<ChartAnalysisResult>)
    returns (outcome: ChatOutcome)
    modifies store
    ensures var r := AfterTaskSpec(AsWritten, old(store.State()), queryInfo, result, userId, plan, messages, md5, llm, update);
      store.State() == r.0 && outcome == r.1
  {
    match result {
      case TaskFailed =>
        outcome := Fallback(store, userId, plan, messages, md5, llm, update);
      case TaskReturned(reply, fromCache, id) =>
        var info := queryInfo;
        if !fromCache {
          var _, updated := CheckDailyQueries(store, userId, plan);
          info := updated;
        }
        if reply.JStr? {
          outcome := Answered(ChatReply(reply.s, info.used, info.dailyLimit, fromCache, Some(id), update));
        } else {
          outcome := Fallback(store, userId, plan, messages, md5, llm, update);
        }
    }
  }

  /** The handler after the two checks: the reply cache, then the background task. */
  method Serve(store: KeyValueStore, queryInfo: QuotaInfo, userId: int, plan: string, messages: seq<ChatMessage>,
               md5: Digest, llm: Model, dispatch: Dispatch, update: Option<ChartAnalysisResult>) returns (outcome: ChatOutcome)
    modifies store
    ensures var r := ServeSpec(AsWritten, old(store.State()), queryInfo, userId, plan, messages, md5, llm, dispatch, update);
      store.State() == r.0 && outcome == r.1
  {
    var cached := store.Get(ReplyKey(userId, messages, md5));
    if Truthy(cached) {
      match Member(cached, "reply") {
        case Some(JStr(text)) =>
          return Answered(ChatReply(text, queryInfo.used, queryInfo.dailyLimit, true, None, update));
        case _ =>
          return ServerError;
      }
    }
    match dispatch {
      case BrokerDown =>
        outcome := ServerError;
      case TimedOut =>
        outcome := Fallback(store, userId, plan, messages, md5, llm, update);
      case Completed(taskId) =>
        var result := ProcessAiRequest(store, messages, userId, md5, llm, taskId);
        outcome := AfterTask(store, queryInfo, result, userId, plan, messages, md5, llm, update);
    }
  }

  /** The two checks in front of the handler: the burst limiter, then the daily quota look-up;
      `peek` is the look-up when both pass. */
  method PassChecks(store: KeyValueStore, userId: int, plan: string) returns (peek: Option<QuotaInfo>)
    modifies store
    ensures var (s1, rate) := RateLimitSpec(old(store.State()), userId, BurstEndpoint, BurstLimit, BurstWindowSeconds);
      store.State() == s1
      && (peek.Some? <==> rate.allowed && PeekSpec(s1, userId, plan).used < PeekSpec(s1, userId, plan).dailyLimit)
      && (peek.Some? ==> peek.value == PeekSpec(s1, userId, plan))
  {
    var allowed, _ := CheckRateLimit(store, userId, BurstEndpoint, BurstLimit, BurstWindowSeconds);
    if !allowed {
      return None;
    }
    var queryInfo := PeekDailyQueries(store, userId, plan);
    if queryInfo.used >= queryInfo.dailyLimit {
      return None;
    }
    return Some(queryInfo);
  }

  /** The handler once the chart analysis is done: the two checks, then the cache and the background task. */
  method Respond(store: KeyValueStore, userId: int, plan: string, messages: seq<ChatMessage>, md5: Digest, llm: Model,
                 dispatch: Dispatch, chart: ChartAnalysisResult) returns (outcome: ChatOutcome)
    modifies store
    ensures var r := ChatSpec(AsWritten, old(store.State()), userId, plan, messages, md5, llm, dispatch, chart);
      store.State() == r.0 && outcome == r.1
  {
    var peek := PassChecks(store, userId, plan);
    if peek.None? {
      return TooManyRequests;
    }
    outcome := Serve(store, peek.value, userId, plan, messages, md5, llm, dispatch, ChartUpdate(chart));
  }

  /** `chat_with_ai_coach`, given the read-only quota look-up, the way the background task hand-off
      goes, the language model, and the chart analysis's term table (the service runs with
      `ChartSymbols.SymbolTable`), resolver reply and matches. */
  method Chat(store: KeyValueStore, table: seq<(string, string)>, userId: int, plan: string, messages: seq<ChatMessage>, md5: Digest, llm: Model,
              dispatch: Dispatch, resolverReply: Option<string>, matches: seq<(string, string)>)
    returns (outcome: ChatOutcome, ghost chart: ChartAnalysisResult)
    modifies store
    ensures chart == AnalyzeSpec(AsWritten, table, LatestContent(messages), resolverReply, matches)
    ensures var r := ChatSpec(AsWritten, old(store.State()), userId, plan, messages, md5, llm, dispatch, chart);
      store.State() == r.0 && outcome == r.1
  {
    var analysis := AnalyzeQuery(table, LatestContent(messages), resolverReply, matches);
    chart := analysis;
    outcome := Respond(store, userId, plan, messages, md5, llm, dispatch, analysis);
  }
}
