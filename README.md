# A verified model of the trading-assistant backend

This project models the core of a SaaS backend for retail traders.
It covers:
- an AI chat gateway, guarded by a burst limiter and a daily query quota, with a reply cache and a background task;
- the rule-based chart-query analysis that turns a chat message into a TradingView chart configuration;
- account management: registration, login, token refresh, email verification and password reset;
- the Stripe webhook that changes a user's plan;
- the education catalogue: courses, lessons, completion records and progress, with a cache for anonymous visitors;
- the market screeners and the Polygon market-data service behind them.

Each source file of the core has its own Dafny module:

| module | file | models |
|---|---|---|
| `Store` | store.dfy | `RedisCache` and the cache-key helpers: a class over a key map, a clock and a reachability flag; every operation swallows errors |
| `RateLimiting` | rate_limiter.dfy | the burst limit, the daily quota with its reset at midnight, and the reset helper; both checks fail open |
| `AiProcessing` | worker.dfy | the background AI task (cache look-up, framing behind the system prompt, model call, caching) and the analytics task |
| `Gateway` | gateway.dfy | `POST /chat` and `GET /query-count` of the AI coach |
| `ChartSymbols`, `ChartAnalysis` | chart_symbols.dfy, chart_analysis.dfy | the chart-query analyser: symbol, indicator, timeframe and action extraction, study and interval normalisation, and the configuration it builds |
| `Database` | database.dfy | the SQL session: the account and course tables as sequences of rows in a class |
| `Verification`, `UserCrud` | verification.dfy, user_crud.dfy | email-verification and password-reset tokens; user records |
| `Auth` | auth.dfy | the authentication endpoints |
| `Webhooks` | webhooks.dfy | the Stripe webhook and its event handlers |
| `EducationCrud`, `EducationApi` | education_crud.dfy, education_api.dfy | course CRUD with cascading deletes, lesson records and progress; the education endpoints and their cache |
| `Polygon`, `Screener` | polygon.dfy, screener.dfy | the market-data service and the screener endpoints |
| `Wrappers`, `Text`, `Sequences`, `JsonValue` | wrappers.dfy, text.dfy, sequences.dfy, json.dfy | Option and the two readings of a defect; Python's string operations on ASCII; filtering, first match and OFFSET/LIMIT windows; decoded JSON documents |

State that the source changes in place is a class:
- `Store.KeyValueStore` is the Redis connection.
- `Database.Session` is the SQL session.

Each handler is a method on those objects.
Its `ensures` states that the new state and the reply are a pure function of the old state.
That function is written once, and the lemmas about it describe what a sequence of requests achieves.
Examples:
- the daily quota is charged once per produced reply;
- a cached AI reply is served until it expires;
- the course cache only ever holds empty lists, so course lists and details are otherwise computed afresh;
- a course write refreshes the detail page but not the cached lists;
- a token is honoured once.

The following things are parameters of the model:
- the language model, the Celery broker and its result;
- Stripe's signature verdict;
- the Polygon HTTP exchange;
- hashing, JWT issue and decoding, UUIDs, and the clock.

Where the source has a defect, `Wrappers.Revision` selects the reading.
`AsWritten` is the code as it stands; `Corrected` is the evidently intended behaviour.
Both are proved about; see "## Findings".

## Model

| member | source | states |
|---|---|---|
| Store.GetSpec | app/core/redis.py:13-22 | `get` answers a document only when the store is reachable and the key holds a live JSON document, and then that document; a miss, an expired or non-JSON entry and any store error read as None |
| Store.SetSpec | app/core/redis.py:25-32 | `set` reports True exactly when the store is reachable and the TTL positive, then the key holds the document until now + TTL and no other key changes; on failure nothing changes |
| Store.DeleteSpec | app/core/redis.py:35-42 | `delete` reports True whenever the store is reachable, whether or not the key existed, and afterwards the key is absent and every other key unchanged; the clock and reachability stay as they were |
| Store.ExistsSpec | app/core/redis.py:45-51 | `exists` is True exactly when the store is reachable and the key holds a live entry |
| Store.IncrementSpec | app/core/redis.py:54-60 | `increment` succeeds exactly on a reachable store whose key is absent (counted from 0) or an integer, answers the old value plus the amount, keeps the key's TTL and changes no other key; on failure it answers None and changes nothing |
| Store.SetExpireSpec | app/core/redis.py:63-69 | `set_expire` is True exactly when the key exists; a positive TTL moves the expiry to now + seconds, a non-positive one removes the key; nothing else changes |
| Store.KeyValueStore.constructor | app/core/redis.py:7 | the client starts on an empty, reachable store |
| Store.KeyValueStore.Get | app/core/redis.py:13-22 | the method answers GetSpec of the current state and changes nothing |
| Store.KeyValueStore.Set | app/core/redis.py:25-32 | the new state and the flag are SetSpec of the old state |
| Store.KeyValueStore.Delete | app/core/redis.py:35-42 | the new state and the flag are DeleteSpec of the old state |
| Store.KeyValueStore.Exists | app/core/redis.py:45-51 | the method answers ExistsSpec of the current state |
| Store.KeyValueStore.Increment | app/core/redis.py:54-60 | the new state and the result are IncrementSpec of the old state |
| Store.KeyValueStore.SetExpire | app/core/redis.py:63-69 | the new state and the flag are SetExpireSpec of the old state |
| Store.SetIncrementsNothing | app/core/redis.py:25-32 | a `set` never counts as an increment of any key |
| Store.SlotUnaffected | app/core/redis.py:25-69 | a write to one key leaves what every other key reads unchanged |
| Store.AiResponseKey | app/core/redis.py:72-74 | the reply cache key lies in the `ai_response:` namespace |
| Store.UserKey | app/core/redis.py:76-78 | the user cache key lies in the `user:` namespace |
| Store.RateLimitKey | app/core/redis.py:80-82 | the burst counter key lies in the `rate_limit:` namespace |
| Store.DailyQueriesKey | app/core/redis.py:84-86 | the daily counter key lies in the `daily_queries:` namespace |
| Store.AiResponseKeyInjective | app/core/redis.py:72-74 | equal reply keys come from the same user and the same message hash |
| Store.RateLimitKeyInjective | app/core/redis.py:80-82 | equal burst keys come from the same user and the same endpoint |
| Store.DailyQueriesKeyInjective | app/core/redis.py:84-86 | equal daily keys come from the same user |
| Store.IncrementsAppend | app/core/redis.py:54-60 | the increments of two successive stretches of operations add up key by key |
| Store.WrittenChain | app/core/redis.py:25-69 | the keys written by two successive stretches of operations are the writes of the first followed by those of the second |
| Store.UntouchedNotIncremented | app/core/redis.py:54-60 | a key that no operation writes is incremented zero times |
| RateLimiting.CountOf | app/core/rate_limiter.py:28 | `get(key) or 0` reads a stored integer as itself, a float as its floor and every falsy value as 0; any other truthy document leaves a value the comparison with the limit cannot use |
| RateLimiting.FloatComparesAsFloor | app/core/rate_limiter.py:29 | a float reaches an integer limit exactly when its floor does |
| RateLimiting.StoredFloatAgainstLimit | app/core/rate_limiter.py:28-44 | a float stored under the key is rejected exactly when it reaches the limit; below it, the increment of a non-integer fails and the request is let through without a change |
| RateLimiting.CountOfCounter | app/core/rate_limiter.py:28 | on a counter the store can increment, the count the check reads is the counter's value |
| RateLimiting.AdmitSpec | app/core/rate_limiter.py:28-51 | a request is refused, with nothing written, exactly when the stored count has reached the limit; otherwise on a reachable store it is admitted with the incremented count, which never exceeds the limit, and the first admission starts the expiry; on an unreachable store it is admitted after the error; only the checked key changes |
| RateLimiting.AdmitLog | app/core/rate_limiter.py:28-51 | a check writes only its own key, and increments it once exactly when it admits a request on a reachable store |
| RateLimiting.AdmissionsBounded | app/core/rate_limiter.py:30-40 | within one window on a reachable store, any number of checks admits at most the limit minus the count already used |
| RateLimiting.UnreachableAdmitsAll | app/core/rate_limiter.py:53-63 | with the store down, every request is let through, so the limit is not enforced |
| RateLimiting.Admit | app/core/rate_limiter.py:28-51 | the method's new store state and outcome are AdmitSpec of the old state |
| RateLimiting.RateLimitSpec | app/core/rate_limiter.py:9-63 | the new state is the counter check's (AdmitSpec) on the user's burst key; the request is refused exactly when the stored count is at or over the limit, and a refusal reports remaining 0 and that stored count; an admission reports the stored counter plus one and remaining = limit - count; the report is marked failed-open exactly when the counter check failed open; after an error the request is allowed with count 1 and remaining limit - 1; only the user's burst key for the endpoint changes |
| RateLimiting.CheckRateLimit | app/core/rate_limiter.py:9-63 | the method's new state and report are RateLimitSpec of the old state, and the flag returned is the report's `allowed` |
| RateLimiting.RateLimitSparesQuota | app/core/rate_limiter.py:23 | a burst check never writes any user's daily query counter |
| RateLimiting.DailyLimit | app/core/rate_limiter.py:79-86 | 5 queries a day for free, 100 for pro, 1000 for elite, and 5 for any other plan |
| RateLimiting.StartOfDay | app/core/rate_limiter.py:97 | the midnight that starts the day of a time lies at or before it, less than a day earlier |
| RateLimiting.SecondsUntilEndOfDay | app/core/rate_limiter.py:104-106 | the whole seconds to 23:59:59.999999 are between 0 and 86399, and the first counter expires within a second of the next midnight |
| RateLimiting.DailyQuerySpec | app/core/rate_limiter.py:66-127 | the report carries the plan's limit and the next midnight as reset time; the new state is the counter check's (AdmitSpec) on the user's daily key with a TTL to midnight; the query is refused exactly when the stored count is at or over the plan's limit, and a refusal leaves the store as it was with remaining 0 and used equal to that stored count; an admission reports the stored counter plus one and what remains; after an error the query is allowed with used 1; only the user's daily key changes |
| RateLimiting.DailyQueryLog | app/core/rate_limiter.py:88-107 | a daily check writes only the user's own counter and increments it once exactly when it admits on a reachable store |
| RateLimiting.OpenQuotaAdmits | app/core/rate_limiter.py:91-115 | with room left under the plan's limit the check admits and reports one more query used |
| RateLimiting.FirstQueryExpiresByMidnight | app/core/rate_limiter.py:101-107 | the first query of a day starts the counter at 1 with an expiry no later than the next midnight |
| RateLimiting.CheckDailyQueries | app/core/rate_limiter.py:66-127 | the method's new state and report are DailyQuerySpec of the old state, and the flag returned is the report's `allowed` |
| RateLimiting.ResetDailyQueries | app/core/rate_limiter.py:130-137 | resetting deletes the user's daily counter, reporting what `delete` reports |
| RateLimiting.ResetRestoresQuota | app/core/rate_limiter.py:130-137 | after a reset on a reachable store, the next daily check admits the query as the first of the day |
| RateLimiting.PeekSpec | app/api/v1/ai_coach.py:67 | the read-only quota view reports the plan's limit; the count used is the stored count as the limiter reads it (the counter's value on a reachable store holding one, 0 when the store is down or the key is absent); whether a query is still allowed (used below the limit) and what remains |
| RateLimiting.PeekDailyQueries | app/api/v1/ai_coach.py:67 | the method answers PeekSpec of the current state and changes nothing |
| RateLimiting.PeekPredictsCheck | app/core/rate_limiter.py:89-98 | on a reachable counter, the read-only view refuses exactly when the daily check would refuse, with the same count |
| AiProcessing.Frame | app/tasks/ai_processing.py:37-85 | the conversation sent to the model is the system prompt followed by every client turn, in order, with its role and content |
| AiProcessing.FrameMessages | app/tasks/ai_processing.py:80-85 | the loop appending each client turn builds exactly the framed conversation |
| AiProcessing.ReplyKey | app/tasks/ai_processing.py:20-25 | the reply cache key for a conversation lies in the `ai_response:` namespace |
| AiProcessing.CachedReply | app/tasks/ai_processing.py:96 | the cached document is a non-empty object whose `reply` member is the reply |
| AiProcessing.ProcessSpec | app/tasks/ai_processing.py:12-108 | a truthy cached entry is answered from the cache with nothing written; otherwise a reply of the model is returned as that reply, not from cache, and cached for an hour on a reachable store, and a model call that raises ends the Celery job as failed with nothing changed; no key but the conversation's reply key changes |
| AiProcessing.ProcessLog | app/tasks/ai_processing.py:26-96 | the background task writes nothing but its conversation's reply key |
| AiProcessing.ProcessSparesQuota | app/tasks/ai_processing.py:25 | the background task never writes any user's daily query counter |
| AiProcessing.RepeatIsServedFromCache | app/tasks/ai_processing.py:26-34 | after a reply has been cached, the same conversation is answered from the cache with the same reply |
| AiProcessing.NullReplyPoisonsCache | app/tasks/ai_processing.py:93-96 | a null completion is cached as `{"reply": null}`, an entry the gateway cannot serve |
| AiProcessing.CorrectedCacheStaysServable | app/tasks/ai_processing.py:93-96 | when only string replies are cached, a servable reply cache entry stays servable |
| AiProcessing.ProcessAiRequest | app/tasks/ai_processing.py:12-108 | the method's new state and result are ProcessSpec, as written, of the old state |
| AiProcessing.AnalyticsRecord | app/tasks/ai_processing.py:131-136 | the record holds the user id and action, the metadata or `{}` when it is falsy, and the stored clock entry or "unknown" |
| AiProcessing.AnalyticsSpec | app/tasks/ai_processing.py:124-141 | on a reachable store the analytics key holds the record for a day; nothing else changes, and nothing at all when the store is down |
| AiProcessing.UpdateUserAnalytics | app/tasks/ai_processing.py:124-141 | the method's new state is AnalyticsSpec of the old state and it reports success |
| Store.AnalyticsKey | app/tasks/ai_processing.py:130 | the analytics key lies in the `analytics:` namespace |
| Gateway.LatestContent | app/api/v1/ai_coach.py:79 | the chart analysis reads the last message's content, or the empty text when there are no messages |
| Gateway.ChartUpdate | app/api/v1/ai_coach.py:97 | the response carries the chart analysis exactly when it says the chart needs an update |
| Gateway.FallbackSpec | app/api/v1/ai_coach.py:128-194 | the synchronous fallback answers a model reply t with t, never from a cache and without a task id, reporting the plan's limit, and on a reachable store leaves `{"reply": t}` under the conversation's key; a failing model call is a 500 that changes nothing and commits nothing; an answer costs one commit, no path costs more; with the correction the commits equal the replies that were not cached |
| Gateway.AfterTaskSpec | app/api/v1/ai_coach.py:108-127 | a failed task goes to the fallback; a task returning a string reply is answered with that reply, its task id and its own from-cache flag, with the peeked counts and no write when it served from its own cache and otherwise with the counts of one daily commit; a non-string reply goes, as written, to the fallback after that commit and, corrected, to the fallback with no commit; no path costs more than two commits |
| Gateway.ServeSpec | app/api/v1/ai_coach.py:86-194 | a truthy cached entry whose reply is a string is answered with it, the peeked counts and from_cache true, without writing or committing; any other truthy entry is a 500; on a miss a broker failure is a 500 that changes nothing, a timeout goes to the fallback, and a completed task's result goes to AfterTaskSpec; fresh answers cost at least one commit, cached ones none |
| Gateway.ChatSpec | app/api/v1/ai_coach.py:42-202 | a request is refused with a 429 exactly when the burst limit is hit or, after the burst check, the daily count already reaches the plan's limit; a refusal changes only the burst counter and commits nothing; an admitted request is served by ServeSpec with the peeked counts; an answer carries the chart update the analysis asked for; cached answers commit nothing, fresh ones at least once and never more than twice |
| Gateway.FallbackCharges | app/api/v1/ai_coach.py:172-186 | the fallback increments the user's daily counter at most once per commit it reports |
| Gateway.AfterTaskCharges | app/api/v1/ai_coach.py:108-127 | after a completed task the daily counter goes up at most once per commit, and, corrected and with room left, exactly once per commit |
| Gateway.ServeCharges | app/api/v1/ai_coach.py:86-194 | serving a request increments the daily counter at most once per commit, and, corrected and with room left, exactly once per commit |
| Gateway.ChatCharges | app/api/v1/ai_coach.py:42-202 | a whole chat request increments the daily counter at most as often as it commits |
| Gateway.CorrectedChargesExactlyOnce | app/api/v1/ai_coach.py:111-118 | corrected, on a reachable store, the daily counter goes up exactly once for a reply that did not come from a cache and never otherwise |
| Gateway.ReplyKeyIsNotCounter | app/core/redis.py:72-86 | no reply cache key is anyone's daily query counter |
| Gateway.QuotaOpenKept | app/core/redis.py:25-69 | a write to another key keeps the room left under the daily limit |
| Gateway.ChecksPass | app/api/v1/ai_coach.py:52-76 | with room under the burst and daily limits the request passes both checks, the quota look-up reports the counter as it stands, and only the burst counter has changed |
| Gateway.NullReplyAfterTask | app/api/v1/ai_coach.py:111-194 | as written, a null reply from the background task is committed, fails validation, and the fallback answers and commits again |
| Gateway.CommitKeepsRoom | app/core/rate_limiter.py:91-115 | one commit with room for two leaves room for another |
| Gateway.NullTaskReplyChargedTwice | app/api/v1/ai_coach.py:111-194 | as written, a task that returns a null reply gets the client one fresh answer for two queries of the daily quota |
| Gateway.CorrectedNullTaskReplyChargedOnce | app/api/v1/ai_coach.py:111-194 | corrected, the same request is answered with the fallback's reply for one query |
| Gateway.ServableKept | app/core/redis.py:25-69 | a write to another key leaves a cache entry exactly as servable as it was |
| Gateway.FallbackCachesNull | app/api/v1/ai_coach.py:177-194 | as written, a null fallback reply is cached as `{"reply": null}`, charged once and answered with a 500 |
| Gateway.PoisonedEntryFailsEveryRequest | app/api/v1/ai_coach.py:88-98 | once `{"reply": null}` is cached, every request for that conversation that passes the checks fails with a 500 and commits nothing |
| Gateway.ServableHitAnswers | app/api/v1/ai_coach.py:88-98 | a servable cached reply is answered as it is, marked as from the cache, with the looked-up counts and no commit |
| Gateway.FallbackKeepsServable | app/api/v1/ai_coach.py:177-180 | corrected, the fallback leaves a servable cache entry servable |
| Gateway.CorrectedChatKeepsCacheServable | app/api/v1/ai_coach.py:86-194 | corrected, no chat request leaves a reply cache entry the gateway cannot serve |
| Gateway.ChatMissingPeek | app/api/v1/ai_coach.py:52-70 | as written, no request is ever answered: the burst check runs, then the missing quota look-up fails; only the burst counter changes |
| Gateway.MissingPeekFailsEveryRequest | app/api/v1/ai_coach.py:52-70 | as written, every request with burst budget left fails with a 500, spends one burst request and never touches the daily quota |
| Gateway.QueryCountSpec | app/api/v1/ai_coach.py:204-222 | corrected (the peek the handler calls exists), `/query-count` reports the plan's daily limit and the counter as it stands, 0 when the store is down |
| Gateway.QueryCountEndpoint | app/api/v1/ai_coach.py:204-224 | as written the endpoint answers 500 on every request, corrected never; a count it reports carries the plan's daily limit |
| Gateway.MissingPeekCountAlwaysFails | app/api/v1/ai_coach.py:210-224 | for a live counter, the as-written endpoint fails with 500 while the corrected one reports the counter's value and the plan's limit |
| Gateway.GetDailyQueryCount | app/api/v1/ai_coach.py:204-222 | the method answers QueryCountSpec of the current state |
| Gateway.Fallback | app/api/v1/ai_coach.py:128-194 | the method's new state and outcome are FallbackSpec, as written, of the old state |
| Gateway.AfterTask | app/api/v1/ai_coach.py:108-127 | the method's new state and outcome are AfterTaskSpec, as written, of the old state |
| Gateway.Serve | app/api/v1/ai_coach.py:86-194 | the method's new state and outcome are ServeSpec, as written, of the old state |
| Gateway.PassChecks | app/api/v1/ai_coach.py:52-76 | the method runs the burst check and the quota look-up and answers the look-up only when both let the request through |
| Gateway.ExhaustedQuotaRefused | app/api/v1/ai_coach.py:66-76 | once the daily count reaches the plan's limit, every chat request is a 429 that commits nothing and leaves only the burst counter's change |
| Gateway.FreshAnswerCached | app/api/v1/ai_coach.py:86-194 | on a reachable store, a reply that did not come from a cache is left as `{"reply": reply}` under the conversation's key, by the background task or by the fallback |
| Gateway.RepeatServedFromCache | app/api/v1/ai_coach.py:86-98 | an answered request repeated at once on a reachable store, with room left under both limits, is answered from the cache with the same reply and no commit |
| Gateway.Respond | app/api/v1/ai_coach.py:52-194 | the method's new state and outcome are ChatSpec, as written, of the old state |
| Gateway.Chat | app/api/v1/ai_coach.py:42-202 | the handler runs the chart analysis on the latest message and then behaves as ChatSpec, as written |
| ChartAnalysis.Lookup | app/services/chart_analysis.py:222-225 | a name is looked up in the normalisation table: a result is an entry for that name, and there is none exactly when no entry has the name |
| ChartAnalysis.AliasesCanonical | app/services/chart_analysis.py:178-217 | every alias in the normalisation table leads to a study id in TradingView form |
| ChartAnalysis.CanonicalStudiesPrefixed | app/services/chart_analysis.py:217 | every study id in TradingView form starts with `STD;` |
| ChartAnalysis.AnalyserStudyTablesSound | app/services/chart_analysis.py:178-217 | the analyser's two study tables agree: aliases lead to canonical ids, and canonical ids carry the prefix |
| ChartAnalysis.NormalizeStudy | app/services/chart_analysis.py:215-228 | a study comes out unchanged or as a canonical TradingView id |
| ChartAnalysis.NormalizeStudyIdempotent | app/services/chart_analysis.py:215-228 | normalising a study twice gives the same id as normalising it once |
| ChartAnalysis.NormalizeAll | app/services/chart_analysis.py:176-230 | the normalised list is as long as the input |
| ChartAnalysis.NormalizeAllAt | app/services/chart_analysis.py:215-228 | each position of the normalised list holds that position's study normalised |
| ChartAnalysis.NormalizeStudies | app/services/chart_analysis.py:176-230 | the loop builds exactly the list of normalised studies |
| ChartAnalysis.NormalizeAllIdempotent | app/services/chart_analysis.py:176-230 | a normalised list normalises to itself |
| ChartAnalysis.MinuteHourValues | app/services/chart_analysis.py:249-263 | every minute and hour entry of the interval table gives a TradingView interval code |
| ChartAnalysis.DayWeekValues | app/services/chart_analysis.py:249-263 | every day and week entry of the interval table gives a TradingView interval code |
| ChartAnalysis.MonthYearValues | app/services/chart_analysis.py:249-263 | every month and year entry of the interval table gives a TradingView interval code |
| ChartAnalysis.IntervalMapValues | app/services/chart_analysis.py:249-264 | every code the interval table gives is a TradingView interval |
| ChartAnalysis.OneMinuteKeyMeansMonth | app/services/chart_analysis.py:249-264 | the key "1m" is listed twice and the later entry, one month, is the one in force |
| ChartAnalysis.NormalizeInterval | app/services/chart_analysis.py:232-264 | a query naming "month" gives 6M when it holds a 6 or "six", else 3M for a 3 or "three", else 1M for a 1 or "one"; a query without such a month count that names a year gives 1Y; any other query leaves the lower-cased interval to the table, and an interval the table lacks is returned unchanged; every other result is a TradingView interval |
| ChartAnalysis.NormalizeIntervalIdempotent | app/services/chart_analysis.py:232-264 | normalising an already normalised interval against the same query gives it back |
| ChartAnalysis.LookupFixesCode | app/services/chart_analysis.py:249-264 | a code the table gives, lower-cased, is either no key of the table or a key for that same code |
| ChartAnalysis.MappedSymbols | app/services/chart_analysis.py:476-479 | every symbol found belongs to a table term the query contains, at most one per term |
| ChartAnalysis.MappedSymbolsComplete | app/services/chart_analysis.py:476-479 | every table term the query contains has its symbol found |
| ChartAnalysis.NothingMappedIffNoTerm | app/services/chart_analysis.py:476-486 | the mapping scan finds nothing exactly when the query contains no table term, which is when the resolver is asked |
| ChartAnalysis.MappedSymbolsInTableOrder | app/services/chart_analysis.py:476-479 | the symbols found are those of the table entries whose term the query contains, in table order |
| ChartAnalysis.ScanSymbols | app/services/chart_analysis.py:476-479 | the loop over the table finds exactly the mapped symbols |
| ChartAnalysis.AcceptResolvedSymbol | app/services/chart_analysis.py:604-610 | the resolver's reply becomes the single symbol exactly when, stripped, it is non-empty and contains ':'; otherwise no symbol |
| ChartAnalysis.IndicatorsIn | app/services/chart_analysis.py:489-497 | the indicators found are distinct and each is the name of a keyword the query contains |
| ChartAnalysis.IndicatorsComplete | app/services/chart_analysis.py:489-497 | every keyword the query contains has its name among the indicators found |
| ChartAnalysis.IndicatorsInKeywordOrder | app/services/chart_analysis.py:489-497 | the indicators found are the names of the contained keywords in keyword order, each name kept at its first occurrence |
| ChartAnalysis.KeptKeywordStep | app/services/chart_analysis.py:490-497 | a contained keyword adds its name at the end unless an earlier keyword already gave that name |
| ChartAnalysis.SkippedKeywordStep | app/services/chart_analysis.py:490 | a keyword the query does not contain adds nothing |
| ChartAnalysis.KeywordsFoundSnoc | app/services/chart_analysis.py:489-490 | the keywords the query contains, in order, grow by the next keyword exactly when the query contains it |
| ChartAnalysis.IndicatorName | app/services/chart_analysis.py:492-497 | a keyword that upper-cases to "BOLLINGER" or squeezes to "BOLLINGERBANDS" is named "BOLLINGER"; any other keyword is named by its upper-cased form with the spaces removed; a name holds no space and is never "BOLLINGERBANDS" |
| ChartAnalysis.BollingerNamed | app/services/chart_analysis.py:492-495 | the keyword "bollinger" is named "BOLLINGER" |
| ChartAnalysis.BollingerBandsMerged | app/services/chart_analysis.py:492-495 | the keyword "bollinger bands" is also named "BOLLINGER", so the two Bollinger forms give one indicator |
| ChartAnalysis.ScanIndicators | app/services/chart_analysis.py:489-497 | the loop over the keywords finds exactly those indicators |
| ChartAnalysis.FirstTimeframe | app/services/chart_analysis.py:500-514 | at most one timeframe is taken, none exactly when no pattern occurs, and otherwise that of the first pattern in list order that the query contains |
| ChartAnalysis.ScanTimeframe | app/services/chart_analysis.py:510-514 | the loop stops at the first matching pattern and yields exactly that timeframe |
| ChartAnalysis.NormalizeTarget | app/services/chart_analysis.py:556 | a normalised action target has no spaces; for a target without underscores or " bands", turning the underscores back into spaces gives the target again (each space became one underscore) |
| ChartAnalysis.NormalizeTargetDropsBands | app/services/chart_analysis.py:556 | a trailing " bands" is dropped: a target with it is normalised as the target without it |
| ChartAnalysis.NoSpaceAfterReplacingSpaces | app/services/chart_analysis.py:556 | replacing every space by a text without one (an underscore here, nothing for indicator names) leaves no space |
| ChartAnalysis.VerbGroup | app/services/chart_analysis.py:559-568 | the lowered verb is grouped by the first list it contains a word of, in the order remove (remove, delete, hide), add (add, show, display, plot, with), change (switch, change, set), view (view, look); a verb containing none of them is "action"; the group has no ':' |
| ChartAnalysis.Categorise | app/services/chart_analysis.py:556-568 | a categorised action starts with its verb group and a colon and ends with the normalised target |
| ChartAnalysis.CategoriseReadsBack | app/services/chart_analysis.py:559-568 | splitting a categorised action at ':' gives back its verb group, and for a named group its normalised target |
| ChartAnalysis.CategoriseAll | app/services/chart_analysis.py:546-568 | there is one action per regular-expression match |
| ChartAnalysis.CategoriseAllAt | app/services/chart_analysis.py:548-568 | the i-th action is the i-th match categorised |
| ChartAnalysis.CategoriseActions | app/services/chart_analysis.py:546-568 | the match loop builds exactly the categorised actions |
| ChartAnalysis.ExtractSpec | app/services/chart_analysis.py:466-570 | the extracted indicators are distinct, there is at most one timeframe, and one action per match |
| ChartAnalysis.ExtractChartInfo | app/services/chart_analysis.py:466-570 | the method extracts exactly what ExtractSpec describes |
| ChartAnalysis.ResolverOnlyWhenUnmapped | app/services/chart_analysis.py:481-486 | when the table finds a symbol the resolver's reply makes no difference; otherwise the symbols are the accepted reply |
| ChartAnalysis.RemoveFirst | app/services/chart_analysis.py:719-720 | removing a study that is absent changes nothing; removing one that is present shortens the list by one, adds nothing, and on a duplicate-free list leaves the study absent |
| ChartAnalysis.ApplyAction | app/services/chart_analysis.py:709-742 | one action never changes the symbol and keeps the studies canonical and distinct; "add" of a known indicator keeps the studies as a prefix, makes its study present and adds at most one; "remove" of a known indicator removes the first occurrence of its study (none is left when the studies were distinct); "add" or "remove" of an unknown name changes nothing; "change" to a listed timeframe sets only the interval to that timeframe's code, any other "change" sets only the chart type when the key names one and otherwise changes nothing; any other kind changes nothing |
| ChartAnalysis.ApplyActions | app/services/chart_analysis.py:709-742 | the actions in order keep the symbol and keep the studies canonical and distinct |
| ChartAnalysis.AddIndicators | app/services/chart_analysis.py:745-747 | the studies already there stay as a prefix; every named indicator with a known study has that study in the result; every appended study is the study of some named indicator; distinct and canonical studies stay so |
| ChartAnalysis.ConfigSpec | app/services/chart_analysis.py:631-753 | the symbol is the first found, else Bitcoin; the studies are canonical and distinct; with no indicator and no action the studies are empty and the type candlestick; with no action the interval is the first timeframe's code, else daily; every named indicator with a known study has that study in the configuration |
| ChartAnalysis.NothingExtractedMeansDefault | app/services/chart_analysis.py:616-638 | when nothing was extracted there is no update and the configuration is the default one |
| ChartAnalysis.ShouldUpdateChart | app/services/chart_analysis.py:616-629 | the chart is updated exactly when something was extracted |
| ChartAnalysis.InterpretActions | app/services/chart_analysis.py:709-742 | the action loop builds exactly ApplyActions of the starting configuration |
| ChartAnalysis.AppendIndicators | app/services/chart_analysis.py:745-747 | the indicator loop builds exactly AddIndicators |
| ChartAnalysis.GenerateChartConfig | app/services/chart_analysis.py:631-753 | the method builds exactly the ConfigSpec configuration, as written |
| ChartAnalysis.AnalyzeSpec | app/services/chart_analysis.py:428-464 | the chart needs an update exactly when something was extracted, and with no update the configuration is the default; the studies are always canonical |
| ChartAnalysis.AnalyzeQuery | app/services/chart_analysis.py:428-464 | the method returns exactly AnalyzeSpec, as written |
| ChartAnalysis.KindAndTarget | app/services/chart_analysis.py:710-712 | an action built as `kind:rest` reads back as that kind and the part of `rest` before its first ':' |
| ChartAnalysis.CategorisedChangeUnspaced | app/services/chart_analysis.py:556-564 | the target of a categorised "change" action contains no space |
| ChartAnalysis.UpperKeepsUnspaced | app/services/chart_analysis.py:737 | upper-casing a text without spaces leaves it without spaces |
| ChartAnalysis.ApplyActionsChartType | app/services/chart_analysis.py:728-738 | when no change target has a space, applying actions keeps the chart type among the one-word types' codes |
| ChartAnalysis.ConfigChartType | app/services/chart_analysis.py:631-753 | when no change target has a space, the generated chart type is among the one-word types' codes |
| ChartAnalysis.ChartTypeNeverTwoWords | app/services/chart_analysis.py:531-568 | as written, no query ever selects Heikin Ashi ("5"): the chart type is always one that a one-word key gives |
| ChartAnalysis.CorrectedChangeSelectsChartType | app/services/chart_analysis.py:728-738 | corrected, a "change" verb with any chart-type name, two-word ones included, selects that type's code |
| Verification.Survivors | app/crud/verification.py:12-17 | the bulk delete keeps exactly the other users' tokens and the used ones |
| Verification.Issue | app/crud/verification.py:9-31 | after creation the table ends with the new unused token; every used token and every other user's token is kept, and nothing else is added |
| Verification.Find | app/crud/verification.py:36-42 | `.first()` finds the first row whose token matches, is unused and has not expired, and there is none exactly when no row qualifies |
| Verification.Lookup | app/crud/verification.py:34-42 | a record is returned only when its token matches, it is unused and it expires after now; nothing is returned exactly when no record qualifies |
| Verification.Redeem | app/crud/verification.py:45-53 | marking reports True exactly when the lookup finds a record; on True the first redeemable row, the one the lookup returns, is marked used and every other row stays; on False the table is unchanged |
| Verification.SurvivorsHoldNoUnused | app/crud/verification.py:12-17 | after the bulk delete the user holds no unused token |
| Verification.SurvivorsSpareOthers | app/crud/verification.py:59-64 | the bulk delete leaves every other user's tokens as they were, in order |
| Verification.IssueLeavesOneUnused | app/crud/verification.py:12-28 | after a token is created the user holds exactly one unused token |
| Verification.IssueSparesOthers | app/crud/verification.py:59-64 | creating a token for one user leaves every other user's tokens as they were |
| Verification.IssuedTokenRedeemableUntilExpiry | app/crud/verification.py:19-42 | a freshly created token is found by the lookup exactly while now is before its expiry |
| Verification.IssueRetiresEarlierToken | app/crud/verification.py:12-17 | a new token makes any earlier token that only this user held unredeemable |
| Verification.SurvivorsKeepUniqueTokens | app/crud/verification.py:12-17 | the bulk delete keeps token texts unique |
| Verification.IssueKeepsUniqueTokens | app/crud/verification.py:19-28 | creating a token with a fresh UUID keeps token texts unique |
| Verification.RedeemKeepsUniqueTokens | app/crud/verification.py:45-53 | marking a token used keeps token texts unique |
| Verification.RedeemIsSingleUse | app/crud/verification.py:45-53 | once a token has been marked used, no later lookup finds it and a second mark reports False |
| Verification.CreateEmailVerification | app/crud/verification.py:9-31 | the new record expires 24 hours after now and the email token table becomes Issue of the old one; no other table changes |
| Verification.MarkEmailVerificationUsed | app/crud/verification.py:45-53 | the email token table and the flag are Redeem of the old table; no other table changes |
| Verification.CreatePasswordReset | app/crud/verification.py:56-78 | the new record expires one hour after now and the reset token table becomes Issue of the old one; no other table changes |
| Verification.MarkPasswordResetUsed | app/crud/verification.py:92-100 | the reset token table and the flag are Redeem of the old table; no other table changes |
| Database.Session.constructor | app/core/database.py:26-30 | a new session starts on empty tables whose ids start at 1 |
| UserCrud.UserIdByEmail | app/crud/user.py:14-16 | the lookup finds the first user with that email, and nothing exactly when no user has it |
| UserCrud.EmailFindsOwner | app/crud/user.py:14-16 | with unique emails, a user's own email finds that user |
| UserCrud.SameEmailsSameLookup | app/crud/user.py:14-16 | the lookup by email depends on the email column alone |
| UserCrud.LookupAfterAppend | app/crud/user.py:19-31 | adding a user with a new email leaves every other email's lookup where it was |
| UserCrud.CreateUser | app/crud/user.py:19-31 | a new user gets the next id, the hashed password and the column defaults; no other table changes |
| UserCrud.CreateKeepsEmailsUnique | app/crud/user.py:19-31 | creating a user with a new email keeps emails unique, and the email then finds the new user |
| UserCrud.UpdatePlanSpec | app/crud/user.py:34-48 | an unknown id gives None and changes nothing; otherwise that user's plan is set and every other user is unchanged |
| UserCrud.PlanUpdateKeepsMissingIds | app/crud/user.py:40-44 | a plan update sets the plan, overwrites a Stripe id only with a non-empty argument, never clears one, and changes no other field |
| UserCrud.UpdateUserPlan | app/crud/user.py:34-48 | the users and the result are UpdatePlanSpec of the old users; no other table changes |
| UserCrud.PatchChangesOnlySetFields | app/crud/user.py:62-67 | a profile update changes only the fields it sets, and a set password is stored only as its hash |
| UserCrud.UpdateUserSpec | app/crud/user.py:56-71 | an unknown id gives None and changes nothing; otherwise only that user's row changes |
| UserCrud.UpdateUser | app/crud/user.py:56-71 | the users and the result are UpdateUserSpec of the old users; no other table changes |
| UserCrud.Authenticate | app/crud/user.py:74-81 | a user is returned only when they have the email and the password checks against their hash; None exactly when no user has the email or the check fails |
| UserCrud.CreatedUserAuthenticates | app/crud/user.py:19-31 | a user just created authenticates with the password they registered with |
| UserCrud.NewPasswordAuthenticates | app/crud/user.py:56-81 | after a password change the new password authenticates the same user |
| UserCrud.UpdateLastLogin | app/crud/user.py:84-89 | only the given user's last login changes, to now |
| UserCrud.VerifyUserSpec | app/crud/user.py:92-101 | an unknown id gives None and changes nothing; otherwise that user is verified, with no other field or user changed |
| UserCrud.VerifyUserIdempotent | app/crud/user.py:92-101 | verifying twice is the same as verifying once |
| UserCrud.VerifyUserEmail | app/crud/user.py:92-101 | the users and the result are VerifyUserSpec of the old users; no other table changes |
| Auth.RegisterSpec | app/api/v1/auth.py:15-34 | an email already registered is a 400 that changes nothing and sends nothing; otherwise the user is created, a verification token issued and mailed, and the new user returned |
| Auth.Register | app/api/v1/auth.py:15-34 | the method's account tables, reply and mail are RegisterSpec of the old tables; the course tables do not change |
| Auth.SecondRegistrationRejected | app/api/v1/auth.py:18-23 | registering the same email twice creates one account: the second attempt is a 400 that changes nothing and sends nothing |
| Auth.LoginSpec | app/api/v1/auth.py:37-66 | a login succeeds exactly when the credentials authenticate an active user; it is a 401 exactly when the email or password is wrong, and otherwise a 400 for an inactive user; neither failure changes anything |
| Auth.Login | app/api/v1/auth.py:37-66 | the method's account tables and reply are LoginSpec of the old tables; the course tables do not change |
| Auth.RefreshSpec | app/api/v1/auth.py:69-107 | a refresh succeeds exactly when the token is accepted and its subject is an integer naming an existing user, answering that user's token pair; a subject that is no integer raises a 500; everything else is a 401 |
| Auth.Refresh | app/api/v1/auth.py:69-107 | the method answers RefreshSpec of the current tables and changes nothing |
| Auth.LoginThenRefresh | app/api/v1/auth.py:56-104 | the refresh token a login issues refreshes for the same user with the same token pair |
| Auth.RegisterThenLogin | app/api/v1/auth.py:15-66 | a newly registered user can log in with the password they chose |
| Auth.VerifyEmailSpec | app/api/v1/auth.py:110-131 | a 400 exactly when the token is unknown, used or expired; a 404 exactly when the token is redeemable but its user is gone; neither changes anything; on a 200 the new tables are the old ones with that user verified and the token spent |
| Auth.VerifyEmail | app/api/v1/auth.py:110-131 | the method's account tables and reply are VerifyEmailSpec of the old tables; the course tables do not change |
| Auth.VerifyEmailIsSingleUse | app/api/v1/auth.py:113-118 | a verification token works once: presented again it is a 400 that changes nothing |
| Auth.RegisterThenVerify | app/api/v1/auth.py:15-131 | the token mailed at registration verifies the new account while it has not expired |
| Auth.ResendSpec | app/api/v1/auth.py:134-156 | an unknown email is a 404 and an already verified user a 400, neither changing or sending anything; otherwise a new verification token replaces the user's unused ones and is mailed |
| Auth.ResendVerification | app/api/v1/auth.py:134-156 | the method's account tables, reply and mail are ResendSpec of the old tables; the course tables do not change |
| Auth.ResendRetiresEarlierLink | app/api/v1/auth.py:134-156 | after a resend, an earlier token that only this user held no longer verifies |
| Auth.ForgotSpec | app/api/v1/auth.py:159-174 | the reply is the same 200 message whether or not the email exists; only for a known email is a reset token issued and mailed, and nothing else changes |
| Auth.ForgotPassword | app/api/v1/auth.py:159-174 | the method's account tables, reply and mail are ForgotSpec of the old tables; the course tables do not change |
| Auth.ResetSpec | app/api/v1/auth.py:177-204 | a 400 exactly when the reset token is unknown, used or expired; a 404 exactly when the token is redeemable but its user is gone; neither changes anything; otherwise the user's password is set through the hash and the token spent |
| Auth.ResetPassword | app/api/v1/auth.py:177-204 | the method's account tables and reply are ResetSpec of the old tables; the course tables do not change |
| Auth.ResetIsSingleUse | app/api/v1/auth.py:180-189 | a reset token works once: presented again it is a 400 that changes nothing |
| Auth.ForgotResetLogin | app/api/v1/auth.py:159-204 | the mailed reset link, used before it expires, sets a password that then logs the same account in |
| Webhooks.DictGet | app/api/v1/webhooks.py:65 | `.get` raises on a value that is not an object and otherwise answers the member or None |
| Webhooks.PlanChange | app/api/v1/webhooks.py:76-89 | a plan update for an unknown user raises; otherwise it is the plan update of the user records |
| Webhooks.CheckoutSpec | app/api/v1/webhooks.py:58-93 | a checkout succeeds only with a truthy user id that `int()` reads as a known user and a non-empty plan name; it then sets that user's plan to the lower-cased name and changes no other user |
| Webhooks.DeletionSpec | app/api/v1/webhooks.py:108-133 | a deletion succeeds exactly when the user id is truthy and `int()` reads it as a known user; it then sets that user's plan to free and changes no other user |
| Webhooks.LoggingSpec | app/api/v1/webhooks.py:96-175 | a logging handler raises exactly when the event object is not an object, or for an update when its metadata is present and not an object |
| Webhooks.DispatchSpec | app/api/v1/webhooks.py:38-51 | only a completed checkout or a deleted subscription can change the users; every other event type changes nothing |
| Webhooks.WebhookSpec | app/api/v1/webhooks.py:16-57 | the event is received exactly when a signature is present, the payload verifies and the handler succeeds, and then the users are the handler's result; any failure changes nothing and, as written, is always a 500 |
| Webhooks.CheckoutUpgradesBuyer | app/api/v1/webhooks.py:60-95 | a completed checkout naming a known user and a plan sets that user's plan to the lower-cased name, records the customer id, keeps the subscription id when none is given, and touches no other user |
| Webhooks.CheckoutForUnknownUserFails | app/api/v1/webhooks.py:84-95 | a checkout for an id that no user has fails with a 500 and changes nothing |
| Webhooks.DeletionDowngradesKeepingIds | app/api/v1/webhooks.py:109-134 | a deleted subscription returns the user to the free plan and keeps both Stripe ids |
| Webhooks.OtherEventsChangeNothing | app/api/v1/webhooks.py:40-51 | events other than a completed checkout and a deleted subscription never change a user |
| Webhooks.MissingSignatureIs500 | app/api/v1/webhooks.py:22-23 | as written, a request without a signature header is answered 500 and not 400 |
| Webhooks.CorrectedBadRequestsAre400 | app/api/v1/webhooks.py:22-35 | corrected, a missing signature, an invalid payload and an invalid signature are answered 400 and change nothing |
| Webhooks.HandleCheckoutCompleted | app/api/v1/webhooks.py:60-95 | the handler succeeds exactly when CheckoutSpec does, and then the users are its result; otherwise they are unchanged |
| Webhooks.HandleSubscriptionDeleted | app/api/v1/webhooks.py:109-134 | the handler succeeds exactly when DeletionSpec does, and then the users are its result; otherwise they are unchanged |
| Webhooks.StripeWebhook | app/api/v1/webhooks.py:16-57 | the method's users and reply are WebhookSpec, as written, of the old users; no other table changes |
| EducationCrud.GetCourse | app/crud/education.py:19-21 | a course is returned only when it is in the table with that id, and nothing exactly when no course has the id |
| EducationCrud.GetLesson | app/crud/education.py:106-108 | a lesson is returned only when it is in the table with that id, and nothing exactly when no lesson has the id |
| EducationCrud.GetCourses | app/crud/education.py:24-45 | the page holds at most `limit` courses, each in the table and matching the category and the search term |
| EducationCrud.GetCoursesPagesTile | app/crud/education.py:45 | two consecutive pages together are the page that spans both: paging misses and repeats no course |
| EducationCrud.UnfilteredListIsTable | app/crud/education.py:32-45 | without a category or a search term, a page as long as the table is the whole table in table order |
| EducationCrud.InsertByOrder | app/crud/education.py:116 | inserting a lesson adds exactly that lesson, as a multiset |
| EducationCrud.InsertByOrderSorted | app/crud/education.py:116 | inserting a lesson into a list sorted by order keeps it sorted |
| EducationCrud.SortedCons | app/crud/education.py:116 | a lesson whose order is not above any of a sorted list's keeps the list sorted at its head |
| EducationCrud.SortByOrder | app/crud/education.py:116 | `ORDER BY order` yields the same lessons, as a multiset, with orders never decreasing |
| EducationCrud.SortSortedIsIdentity | app/crud/education.py:116 | lessons already in order are left where they are |
| EducationCrud.LessonsOf | app/crud/education.py:111-118 | the course's lessons are exactly the lessons with that course id, sorted by order, one entry per row |
| EducationCrud.LessonIds | app/crud/education.py:111-118 | the course's lesson ids include every lesson of the course, are all lesson ids, and are no more than its lessons |
| EducationCrud.NumberLessons | app/crud/education.py:64-73 | the new lessons get consecutive ids, the course's id and orders 1..n in the submitted order |
| EducationCrud.CreateCourseSpec | app/crud/education.py:48-77 | the course gets the next id and its fields and is appended; the lessons are added numbered; progress tables are untouched |
| EducationCrud.CreateCourse | app/crud/education.py:48-77 | the method's course tables and course are CreateCourseSpec of the old tables; the account tables do not change |
| EducationCrud.CreateKeepsWellFormed | app/crud/education.py:48-77 | creating a course keeps every lesson and progress row pointing at a row that exists |
| EducationCrud.CreatedLessonsInListOrder | app/crud/education.py:64-73 | a new course's lessons, as the lesson list returns them, are exactly the submitted lessons in the submitted order, numbered 1..n |
| EducationCrud.PatchSetsExactlyTheSetFields | app/crud/education.py:86-88 | an update with nothing set changes nothing, every set field takes its new value, and unset fields keep theirs |
| EducationCrud.UpdateCourseSpec | app/crud/education.py:80-92 | an unknown id gives None and changes nothing; otherwise the patched row replaces the first course with that id at its own position, every course with another id stays as it was, and no other table changes |
| EducationCrud.UpdateThenGet | app/crud/education.py:80-92 | after an update, `get_course` returns the updated row |
| EducationCrud.UpdateCourse | app/crud/education.py:80-92 | the method's course tables and result are UpdateCourseSpec of the old tables; the account tables do not change |
| EducationCrud.DeleteCourseSpec | app/crud/education.py:95-102 | an unknown id gives False and changes nothing; otherwise the course and its lessons are gone and every other course stays |
| EducationCrud.DeleteKeepsWellFormed | app/models/education.py:42-43 | deleting a course cascades to its lessons and their progress, leaving no row pointing at anything deleted |
| EducationCrud.DeleteCourse | app/crud/education.py:95-102 | the method's course tables and flag are DeleteCourseSpec of the old tables; the account tables do not change |
| EducationCrud.GetOrCreateSpec | app/crud/education.py:170-180 | the user's existing record for the course is returned unchanged, or a new record at 0 is appended |
| EducationCrud.GetOrCreateIdempotent | app/crud/education.py:170-180 | getting or creating twice creates at most once and returns the same record |
| EducationCrud.GetOrCreateProgress | app/crud/education.py:170-180 | the method's course tables and record are GetOrCreateSpec of the old tables; the account tables do not change |
| EducationCrud.ProgressPercent | app/crud/education.py:206-210 | a course without lessons is at 0, and otherwise the percentage is between 0 and 100 |
| EducationCrud.PercentIsFloor | app/crud/education.py:208 | the percentage is rounded down: the largest p with p * total <= 100 * completed |
| EducationCrud.CompletedWithinBound | app/crud/education.py:190-199 | with one record per user and lesson, a user's completed records for a set of lessons are no more than the lessons |
| EducationCrud.CompletedAtMostTotal | app/crud/education.py:190-204 | the completed count never exceeds the course's lesson count |
| EducationCrud.UpdateProgressSpec | app/crud/education.py:183-214 | the user's record for the course holds the percentage of the course's lessons the user completed; only the course progress table changes |
| EducationCrud.UpdateProgressInRange | app/crud/education.py:206-210 | recomputed progress is a percentage, and every stored progress stays one |
| EducationCrud.UpdateUserCourseProgress | app/crud/education.py:183-214 | the method's course tables and record are UpdateProgressSpec of the old tables; the account tables do not change |
| EducationCrud.MarkLessonSpec | app/crud/education.py:231-257 | the user's record for the lesson takes the completion state; completing stamps now, un-completing keeps the earlier stamp; courses and lessons are unchanged |
| EducationCrud.UpsertRecord | app/crud/education.py:235-250 | the upsert writes the user's record for the lesson with the given state and changes no other table |
| EducationCrud.UpsertKeepsOneRecord | app/crud/education.py:235-250 | the upsert keeps one record per user and lesson, and the user's record for the lesson is then the one written |
| EducationCrud.MarkKeepsOneRecord | app/crud/education.py:231-257 | marking keeps one record per user and lesson, and the user's record for the lesson then holds the new state |
| EducationCrud.UpdateProgressKeepsInvariants | app/crud/education.py:183-214 | recomputing an existing course's progress keeps the tables well formed and every stored progress a percentage |
| EducationCrud.UpsertKeepsWellFormed | app/crud/education.py:235-250 | upserting a record for an existing lesson keeps the tables well formed |
| EducationCrud.MarkKeepsInvariants | app/crud/education.py:231-257 | marking an existing lesson keeps the tables well formed and every stored progress a percentage |
| EducationCrud.MarkLessonComplete | app/crud/education.py:231-257 | the method's course tables and record are MarkLessonSpec of the old tables; the account tables do not change |
| EducationApi.CurrentUserOptional | app/api/v1/education.py:34-55 | a viewer is identified exactly when credentials are sent, the access token is accepted and its subject is an integer naming an existing user, and then it is that user |
| EducationApi.LoginSubjectIdentifiesUser | app/api/v1/education.py:34-55 | the subject that login puts in its tokens identifies the same user here |
| EducationApi.LessonViews | app/api/v1/education.py:103-128 | one view per lesson, in order, completed exactly when the viewer is signed in and their record for the lesson is completed |
| EducationApi.CountCompleted | app/api/v1/education.py:124-126 | the completed count is at most the number of lessons, and 0 when none is completed |
| EducationApi.ViewProgress | app/api/v1/education.py:130-136 | an anonymous viewer sees progress 0; otherwise the stored progress or the computed share, which is a percentage |
| EducationApi.CourseViewShape | app/api/v1/education.py:84-138 | the course dictionary describes the course, lists exactly its lessons sorted by order, shows progress 0 and nothing completed to anonymous viewers, and its progress is a percentage |
| EducationApi.CourseViews | app/api/v1/education.py:82-140 | the list holds one course dictionary per course, in order |
| EducationApi.EncodeList | app/api/v1/education.py:140-144 | the body is a JSON array with one entry per course |
| EducationApi.FilterTerm | app/crud/education.py:34-37 | a filter argument takes effect exactly when it is given and non-empty |
| EducationApi.ListAndDetailKeysDiffer | app/api/v1/education.py:77-158 | no list cache key is ever a detail cache key |
| EducationApi.DetailKey | app/api/v1/education.py:158 | the detail key is the detail prefix followed by the course id's digits, which read back as that id |
| EducationApi.KeyPart | app/api/v1/education.py:75-76 | a key part is lower case, and a missing or empty argument contributes its default |
| EducationApi.ListCacheKey | app/api/v1/education.py:75-77 | every list key starts with the list prefix |
| EducationApi.DeleteLeavesOtherKeys | app/core/redis.py:35-42 | deleting one key leaves what every other key reads |
| EducationApi.ListSpec | app/api/v1/education.py:62-144 | a signed-in viewer neither reads nor writes the cache and gets the list computed from the tables; an anonymous request finding a cached body is answered with that body and changes nothing; on a miss the body is the computed list; the body is never null; the store changes only for an anonymous request whose query found no course, only under the list's own key, and then to the empty list |
| EducationApi.SignedInListIsFresh | app/api/v1/education.py:72-80 | a signed-in viewer always gets the list computed from the tables |
| EducationApi.AnonymousListRepeatsFromCache | app/api/v1/education.py:76-143 | when the first anonymous list found an entry or no course, the same list repeated on a reachable store before the entry expires is answered from the cache, whatever the tables now hold, without writing |
| EducationApi.AnonymousListFillsCache | app/api/v1/education.py:142-143 | after an anonymous list on a reachable store, its key holds the body exactly when it already did or the query found no course: a list of courses does not encode and is never stored |
| EducationApi.AnonymousListWithCoursesIsRecomputed | app/api/v1/education.py:96-143 | on a cold key an anonymous list holding a course leaves the store as it was, and the next request is computed from the tables as they then are |
| EducationApi.ListKeyConflatesAll | app/api/v1/education.py:73-80 | as written, no category and the category "all" share one cache key, yet they filter differently |
| EducationApi.UnfilteredListServedAllCategory | app/api/v1/education.py:73-143 | as written, an anonymous request for the category "all" finds no course and caches the empty list under the key that a request without a category shares; that request is then served the empty list where its own query lists the course |
| EducationApi.CorrectedListKeyDeterminesList | app/api/v1/education.py:73-80 | corrected, two requests that share a cache key run the same query and get the same courses |
| EducationApi.DetailSpec | app/api/v1/education.py:147-225 | the detail is 200 or 404, and a 404 means the course does not exist; an anonymous request whose key holds a document is answered that document |
| EducationApi.UncachedDetailIsRecomputed | app/api/v1/education.py:155-225 | a detail the store does not hold, or one a signed-in viewer asks for, is computed from the tables: 404 for an unknown course, otherwise the course dictionary for that viewer |
| EducationApi.CreateEndpointSpec | app/api/v1/education.py:228-239 | the course is created, the new id's detail key deleted, and the reply is 201 |
| EducationApi.UpdateEndpointSpec | app/api/v1/education.py:242-257 | an unknown course is a 404 that changes nothing; otherwise the course is updated, its detail key deleted and the reply is 200 |
| EducationApi.DeleteEndpointSpec | app/api/v1/education.py:260-273 | an unknown course is a 404 that changes nothing; otherwise the course is deleted, its detail key deleted and the reply is 204 |
| EducationApi.UpdateRefreshesDetail | app/api/v1/education.py:242-257 | after an update on a reachable store, an anonymous detail shows the updated course and not a copy cached before |
| EducationApi.DeleteHidesDetail | app/api/v1/education.py:260-273 | after a delete on a reachable store, the course's detail is a 404 for everyone |
| EducationApi.WritesLeaveListCache | app/api/v1/education.py:242-273 | course updates and deletes leave every cached list as it was: lists refresh only when they expire |
| EducationApi.LessonDetailSpec | app/api/v1/education.py:277-308 | an unknown lesson is a 404; otherwise the lesson is shown, completed only for a signed-in viewer whose record is completed |
| EducationApi.MarkEndpointSpec | app/api/v1/education.py:312-343 | an unknown lesson is a 404 that changes nothing; otherwise the lesson is marked and the reply is 200 |
| EducationApi.MarkThenLessonDetail | app/api/v1/education.py:277-343 | after marking a lesson, the lesson detail shows that user the new state |
| EducationApi.CourseProgressSpec | app/api/v1/education.py:346-375 | an unknown course is a 404; otherwise the report counts the course's lessons and, never more, the completed ones; progress is the stored percentage, or 0 without a record |
| EducationApi.MarkThenReportedProgress | app/api/v1/education.py:312-375 | right after a lesson is marked, the reported progress is the recomputed share of the course's lessons the user completed |
| EducationApi.BuildLessonViews | app/api/v1/education.py:103-128 | the lesson loop builds exactly LessonViews and counts exactly the completed ones |
| EducationApi.BuildCourseView | app/api/v1/education.py:84-138 | the method builds exactly the CourseViewSpec dictionary |
| EducationApi.BuildCourseViews | app/api/v1/education.py:82-140 | the course loop builds exactly CourseViews of the courses |
| EducationApi.ListCourses | app/api/v1/education.py:62-144 | the method's new store and body are ListSpec, as written, of the old store: it writes only a list that encodes |
| EducationApi.GetCourseDetail | app/api/v1/education.py:147-225 | the method only reads the store and answers DetailSpec of the current tables and store |
| EducationApi.CreateNewCourse | app/api/v1/education.py:228-239 | the method's tables, store and reply are CreateEndpointSpec of the old ones; the account tables do not change |
| EducationApi.UpdateCourseInfo | app/api/v1/education.py:242-257 | the method's tables, store and reply are UpdateEndpointSpec of the old ones; the account tables do not change |
| EducationApi.DeleteCourseEndpoint | app/api/v1/education.py:260-273 | the method's tables, store and reply are DeleteEndpointSpec of the old ones; the account tables do not change |
| EducationApi.GetLessonDetail | app/api/v1/education.py:277-308 | the method answers LessonDetailSpec of the current tables |
| EducationApi.MarkLesson | app/api/v1/education.py:312-343 | the method's tables and reply are MarkEndpointSpec of the old tables; the account tables do not change |
| EducationApi.GetCourseProgress | app/api/v1/education.py:346-375 | the method answers the reply of CourseProgressSpec of the current tables |
| Polygon.StockScore | app/services/polygon_service.py:305-325 | the stock score lies between 5 and 9.5 |
| Polygon.StockClampInactive | app/services/polygon_service.py:305-325 | the final clamp to [0, 10] never changes the stock score: it is base 5 plus the momentum, volume and market-cap bonuses |
| Polygon.StockScoreMonotone | app/services/polygon_service.py:309-313 | a larger daily change never lowers the stock score |
| Polygon.CryptoScore | app/services/polygon_service.py:327-339 | the crypto score lies between 5 and 9 |
| Polygon.ForexScore | app/services/polygon_service.py:341-351 | the forex score lies between 5 and 8.5 |
| Polygon.ScoreBoundsAreTight | app/services/polygon_service.py:305-351 | each score reaches its upper bound on some input |
| Polygon.WithApiKey | app/services/polygon_service.py:23-25 | the URL sent starts with the given URL and carries a query string |
| Polygon.WithApiKeyQueryMarks | app/services/polygon_service.py:23-25 | appending the key adds a query mark only when the URL had none, so the URL never holds two |
| Polygon.MakeRequest | app/services/polygon_service.py:18-39 | the result is the decoded body of a 200 response to the keyed URL; any other status or a failed exchange gives the error document `{"results": [], "status": "ERROR"}` |
| Polygon.Get | app/services/polygon_service.py:89-104 | a lookup succeeds exactly on objects, and gives the default when the key is absent |
| Polygon.OrZero | app/services/polygon_service.py:100-104 | `value or 0` keeps truthy values and turns falsy ones into 0 |
| Polygon.DividendYield | app/services/polygon_service.py:84-97 | a dividends reply that is not an object gives no yield; one without results gives 0; a non-zero yield comes from a non-empty list of results |
| Polygon.ProcessTicker | app/services/polygon_service.py:80-131 | a ticker that processes without raising gives a live row for that ticker with a score in [5, 9.5]; one that raises is skipped |
| Polygon.PageRows | app/services/polygon_service.py:77-131 | the page loop keeps at most one row per entry, and every row it keeps is live and scored in [5, 9.5] |
| Polygon.PageRowsCompletes | app/services/polygon_service.py:77-78 | the page loop completes exactly when every entry of the page has a readable ticker |
| Polygon.PageRowsTickers | app/services/polygon_service.py:77-131 | every row the page loop keeps names a ticker of the page |
| Polygon.PageRowsStep | app/services/polygon_service.py:77-131 | one more entry either raises (unreadable ticker), is skipped (processing raised) or appends its row |
| Polygon.ScreenStocksBounded | app/services/polygon_service.py:41-144 | the stock screen answers the sample rows, or between one and `limit` live rows, each scored in [5, 9.5] |
| Polygon.ScreenStocksSpec | app/services/polygon_service.py:41-144 | when the snapshot yields no ticker list the screen answers the sample rows; when the requested page window yields a non-empty list of rows, the screen answers exactly those rows; any other answer is the non-empty rows of the requested page window |
| Polygon.LiveRowsFromPage | app/services/polygon_service.py:67-77 | every live row names a ticker of the slice `[(page - 1) * limit, page * limit)` of the snapshot |
| Polygon.ScreenStocks | app/services/polygon_service.py:41-144 | the method answers exactly ScreenStocksSpec: the page's rows, or the sample rows when the snapshot cannot be sliced, an entry is malformed or no row survives |
| Polygon.ProcessPage | app/services/polygon_service.py:77-131 | the loop computes exactly PageRows of the window |
| Polygon.PageRowsNoneExtends | app/services/polygon_service.py:77-78 | once a prefix of the page holds an entry whose ticker cannot be read, the whole page loop raises |
| Polygon.CryptoAndForexIgnoreMarket | app/services/polygon_service.py:146-275 | the crypto and forex screens answer the same rows whatever the market data and the filters |
| Polygon.ScreenCrypto | app/services/polygon_service.py:146-214 | the crypto screen always answers its sample rows |
| Polygon.ScreenForex | app/services/polygon_service.py:216-275 | the forex screen always answers its sample rows |
| Polygon.ScreenCommodities | app/services/polygon_service.py:294-303 | the commodities screen always answers its sample rows |
| Polygon.ScreenOptions | app/services/polygon_service.py:277-292 | the options screen answers one sample row whose strategy is the requested one upper-cased |
| Screener.PriceRange | app/api/v1/screener.py:40-44 | the bounds are the two comma-separated parts read as floats; anything but exactly two parts that both parse gives (10, 1000) |
| Screener.PriceRangeOfIntegers | app/api/v1/screener.py:40-44 | a range written as two integers and a comma is read back as exactly those bounds |
| Screener.SplitIntegers | app/api/v1/screener.py:42 | splitting two integers joined by a comma at the comma gives the two integers' digits |
| Screener.PriceRangeWithoutComma | app/api/v1/screener.py:41-44 | a range without a comma falls back to (10, 1000) |
| Screener.StockQueryOf | app/api/v1/screener.py:46-59 | the service receives the market caps in units (the parameters times a million), the volume, page and limit as given, and the parsed price range |
| Screener.ScreenStocks | app/api/v1/screener.py:19-84 | a 500 exactly when the service raises; a free plan sees exactly the first min(5, n) of the n rows the service returns, other plans every row; the echoed filters carry the parsed price range and the market cap in millions |
| Screener.FreeStocksArePrefixOfPaid | app/api/v1/screener.py:61-63 | for the same service answer, a free user's rows are a prefix of a paid user's, with the same filters |
| Screener.StocksWithPolygon | app/api/v1/screener.py:37-78 | backed by the market-data service, which catches its own failures, the stock screen never answers 500, and a paid plan gets the sample rows or at most `limit` rows |
| Screener.Gated | app/api/v1/screener.py:101-134 | a free user gets 403 with the market's message; otherwise the reply is 200 exactly when the service returns, with its rows unchanged, else 500 |
| Screener.FreeGateIgnoresService | app/api/v1/screener.py:101-105 | a free user's answer does not depend on the query or the service: the service is never reached |
| Screener.CryptoQueryOf | app/api/v1/screener.py:110-117 | the crypto service receives market caps and 24-hour volume in units (the parameters times a million) and the filters as given |
| Screener.PremiumMarketsForbidFree | app/api/v1/screener.py:101-105 | crypto, forex, options and commodities each answer a free user 403, whatever the service would return |
| Screener.ScreenCrypto | app/api/v1/screener.py:86-135 | a free plan gets 403; otherwise a 200 carries exactly the rows the service returned for the crypto query, with kind "crypto" and the filters echoed, and a 500 means the service raised |
| Screener.ScreenForex | app/api/v1/screener.py:136-183 | a free plan gets 403; otherwise a 200 carries exactly the rows the service returned, with kind "forex" and the filters echoed, and a 500 means the service raised |
| Screener.ScreenOptions | app/api/v1/screener.py:184-235 | a free plan gets 403; otherwise a 200 carries exactly the rows the service returned, with kind "options" and the filters echoed, and a 500 means the service raised |
| Screener.ScreenCommodities | app/api/v1/screener.py:236-278 | a free plan gets 403; otherwise a 200 carries exactly the rows the service returned, with kind "commodities" and the filters echoed, and a 500 means the service raised |
| Text.Split | app/api/v1/screener.py:42 | `str.split` on one character gives at least one part and no part holds the separator |
| Text.ParseInt | app/api/v1/webhooks.py:78 | `int()` accepts only a stripped, non-empty run of digits with an optional sign, and a negative result was written with a minus |
| Text.ParseFloatOfInt | app/api/v1/screener.py:42 | `float()` reads an integer's decimal digits back as that integer |
| Text.ParseFloat | app/api/v1/screener.py:42 | `float()` accepts only a non-empty stripped string, and a negative result was written with a minus |
| Text.Strip | app/api/v1/education.py:74-75 | `strip()` never lengthens a string and leaves no whitespace at either end |
| Text.Lower | app/api/v1/education.py:74-75 | `lower()` keeps the length and lowers each character |
| Text.LowerIsLowerCase | app/api/v1/education.py:74-75 | a lowered string is lower case, and lowering it again changes nothing |
| Text.Upper | app/services/polygon_service.py:418 | `upper()` keeps the length and raises each character |
| Text.Replace | app/services/chart_analysis.py:221 | `replace` leaves a string that does not contain the pattern unchanged |
| Text.ReplaceDropsSuffix | app/services/chart_analysis.py:556 | deleting a pattern whose first character does not recur in it from the end of a string that does not hold it gives the string back |
| Text.ReplaceDropsOne | app/services/chart_analysis.py:492 | deleting every space from two space-free parts joined by one space joins the parts |

## Left out

- The language-model calls (app/services/chart_analysis.py:297, :575, :760; app/api/v1/ai_coach.py:172; app/tasks/ai_processing.py:88) are foreign: their replies are inputs, and the long prompt strings are opaque constants.
- `analyze_query_with_ai` and `analyze_with_ai` (app/services/chart_analysis.py:266-426, :755 on) are not modelled. They are only a language-model call, a brace slice and `json.loads`. The chat gateway uses the rule-based `analyze_query`.
- The `_extract_symbols_with_ai` call itself is an input; only the check that accepts or rejects its answer (app/services/chart_analysis.py:604-610) is modelled.
- The regular-expression matching of `_extract_chart_info` (app/services/chart_analysis.py:517-547) is an input: the (verb, target) pairs that `re.findall` returns. Only the categorisation that follows is modelled.
- Celery task submission, `task.get(timeout=30)` and `update_state` are concurrency machinery. The wait's outcome is an input: the broker is down, the wait timed out, or the background task completed with a result. Effects a late worker has after a timeout are not modelled.
- Redis operations are applied one at a time. The read-then-increment race in the limiters (app/core/rate_limiter.py:28 then :40) needs concurrent requests, so a sequential model cannot show it.
- JSON encoding and decoding in the cache wrapper are not modelled: a store cell holds a decoded document, or raw text that is not JSON. The one encoding failure that matters is modelled: `json.dumps` refuses the `datetime` values of a course dictionary, so `RedisCache.set` of a list holding a course, or of any detail, stores nothing.
- MD5 hashing, JWT issue and decoding, password hashing and checking, and UUID generation are parameters. Issued tokens are represented by their subject.
- The clock is an explicit parameter and TTL expiry an explicit clock advance. Local time is the model's time, with no time zones or daylight saving.
- The email-verification endpoint reads the clock at each step; the model uses one instant per request.
- RateLimiting.AdmitSpec, RateLimiting.DailyQuerySpec: `check_rate_limit` and `check_daily_queries` read the clock more than once per call; the model uses one instant per check, so a call that straddles a second or midnight is not modelled.
- `cleanup_expired_cache` (app/tasks/ai_processing.py:111-121) only logs and is not modelled.
- Floating point is not modelled:
  - Progress percentages use exact integer arithmetic, ⌊100·completed/total⌋. The source's `int((c/t)*100)` can be one lower, for example 28 for 29 of 100.
  - Polygon numbers (dividend yield, scores) are exact reals. The score thresholds are halves and integers, so exact reals decide the scores as floats do.
- `int()` and `float()` parse only ASCII signed digits, and signed digits.digits for `float()`. Python also accepts underscores, exponents, `inf` and `nan`.
- String case mapping (`lower`, `upper`) and `strip` are ASCII-only.
- AiProcessing.Quote: `repr` of a string is modelled as the string between single quotes. Python switches to double quotes for a string holding a single quote and escapes backslashes and control characters, so the rendered prompt and its MD5 key differ for such messages.
- Store.IncrementSpec: Redis `INCRBY` fails once a counter would leave the signed 64-bit range. Counters here are unbounded; a daily or per-minute counter never comes near that bound.
- CountOf: a stored float is read as its floor. The verdict against the integer limit is the one Python's comparison gives, but the count a reply would report is the floor, not the float.
- SQL `ILIKE` is a case-insensitive substring test. The `%` and `_` wildcards inside a search term are not modelled.
- Queries without ORDER BY return rows in insertion order. `ORDER BY "order"` is modelled as a stable sort, so ties keep insertion order.
- SQLAlchemy sessions, `commit`, `refresh` and cascades are modelled as updates of the tables of a `Session` object. Foreign-key failures, the failure of a plan value outside the `UserPlan` enum, and other database errors are not modelled.
- The `stripe_customer_id` and `stripe_subscription_id` columns are written by `update_user_plan` (app/crud/user.py:41-44) but are missing from app/models/user.py. The model gives the user row both columns, so the plan update succeeds.
- `get_user_by_stripe_customer_id` (app/crud/user.py:51-53) has no caller in the core and is not modelled.
- Lesson CRUD (`create_lesson`, `update_lesson`, `delete_lesson`, app/crud/education.py:121-154) has no endpoint in the core and is not modelled.
- In a course update, a field sent as an explicit JSON null is treated like a field that was not sent.
- Response timestamps (`created_at`, `updated_at`, the screener's `timestamp`) are not part of the modelled replies. Their presence in a course dictionary is what keeps it out of the cache, which is modelled.
- The education API's second `sorted()` of the lessons is left out, because `get_lessons_by_course` already returns them in display order.
- `get_current_user` (the 401 for a missing or bad token) belongs to app/api/dependencies.py, which is not part of this model. Endpoints that need a signed-in user take the user as an input.
- FastAPI query validation appears as preconditions:
  - screener `page >= 1` and `1 <= limit <= 100`;
  - `ListCourses` `1 <= limit <= 100`;
  - `Polygon.ScreenStocks` `page >= 1` and `limit >= 0`.
  Requests that violate them get a 422 before the handler runs, which is not modelled.
- Stripe's signature verification (app/api/v1/webhooks.py:27-35) is an input: the event, or the kind of error it raises. Emails are a `Mail` result and are not sent.
- The invoice handlers of the webhook only log, and their effect on the reply is modelled. What they print is not.
- The aiohttp exchange in the market-data service is the parameter `fetch`.
- Webhooks.StripeId: a Stripe customer or subscription id that is not a JSON string is read as None, so the stored id is kept. Python would store any truthy value the event carries; Stripe always sends these ids as strings.
- Polygon.PageRows: an entry whose `ticker` is not a string is treated like an entry without one. Python would format any value into the URL.
- `Num` reads booleans as 0 and 1, as Python's arithmetic does. A `str` value in a numeric field is treated as raising, although Python's `or 0` and comparisons would accept some of them.
- `screen_crypto` and `screen_forex` (app/services/polygon_service.py:167, :236) call `_make_request` with two arguments. It takes one, so the call raises before any request is sent, and both screens always answer their sample rows. That is what `Polygon.ScreenCrypto` and `Polygon.ScreenForex` model. The processing after that call is unreachable and is not modelled.
- Only the plan "free" is gated by the screener, as in the source; any other plan string is treated as a paid plan.
- app/api/v1/__init__.py does not mount the chat, education or screener routers. That is a wiring fact and is not modelled.

## Findings

| source | as written | input that shows it | evidently intended | confidence | as-written member | corrected member |
|---|---|---|---|---|---|---|
| app/api/v1/ai_coach.py:67-70, :214-217 | Both endpoints call `RateLimiter.get_daily_queries_info`, which app/core/rate_limiter.py does not define. The AttributeError is caught and answered 500. | Any `POST /chat` within the burst limit, or any `GET /query-count` | A read-only look at the daily counter that reports used and limit without incrementing | not executed | Gateway.ChatMissingPeek, Gateway.MissingPeekFailsEveryRequest, Gateway.QueryCountEndpoint, Gateway.MissingPeekCountAlwaysFails | Gateway.ChatSpec, Gateway.ServableHitAnswers, Gateway.QueryCountSpec, Gateway.GetDailyQueryCount |
| app/api/v1/ai_coach.py:111-194 | The quota is charged at :114. Then building `ChatResponse` with a null reply fails inside the inner `try`, and the fallback charges again at :183. This is latent behind the first row: it can happen only once `get_daily_queries_info` exists, so the members show it on the flow with that look-up in place. | A chat request whose background task completes with `{"reply": null, "from_cache": false}` (a completion whose content is null) | One charge per answered request | not executed | Gateway.NullTaskReplyChargedTwice | Gateway.CorrectedNullTaskReplyChargedOnce, Gateway.CorrectedChargesExactlyOnce |
| app/tasks/ai_processing.py:93-96, app/api/v1/ai_coach.py:177-180 | A null completion is cached as `{"reply": null}`. The cache-hit path then builds a response with a null reply, which fails, so every later identical request is a 500 for an hour. The worker half happens as written; the gateway half is latent behind the first row and is shown on the flow with the look-up in place. | The model returns a null content once for a conversation; the same conversation is sent again | Only string replies are cached | not executed | AiProcessing.NullReplyPoisonsCache, Gateway.FallbackCachesNull, Gateway.PoisonedEntryFailsEveryRequest | Gateway.CorrectedChatKeepsCacheServable, AiProcessing.CorrectedCacheStaysServable |
| app/services/chart_analysis.py:556, :737-738 | An action target has its spaces replaced by underscores ("heikin_ashi"). The chart-type table is keyed with spaces ("HEIKIN ASHI"), so a chart type whose only key has two words, Heikin Ashi ("5"), is never selected. | "change to heikin ashi" | Heikin Ashi (chart type "5") is selected | not executed | ChartAnalysis.ChartTypeNeverTwoWords | ChartAnalysis.CorrectedChangeSelectsChartType |
| app/api/v1/webhooks.py:18-57 | The 400s for a missing signature, an invalid payload and an invalid signature are raised inside the outer `try`. The catch-all `except Exception` rewraps them as 500. | A webhook request without a `stripe-signature` header | 400 for a bad request, 500 only for handler failures | not executed | Webhooks.MissingSignatureIs500 | Webhooks.CorrectedBadRequestsAre400 |
| app/api/v1/education.py:73-80, app/crud/education.py:34-35 | The list cache key writes a missing category as "all". The query, however, filters by any given category, "all" included, as a substring. | One course in category "Stocks" and a cold cache: an anonymous `GET /courses?category=all` finds nothing and caches `[]`; a following anonymous `GET /courses` is served `[]`, where its own query lists the course. | Requests that share a cache key run the same query | not executed | EducationApi.ListKeyConflatesAll, EducationApi.UnfilteredListServedAllCategory | EducationApi.CorrectedListKeyDeterminesList |
