# A verified model of the travel-assistant gateway

The gateway is a Node.js chat service. It answers travel questions on a web chat endpoint and through a Telegram bot. It keeps each user's conversation in memory and passes the recent turns to a language model. The model may answer with calls to tools: web search, current weather and forecasts, currency conversion, time zones, and mock flight and hotel searches. This project models the in-memory state of the gateway, the decisions made around that state, and the deterministic part of each tool adapter. It then proves properties of that model in Dafny.

One Dafny module models each source file:

| module | file | models |
|---|---|---|
| `Common` | (shared) | `Option`/`Result`, and the JavaScript built-ins the services use: `trim`, ASCII case mapping, number to text, `padStart`, `join`, `slice`, a stable sort |
| `Logger` | `src/utils/logger.js` | the level table, the threshold, the filter, the console routing and the line format |
| `Validator` | `src/utils/validator.js` | the chat-message schema, the markup scrubber and the API-key test |
| `Recovery` | `src/services/recoveryService.js` | the `RecoveryService` class: retries, error counts, circuit breakers and fallback texts |
| `Conversation` | `src/services/conversation.js` | the `ConversationService` class: the keyed store, the twenty-message window, history, clearing and the idle sweep |
| `Metrics` | `src/services/metricsService.js` | the `MetricsService` class: request, tool and conversation counters, response-time statistics, the report and the uptime text |
| `OpenAI` | `src/services/openai.js` | request assembly, error mapping, and the Telegram window and truncation |
| `SerpApi` | `src/services/serpApi.js` | the search guard, its parameters and errors, result parsing and formatting |
| `Weather` | `src/services/weather.js` | the guard, the requests, the error mapping, the parsing defaults and the text |
| `Currency` | `src/services/currencyService.js` | the `CurrencyService` class: the rate cache, the conversion flow and the supported list |
| `Timezone` | `src/services/timezoneService.js` | the city table, the fallback chain and the reply texts |
| `Hotel` | `src/services/hotelService.js` | the mock hotel generator, its in-place amenity shuffle, the listing and the search |
| `Flight` | `src/services/flightService.js` | the mock flight generator, the listing and the search |
| `Chat` | `src/controllers/chatController.js` | the tool list, tool-call dispatch, and the order of store reads and writes in the web and Telegram handlers |

The classes whose fields the source updates in place (`RecoveryService`, `ConversationService`, `MetricsService`, `CurrencyService`) are Dafny classes. Their state is held in `map` and datatype fields, and their methods carry `modifies` clauses. Each method is proved against a function on values of that state, and the lemmas are stated about those functions. Loops in the source are `while` loops with invariants: the retry loop, the idle sweep, the hotel and flight generators, the hotel amenity shuffle on an `array`, tool-call handling and result parsing. Every input from outside the process is a parameter:

- the language model and the HTTP back ends are functions from a request to a result or an error with an optional status;
- clock readings are integers of milliseconds;
- each `Math.random()` is a draw in [0, 1);
- locale formatting is a function.

## Model

| member | source | states |
|---|---|---|
| Common.Trim | src/utils/validator.js:6 | the result has no outer whitespace and is the middle of the input, with only whitespace cut from either end |
| Common.TrimIdempotent | src/utils/validator.js:6 | trimming an already trimmed message changes nothing |
| Common.TrimOfWhitespace | src/utils/validator.js:6 | a message of whitespace only trims to the empty string |
| Common.SliceLast | src/services/conversation.js:56 | `slice(-n)` keeps the last min(n, length) elements for n >= 1 and, as `slice(-0)`, everything for n = 0 |
| Common.SortBy | src/services/flightService.js:184 | the sorted list is a permutation of the input in ascending key order |
| Common.SortKeeps | src/services/hotelService.js:220 | every property all the elements had holds of every sorted element |
| Common.Pick | src/services/hotelService.js:188 | `Math.floor(Math.random() * n)` is an index below n |
| Common.Round | src/services/weather.js:95 | `Math.round` gives the integer above the argument by more than -0.5 and at most 0.5, so halves go up |
| Common.PadStart2 | src/services/flightService.js:156 | `padStart(2, '0')` leaves texts of two or more characters alone and otherwise left-fills them with zeros to two characters |
| Common.Capitalize | src/services/hotelService.js:103 | the first character is upper-cased and the rest is unchanged |
| Common.NatToStringRoundTrip | src/services/flightService.js:156 | the decimal text of a number is digits without a leading zero that read back as the number |
| Common.AppendEach | src/services/hotelService.js:106-124 | a forEach appending one rendered text per element, numbered from 1, gives the prefix followed by all of them in order |
| Logger.Rank | src/utils/logger.js:5-10 | error, warn, info and debug rank 0 to 3; no other name has a rank |
| Logger.CurrentLevel | src/utils/logger.js:11 | as written: warn, info and debug keep their rank; every other name, "error" included, gives the info rank; the threshold is always between 1 and 3 |
| Logger.IntendedCurrentLevel | src/utils/logger.js:11 | corrected: every ranked name keeps its own rank, and only unranked names fall back to info |
| Logger.ErrorLevelBecomesInfo | src/utils/logger.js:11 | configuring "error" gives the info threshold, so info lines are still written; the corrected threshold would suppress them |
| Logger.CurrentLevelsAgreeExceptError | src/utils/logger.js:11 | both thresholds agree on every configured name other than "error" |
| Logger.NewLogger | src/utils/logger.js:4-12 | the threshold is fixed once, from the configured name |
| Logger.FormatMessage | src/utils/logger.js:14-29 | development mode gives the text line and otherwise the JSON record; the record carries the upper-cased level, the message and the timestamp, and has meta exactly when meta has a key |
| Logger.Log | src/utils/logger.js:31-41 | a line is written iff the level has a rank no higher than the threshold; error goes to console.error, warn to console.warn, all else to console.log; the line is the formatted message |
| Logger.FilterIsThreshold | src/utils/logger.js:32 | whenever a level is written, every level of lower rank is written too |
| Logger.ConstructedLoggerWritesErrorsAndWarnings | src/utils/logger.js:11-41 | whatever is configured, errors and warnings are written, and debug lines are written iff the configuration says "debug" |
| Validator.SchemaError | src/utils/validator.js:5-7 | for a string message, the schema passes iff the trimmed message has 1 to 4000 characters and the body has no other property |
| Validator.ValidateChatMessage | src/utils/validator.js:9-16 | succeeds iff the body is an object whose only property is a string message with 1 to 4000 characters after trimming; the result is the trimmed message; every error starts with "Invalid message: " |
| Validator.AcceptsPlainMessage | test/validator.test.js:6-10 | a plain message is accepted unchanged |
| Validator.RejectsEmptyMessage | test/validator.test.js:12-16 | the empty message is refused, with the schema's "not allowed to be empty" detail |
| Validator.RejectsWhitespaceOnlyMessage | src/utils/validator.js:6 | a whitespace-only message is trimmed to "" and refused like the empty one |
| Validator.RejectsOverlongMessage | test/validator.test.js:18-23 | a 4001-character message is refused |
| Validator.FindIgnoreCase | src/utils/validator.js:23 | the result is the first position at or after the start where the pattern occurs, ignoring ASCII case; None means it occurs nowhere there |
| Validator.ScriptMatchEnd | src/utils/validator.js:23 | a match starts with `<script` (in any case), ends with `</script>`, and lies within the text |
| Validator.RemoveScripts | src/utils/validator.js:23 | never lengthens the text, and leaves text without a script element unchanged |
| Validator.RemoveScheme | src/utils/validator.js:24 | never lengthens the text, and leaves text without `javascript:` unchanged |
| Validator.RunEnd | src/utils/validator.js:25 | the longest run of word (or whitespace) characters from the given position |
| Validator.HandlerMatchEnd | src/utils/validator.js:25 | a match starts with "on", has at least one word character after it, and ends with "=" |
| Validator.RemoveHandlers | src/utils/validator.js:25 | never lengthens the text, and leaves text without an event-handler prefix unchanged |
| Validator.SanitizeText | src/utils/validator.js:18-27 | anything that is not a string gives ""; the result never has outer whitespace and is never longer than the input |
| Validator.SanitizeScriptExample | test/validator.test.js:25-29 | the script element in front of "Hello" is removed, leaving "Hello" |
| Validator.TrimFixpoint | src/utils/validator.js:30 | `key.trim() === key` holds exactly when the key has no leading or trailing whitespace |
| Validator.IsValidApiKey | src/utils/validator.js:29-31 | true iff the key is a string longer than ten characters with no outer whitespace |
| Validator.ApiKeyExamples | test/validator.test.js:31-36 | the test keys: the long key is valid; "short", null and "" are not |
| Conversation.ConversationKey | src/services/conversation.js:17-19 | the key is the platform, a colon and the user id, in that order |
| Conversation.ConversationKeyInjective | src/services/conversation.js:17-19 | for platform names without a colon, equal keys mean the same platform and the same user |
| Conversation.Lookup | src/services/conversation.js:21-34 | the stored conversation when the key is present, otherwise a fresh empty one |
| Conversation.Push | src/services/conversation.js:48-57 | the list grows by the new message, capped at twenty, keeping the most recent ones, and ends with the new message |
| Conversation.Added | src/services/conversation.js:36-70 | only the user's key is set or added; its messages are the pushed list, creation time is kept, last activity is now; every other conversation is unchanged |
| Conversation.Turns | src/services/conversation.js:76-79 | each message maps to its role and content, in order |
| Conversation.Retained | src/services/conversation.js:92-101 | the sweep keeps exactly the conversations active at or after the cutoff one day back, unchanged |
| Conversation.AddedBounded | src/services/conversation.js:54-57 | adding a message keeps every conversation at twenty messages or fewer, and the one added to is non-empty |
| Conversation.HistoryEndsWithAdded | src/services/conversation.js:72-80 | after an addition, every history with a positive limit ends with the added role and content |
| Conversation.AddedIsLast | src/services/conversation.js:48-52 | the message just added is the last one stored |
| Conversation.LastTwoAdded | test/conversation.test.js:16-29 | after two additions the last two stored messages are those two, in order |
| Conversation.HistoryLength | src/services/conversation.js:72-75 | a history has min(limit, stored) entries for limit >= 1 and every stored message for limit 0 |
| Conversation.HistoryIsRecentTurns | src/services/conversation.js:72-80 | a history is the role and content of the most recent stored messages, in stored order |
| Conversation.AddedIsolated | src/services/conversation.js:36-60 | adding to one key leaves the history of every other key unchanged |
| Conversation.AddedAllKeepsWindow | src/services/conversation.js:54-57 | after any run of additions, the stored list is a suffix of everything added, all of it or at least twenty long, and never over twenty when it started that way |
| Conversation.TwentyFiveMessages | test/conversation.test.js:31-42 | twenty-five messages leave twenty stored, and the default history is the last ten |
| Conversation.TwoMessages | test/conversation.test.js:16-29 | two messages read back as both turns, in order |
| Conversation.RetainedIdempotent | src/services/conversation.js:92-101 | a second sweep at the same time removes nothing more |
| Conversation.RecentConversationSurvives | src/services/conversation.js:93-97 | a conversation active within the last day survives every sweep in that day, unchanged |
| Conversation.ClearedConversationIsEmpty | test/conversation.test.js:44-53 | after clearing, the conversation reads back empty |
| Conversation.ConversationService.constructor | src/services/conversation.js:5-9 | the store starts empty, with the twenty-message cap and the one-hour sweep interval |
| Conversation.ConversationService.GetConversation | src/services/conversation.js:21-34 | the stored conversation, or one with no messages when none is stored |
| Conversation.ConversationService.AddMessage | src/services/conversation.js:36-70 | the store becomes `Added` of the old store, and the returned conversation is the one now stored |
| Conversation.ConversationService.GetHistory | src/services/conversation.js:72-80 | the history of the current store, with at most `limit` entries when limit >= 1 |
| Conversation.ConversationService.ClearConversation | src/services/conversation.js:82-90 | exactly the user's key is removed |
| Conversation.ConversationService.Cleanup | src/services/conversation.js:92-109 | deleting one entry at a time leaves exactly `Retained` of the old store, and the count is the number removed |
| Conversation.ConversationService.TotalConversations | src/services/conversation.js:111-113 | the number of stored conversations |
| Metrics.Bump | src/services/metricsService.js:41-47 | the total grows by one, and so does exactly one of successful and failed, as the outcome says |
| Metrics.RecordResponseTime | src/services/metricsService.js:106-122 | total and count grow by the duration and by one, min and max take it in; a duration below 1000 ms adds one to fast, 1000 to 4999 to medium, 5000 to 29999 to slow and 30000 or more to very_slow, and the other three buckets stay as they were |
| Metrics.RecordRequest | src/services/metricsService.js:40-70 | the overall counter and the endpoint's counter (created at zero when missing) count the outcome, no other endpoint changes, the response time is recorded, and the tool and conversation metrics are untouched |
| Metrics.RecordToolUsage | src/services/metricsService.js:72-104 | the overall and the tool's counters (created at zero when missing) count the outcome, the tool's mean takes the new duration in, other tools and the other metrics are untouched |
| Metrics.RecordConversation | src/services/metricsService.js:124-133 | the total grows by one and the lengths list becomes the last min(n + 1, 1000) entries of the old list plus the new length |
| Metrics.TimesOfDescribes | src/services/metricsService.js:106-122 | after recording any durations, count and sum describe them, each bucket holds exactly the number of durations in its range, and the four add up to the count; min stays Infinity only when none were recorded and is then their least one; max is their greatest or 0 |
| Metrics.ReplayRequestsCounts | src/services/metricsService.js:40-62 | after any history of requests, the overall and each endpoint's counter count exactly those requests and their successes, an endpoint has a counter iff it was requested, and the response times are those of the durations |
| Metrics.RunningMeanIsMean | src/services/metricsService.js:96 | the running mean formula gives the arithmetic mean of every duration passed to it |
| Metrics.ReplayToolsMean | src/services/metricsService.js:82-96 | after any history of tool uses, a tool has statistics iff it was used; they count its uses and hold the mean of its durations |
| Metrics.RecordingKeepsKeyTotals | src/services/metricsService.js:40-96 | when the per-endpoint totals add up to the requests' total and the per-tool totals to the tools' total, recording a request or a tool use keeps both sums equal |
| Metrics.ReplayKeepsKeyTotals | src/services/metricsService.js:40-96 | after any history of requests, and after any history of tool uses, the per-key totals add up to the overall total |
| Metrics.RecordingKeepsCountersConsistent | src/services/metricsService.js:41-93 | every counter keeps successful + failed == total |
| Metrics.ConversationLengthsBounded | src/services/metricsService.js:128-132 | the lengths list never exceeds a thousand entries and ends with the length just recorded |
| Metrics.PerformanceOf | src/services/metricsService.js:141-169 | the average is the rounded mean response time (0 when nothing was recorded), min reads 0 while it is still Infinity, max is as kept, and the distribution is the four bucket counts |
| Metrics.AvgMessagesPerConversation | src/services/metricsService.js:145-147 | within 0.05 of the mean conversation length, and 0 for no conversations |
| Metrics.SuccessRate | src/services/metricsService.js:154-162 | there is no percentage ("0%") exactly when nothing was counted; otherwise, for a consistent counter, it lies between 0 and 100 |
| Metrics.UptimeRecombines | src/services/metricsService.js:177-181 | days, hours, minutes and seconds recombine to the whole seconds of the uptime, each within its range, and each unit is non-zero exactly past its threshold |
| Metrics.FormatUptimeExamples | src/services/metricsService.js:183-191 | 999 ms is "0s", 61 s is "1m 1s", 3661 s is "1h 1m" and 90061 s is "1d 1h 1m" |
| Metrics.MetricsReport | src/services/metricsService.js:139-175 | the report carries the uptime and its text; the request counters with the per-endpoint counters and their success rate; the tool counters with the per-tool statistics and their success rate; the performance section with the distribution; the conversation statistics with the rounded average length |
| Metrics.ReportedDistributionCountsResponses | src/services/metricsService.js:106-122 | after any recorded durations, the reported distribution counts each duration in the bucket of its range, and its entries add up to the number recorded |
| Metrics.Succeeded | src/services/metricsService.js:201 | a response succeeded iff its status is below 400 |
| Metrics.MetricsService.constructor | src/services/metricsService.js:4-38 | all metrics start at zero, with min at Infinity, and the start time is now |
| Metrics.MetricsService.RecordRequestEvent | src/services/metricsService.js:40-70 | the state becomes `RecordRequest` of the old state |
| Metrics.MetricsService.RecordToolUsageEvent | src/services/metricsService.js:72-104 | the state becomes `RecordToolUsage` of the old state |
| Metrics.MetricsService.RecordConversationEvent | src/services/metricsService.js:124-133 | the state becomes `RecordConversation` of the old state |
| Metrics.MetricsService.UpdateActiveConversations | src/services/metricsService.js:135-137 | only the active-conversation count changes, to the given count |
| Metrics.MetricsService.TrackFinishedRequest | src/services/metricsService.js:195-209 | a finished request is recorded under its path with its elapsed time, as a success iff the status is below 400 |
| Metrics.MetricsService.Reset | src/services/metricsService.js:211-219 | the metrics return to the initial state and the start time is now |
| Metrics.MetricsService.GetMetrics | src/services/metricsService.js:139-175 | the full report of the current metrics at time now |
| Recovery.GetFallbackResponse | src/services/recoveryService.js:82-93 | the text is the service's template with the error message embedded; a name without its own template gets the generic one, which names the service |
| Recovery.FallbacksDistinct | src/services/recoveryService.js:82-218 | two different services never give the same fallback text whatever the messages, and a service with its own template never gets the generic one |
| Recovery.FallbackStartsWithSymbol | src/services/recoveryService.js:95-217 | every fallback text opens with the symbol of its service |
| Recovery.Resolve | src/services/recoveryService.js:16-62 | the promise resolves to the operation's value or to the service's fallback for the last message, and rejects with the thrown message |
| Recovery.OpenBreakerFailsFast | src/services/recoveryService.js:13-17 | an open breaker rejects the call with "Service <name> is temporarily unavailable. Please try again later." without running the operation or changing any state |
| Recovery.BreakerClosesAtResetTime | src/services/recoveryService.js:66-69 | the breaker is open strictly before its reset time and closed from then on |
| Recovery.OtherServicesUntouched | src/services/recoveryService.js:21-56 | the retry loop changes no other service's count or breaker |
| Recovery.ExecuteLeavesOthers | src/services/recoveryService.js:12-63 | a whole call changes no other service's count or breaker |
| Recovery.Waits | src/services/recoveryService.js:53-54 | the k-th wait after attempt `from` is 2^(from + k) seconds |
| Recovery.AllFailingAttempts | src/services/recoveryService.js:21-62 | when every remaining attempt fails: one run per attempt, every wait but the last, one count per failure, the breaker set by the last failure whose prior count reached five (or left as it was), and the fallback for the last error |
| Recovery.AlwaysFailingOperation | src/services/recoveryService.js:12-62 | with the breaker closed and maxRetries >= 1, an always failing operation yields the fallback (no exception) after maxRetries runs and maxRetries - 1 waits of 2, 4, 8, ... seconds, and the count grows by maxRetries |
| Recovery.SixthFailureOpensBreaker | src/services/recoveryService.js:41-47 | from a zero count, five failures leave the breaker closed and a sixth opens it for five minutes from that failure |
| Recovery.ExpiredBreakerReopensOnFirstFailure | src/services/recoveryService.js:41-47 | the count survives the cooldown, so the first failure after the breaker expired reopens it |
| Recovery.SuccessAtAttempt | src/services/recoveryService.js:21-29 | when attempt k is the first success, the call returns its value after k runs and k - 1 waits, with the count at 0 and the breaker removed |
| Recovery.AttemptsNeverThrow | src/services/recoveryService.js:21-62 | a call the breaker lets through never throws: it stops at the first success (count reset, breaker removed) or, after every attempt failed, returns the fallback for the last error |
| Recovery.ServiceStatusOf | src/services/recoveryService.js:224-236 | one entry per breaker and no other; each is available iff its breaker has expired, carries the service's count, and has the reset time unless that is 0 |
| Recovery.RecoveryService.constructor | src/services/recoveryService.js:4-10 | empty maps, and `Valid()`: three retries and a five-minute reset timeout |
| Recovery.RecoveryService.OpenCircuitBreaker | src/services/recoveryService.js:65-76 | the service's breaker is set to now plus the reset timeout; nothing else changes |
| Recovery.RecoveryService.CloseCircuitBreaker | src/services/recoveryService.js:78-80 | only the service's breaker entry is removed |
| Recovery.RecoveryService.RecordSuccess | src/services/recoveryService.js:25-27 | the count becomes 0 and the breaker entry is removed |
| Recovery.RecoveryService.RecordFailure | src/services/recoveryService.js:40-47 | the count grows by one and the breaker opens when the count before was at least five |
| Recovery.RecoveryService.ExecuteWithRetry | src/services/recoveryService.js:12-63 | the new state, the settled result, the number of runs and the waits are exactly those of `Execute` on the old state |
| Recovery.RecoveryService.Attempts | src/services/recoveryService.js:19-62 | the loop's state, outcome, runs and waits are exactly those of `RunAttempts`, and it never throws |
| Recovery.RecoveryService.GetServiceStatus | src/services/recoveryService.js:224-236 | one entry per breaker, with the service's count, available iff the breaker is not open at `now` |
| OpenAI.NewOpenAIService | src/services/openai.js:7-16 | construction fails with "OpenAI API key is required" exactly when the key is missing or empty; otherwise the service holds the key and the travel-agent system prompt |
| OpenAI.Conversation | src/services/openai.js:54-58 | the messages are the system turn, the history unchanged, then the user turn |
| OpenAI.BuildRequest | src/services/openai.js:52-71 | the request carries the system prompt, the history and the sanitized message, the configured model, token cap and temperature, and tools with `tool_choice: 'auto'` exactly when there are tools |
| OpenAI.ErrorMessage | src/services/openai.js:99-107 | status 401, 429 and 500 map to their own messages, anything else to "Failed to generate AI response" |
| OpenAI.GenerateResponse | src/services/openai.js:50-109 | a failed request throws the message of its status; otherwise the result is the first choice's message with the usage and finish reason, and a completion without choices fails like an error without status |
| OpenAI.ErrorsDependOnlyOnStatus | src/services/openai.js:93-108 | a failed request always throws, and two failures with the same status throw the same message |
| OpenAI.BuildTelegramRequest | src/services/openai.js:111-129 | the short prompt, the last six turns and the sanitized message; at most 500 tokens; no tools |
| OpenAI.TelegramWindow | src/services/openai.js:118-122 | the request holds min(|history|, 6) turns of history, the most recent ones in order, so at most eight messages |
| OpenAI.TruncateForTelegram | src/services/openai.js:133-134 | a reply of at most 4000 characters is kept as is; a longer one becomes its first 3900 characters and "...", which is shorter and within 4000 |
| OpenAI.GenerateTelegramResponse | src/services/openai.js:111-140 | errors pass through with their own message, a missing choice or null content fails as the property read does, and a reply is the truncated content, never over 4000 characters |
| SerpApi.Params | src/services/serpApi.js:22-29 | key, engine "google" and query as given; num, country and language fall back to 5, "us" and "en" whenever the option is missing or falsy |
| SerpApi.DefaultParams | src/services/serpApi.js:22-29 | with no options the query asks google for five results with gl "us" and hl "en" |
| SerpApi.FromAnswerBox | src/services/serpApi.js:78-84 | the entry is titled "Quick Answer", marked as the answer box, has no link, and shows the box's answer when truthy and its snippet otherwise |
| SerpApi.ParseSearchResults | src/services/serpApi.js:64-87 | the loop builds exactly `ParsedResults` of the page |
| SerpApi.ParsedResults | src/services/serpApi.js:64-87 | every organic result in order, shifted by one behind a leading answer-box entry when the page has one, and nothing else |
| SerpApi.ErrorMessage | src/services/serpApi.js:54-60 | 401 gives "Invalid SERP API key", 429 "Search rate limit exceeded", anything else "Web search temporarily unavailable" |
| SerpApi.Search | src/services/serpApi.js:15-62 | without a truthy key the call fails with "Web search service not available"; otherwise a failed request fails with the message of its status and an answer gives its parsed results |
| SerpApi.UnavailableMakesNoRequest | src/services/serpApi.js:16-19 | without a key the outcome does not depend on the network at all |
| SerpApi.FormatResult | src/services/serpApi.js:120-122 | "title: snippet " followed by the link in parentheses only when there is a non-empty link |
| SerpApi.FormatResults | src/services/serpApi.js:120-122 | one line per result, in order |
| SerpApi.ExecuteFunction | src/services/serpApi.js:115-123 | unparsable arguments fail with the parse error; otherwise the search runs with the given query and country, its error passes through, and its results become their lines joined by blank lines |
| SerpApi.AnswerBoxRendersFirst | src/services/serpApi.js:78-84 | a truthy answer box renders first as "Quick Answer: <answer> ", without a link |
| Weather.WindSpeed | src/services/weather.js:101 | the reported speed, or 0 when the wind or its speed is missing |
| Weather.WindDirection | src/services/weather.js:102 | the reported direction, or 0 when the wind or its direction is missing |
| Weather.VisibilityKm | src/services/weather.js:103 | a value exactly when a non-zero visibility was reported, and then the metres rounded to whole kilometres, halves up |
| Weather.RoundOfThousandths | src/services/weather.js:103 | rounding metres divided by 1000 is (m + 500) div 1000 |
| Weather.ParseWeatherData | src/services/weather.js:92-108 | fails exactly when the conditions list is empty; otherwise "name, country", rounded temperatures, the first condition and icon, the wind defaults, the visibility in km and the local sunrise and sunset times |
| Weather.ParseForecastItem | src/services/weather.js:111-118 | an item fails exactly when it has no conditions |
| Weather.ParseForecastData | src/services/weather.js:110-124 | succeeds iff every item has conditions; then "city, country" and one entry per item, in order |
| Weather.ErrorMessage | src/services/weather.js:53-61 | 401, 404 (naming the location) and 429 map to their own messages and every other failure to "Weather service temporarily unavailable" |
| Weather.GetCurrentWeather | src/services/weather.js:15-63 | without a truthy key it fails with "Weather service not available"; otherwise a failed request fails with its status's message, and an answer gives its parsed data or, when that read fails, the generic message |
| Weather.ForecastCount | src/services/weather.js:76 | eight entries per day, never more than forty, and forty from five days on |
| Weather.GetForecast | src/services/weather.js:65-90 | without a key it fails with "Weather service not available"; otherwise it asks for `ForecastCount(days)` entries, passes a failure on with its own message and returns the parsed forecast |
| Weather.UnavailableMakesNoRequest | src/services/weather.js:16-19 | without a key neither call depends on the network |
| Weather.ExecuteFunction | src/services/weather.js:147-158 | unparsable arguments fail with the parse error; otherwise the weather at the given location is described, or its error passed on |
| Weather.MissingReadingsDefault | src/services/weather.js:101-103 | a missing wind and visibility read as speed 0, direction 0 and no visibility |
| Weather.VisibilityExamples | src/services/weather.js:103 | 10000 m is 10 km, 1500 m is 2 km, 1499 m is 1 km and 0 m is no value |
| Currency.CacheKey | src/services/currencyService.js:61 | the key is the source code, an underscore and the target code |
| Currency.CacheKeyInjective | src/services/currencyService.js:61 | for source codes without an underscore, equal keys mean the same pair |
| Currency.CacheKeysCanCollide | src/services/currencyService.js:61 | with an underscore inside a code, "A_B"/"C" and "A"/"B_C" share one cache entry |
| Currency.FetchRate | src/services/currencyService.js:70-80 | a failed lookup passes its message on; a missing or zero rate is "Currency <to> not supported"; otherwise the rate for the target |
| Currency.ConvertCodes | src/services/currencyService.js:56-108 | a failure leaves the cache alone and its message starts with "Failed to convert currency: "; the cache changes only by storing the fetched rate of this pair, stamped with the write time |
| Currency.Convert | src/services/currencyService.js:50-108 | a missing code fails on its upper-casing; otherwise the conversion of the upper-cased codes; every failure is wrapped and leaves the cache as it was |
| Currency.CacheWrittenOnlyAfterLookup | src/services/currencyService.js:64-86 | the cache changes only for a successful lookup of two different codes with no fresh entry, and then only this pair's entry, stamped now with a non-zero rate |
| Currency.SameCurrencyShortCircuit | src/services/currencyService.js:56-58 | equal codes answer "same currency" with the cache untouched, whatever the cache and the network hold |
| Currency.FreshEntryMakesNoRequest | src/services/currencyService.js:64-67 | an entry younger than an hour answers with its rate, unchanged cache, whatever the network would say |
| Currency.StaleEntryIsIgnored | src/services/currencyService.js:64 | a missing or stale entry gives the same answer as an empty cache |
| Currency.UnsupportedCurrency | src/services/currencyService.js:76-78 | a target without a rate fails with "Failed to convert currency: Currency <to> not supported" and caches nothing |
| Currency.FetchedRateIsReused | src/services/currencyService.js:64-98 | a rate fetched once answers every request for the same pair within the next hour, whatever the network says then |
| Currency.AsWrittenFetch | src/services/currencyService.js:70 | as written, every lookup fails without a status, because `axios` is never bound |
| Currency.AsWrittenCacheStaysEmpty | src/services/currencyService.js:70-86 | as written, no sequence of calls ever stores a rate |
| Currency.AsWrittenNeverConverts | src/services/currencyService.js:50-108 | as written, two different currencies always fail with "Failed to convert currency: axios is not defined", whatever came before |
| Currency.SortedKeys | src/services/currencyService.js:127 | every key exactly once, in ascending string order |
| Currency.GetSupportedCurrencies | src/services/currencyService.js:121-132 | the sorted codes of the USD rates, or the fixed list of ten when the lookup fails |
| Currency.AsWrittenSupportedIsFallback | src/services/currencyService.js:121-132 | as written, the supported list is always the fixed fallback |
| Currency.FallbackDistinct | src/services/currencyService.js:130 | the fallback list has ten distinct codes |
| Currency.CurrencyService.constructor | src/services/currencyService.js:4-9 | an empty cache with a one-hour expiry |
| Currency.CurrencyService.ConvertCurrency | src/services/currencyService.js:50-119 | the new cache and the returned text or thrown message are exactly those of `Convert` on the old cache |
| Currency.CurrencyService.ExecuteFunction | src/services/currencyService.js:39-48 | a parse failure passes through with the cache unchanged; otherwise exactly the conversion of the parsed arguments |
| Timezone.Find | src/services/timezoneService.js:122 | nothing exactly when no entry has the name; otherwise the zone of an entry with that name |
| Timezone.CitiesDistinct | src/services/timezoneService.js:98-119 | the table has twenty distinct city names |
| Timezone.ZoneOf | src/services/timezoneService.js:121-122 | a location whose lower-case form is a table name finds that entry's zone |
| Timezone.SharedZones | src/services/timezoneService.js:113-118 | mumbai and delhi both give Asia/Kolkata, beijing and shanghai both Asia/Shanghai |
| Timezone.LookupIgnoresCase | src/services/timezoneService.js:121 | "New York" finds America/New_York |
| Timezone.SearchTimezoneByLocation | src/services/timezoneService.js:96-132 | a missing location fails on its lower-casing; a name outside the table gives null without a request; a table city gives the answer of its zone's request or that request's failure |
| Timezone.DayName | src/services/timezoneService.js:145-146 | a day name exactly for 0 to 6, Sunday first |
| Timezone.DayNameExamples | src/services/timezoneService.js:145-146 | 0 is Sunday, 6 is Saturday, and 7 and -1 have no name |
| Timezone.FindFrom | src/services/timezoneService.js:73 | the first position at or after `from` where the pattern occurs, or none when it occurs nowhere there |
| Timezone.ReplaceFirst | src/services/timezoneService.js:73 | only the first occurrence of the pattern is replaced; without one the text is unchanged |
| Timezone.UtcText | src/services/timezoneService.js:166 | at most 19 characters of the ISO text with its first T replaced |
| Timezone.Describe | src/services/timezoneService.js:63-83 | no reply exactly when the answer has no datetime or its UTC form is not a valid date; otherwise a report for the location with the answer's zone, offset and day name |
| Timezone.FromAnswer | src/services/timezoneService.js:63-93 | a failed answer, or one that cannot be described, becomes the fallback with the current UTC time |
| Timezone.Direct | src/services/timezoneService.js:56-61 | the request for the raw location as a zone name: its answer or its failure |
| Timezone.GetTimezoneInfo | src/services/timezoneService.js:41-94 | every call replies: either a report for the location or the fallback quoting it with the current UTC time |
| Timezone.TableCityUsesItsZone | src/services/timezoneService.js:45-50 | a table city answered under its zone name is described from that answer |
| Timezone.RawLocationIsTriedNext | src/services/timezoneService.js:55-61 | when the table gives nothing or its request fails, the raw location is tried as a zone name |
| Timezone.BothFailuresFallBack | src/services/timezoneService.js:85-93 | when both requests fail the reply is the fallback |
| Timezone.ExecuteFunction | src/services/timezoneService.js:30-39 | only a failure to parse the arguments is thrown; otherwise the printed time reply for the location |
| Hotel.TierOf | src/services/hotelService.js:179-182 | "budget", "mid-range" and "luxury" name the three tiers with tables, and no other name does |
| Hotel.TablesOf | src/services/hotelService.js:139-182 | each tier has five chains, three room types, three descriptions and five, seven or eight distinct amenities |
| Hotel.Areas | src/services/hotelService.js:152 | five areas named after the location |
| Hotel.RatingTenths | src/services/hotelService.js:193-197 | the rating, rounded to a tenth, lies in the tier's range: 3.0-4.5 budget, 3.5-5.0 mid-range, 4.2-5.0 luxury |
| Hotel.PricePerNight | src/services/hotelService.js:199-202 | the whole price per night lies in the tier's range: 40-119 budget, 80-199 mid-range, 300-799 luxury |
| Hotel.FourToSix | src/services/hotelService.js:184-185 | four to six hotels |
| Hotel.Permuted | src/services/hotelService.js:205 | the shuffled array has the same length, with each position taken from its given source position |
| Hotel.PermutedKeepsEntries | src/services/hotelService.js:205 | shuffling a list without repeats gives a list without repeats, holding only its elements |
| Hotel.AmenityOrder | src/services/hotelService.js:205 | after any number of in-place shuffles the tier's amenity array keeps its length |
| Hotel.AmenityOrderKeepsEntries | src/services/hotelService.js:205 | after any number of shuffles the array still holds each amenity of the tier once |
| Hotel.GeneratedHotels | src/services/hotelService.js:187-217 | one hotel per iteration, in order, the i-th cut from the amenity array after i + 1 shuffles |
| Hotel.MakeHotelWellFormed | src/services/hotelService.js:188-216 | a hotel built from valid draws has a tier chain, the location, a rating and price in range, 100 to 2099 reviews, one of the areas, a tier room type and description, and four to six distinct tier amenities |
| Hotel.GeneratedWellFormed | src/services/hotelService.js:187-217 | every generated hotel is well formed |
| Hotel.GenerateMockHotels | src/services/hotelService.js:139-221 | an unknown tier fails on its table's length; a known one gives exactly its generated hotels, sorted |
| Hotel.Generate | src/services/hotelService.js:178-220 | the loop with its in-place shuffles yields exactly the generated hotels, sorted best rated first |
| Hotel.GeneratedSnoc | src/services/hotelService.js:207-216 | one more iteration adds its hotel at the end |
| Hotel.Shuffle | src/services/hotelService.js:205 | the array afterwards is the old array under the given permutation |
| Hotel.SortedGeneratedPromises | src/services/hotelService.js:184-220 | for any usable tables: four to six hotels, ratings never increasing down the list, each well formed |
| Hotel.GeneratorPromises | src/services/hotelService.js:139-221 | each tier's hotels keep the same promises |
| Hotel.RatingTextExamples | src/services/hotelService.js:110 | 4.5 prints as "4.5", 4.0 as "4" and 5.0 as "5" |
| Hotel.NightsPlural | src/services/hotelService.js:101 | the duration ends in "nights" exactly when there is more than one night |
| Hotel.Bullets | src/services/hotelService.js:116 | one "• " line per item, in order |
| Hotel.AmenityNames | src/services/hotelService.js:116 | the name of each amenity, in order |
| Hotel.SectionShowsTotal | src/services/hotelService.js:107-113 | every hotel section contains the total price for the stay |
| Hotel.GetMockHotelData | src/services/hotelService.js:89-137 | an unknown tier fails as generation does; otherwise the header, one numbered section per generated hotel in order, and the tips |
| Hotel.SearchReply | src/services/hotelService.js:62-87 | without mock data the search fails with "Failed to search hotels: Real hotel API not configured"; an unknown tier fails with the same prefix; a known tier always answers |
| Hotel.SearchHotels | src/services/hotelService.js:62-87 | the method's result is exactly `SearchReply` |
| Hotel.ExecuteFunction | src/services/hotelService.js:51-60 | a parse failure passes through; otherwise exactly the search's reply or failure |
| Hotel.DefaultArguments | src/services/hotelService.js:66-68 | with no optional arguments the listing is for two guests in one mid-range room |
| Flight.ThreeToFive | src/services/flightService.js:146 | three to five flights |
| Flight.ClassFactor | src/services/flightService.js:167-169 | business prices are three times the base, first class five times, every other class once |
| Flight.ClassFactors | src/services/flightService.js:167-170 | a business or first-class fare is the economy fare of three or five times the base, with or without stops |
| Flight.FinalPriceMonotone | src/services/flightService.js:167-178 | a higher base never gives a lower fare |
| Flight.GeneratedFlights | src/services/flightService.js:148-181 | one flight per iteration, in order, each made from that iteration's draws |
| Flight.GeneratedSnoc | src/services/flightService.js:172-180 | one more iteration adds its flight at the end |
| Flight.GenerateMockFlights | src/services/flightService.js:144-185 | the loop yields exactly the generated flights, sorted cheapest first |
| Flight.MakeFlightWellFormed | src/services/flightService.js:149-178 | a flight from valid draws has a listed airline and aircraft, 0 to 2 stops, departure 04:00 to 23:30 on the hour or half hour, 2 + 2·stops to 13 + 2·stops hours of flight, an arrival clock that is departure plus duration modulo a day, and a fare between the class's lowest and highest for its stops |
| Flight.GeneratorPromises | src/services/flightService.js:144-185 | three to five flights, prices never decreasing down the list, each well formed |
| Flight.SmallNumberText | src/services/flightService.js:156 | a whole number below 100 prints as one or two digits |
| Flight.TimesArePadded | src/services/flightService.js:154-164 | the departure and arrival of a well-formed flight read `HH:MM` |
| Flight.ReturnFlights | src/services/flightService.js:96 | there are return flights exactly when a return date is given |
| Flight.GetMockFlightData | src/services/flightService.js:90-142 | the header, one numbered section per outbound flight, the return heading and sections only with return flights, then the tips |
| Flight.OneWayHasNoReturnSection | src/services/flightService.js:96-130 | without a return date the listing is the header, the outbound sections and the tips |
| Flight.SearchReply | src/services/flightService.js:62-88 | the search fails exactly when mock data is off, and then with "Failed to search flights: Real flight API not configured" |
| Flight.SearchFlights | src/services/flightService.js:62-88 | the method's result is exactly `SearchReply` |
| Flight.ExecuteFunction | src/services/flightService.js:51-60 | a parse failure passes through; otherwise exactly the search's reply or failure |
| Flight.DefaultArguments | src/services/flightService.js:62-69 | with no return date, passenger count or class the listing is one-way for one economy passenger, with no return flights |
| Chat.AvailableTools | src/controllers/chatController.js:74-86 | the search tool is offered exactly when its key is set and the weather tool exactly when its key is set, nothing else, search first |
| Chat.GetAvailableTools | src/controllers/chatController.js:74-86 | the method's list is exactly `AvailableTools` |
| Chat.Caught | src/controllers/chatController.js:106-114 | a result is kept as is; a failure becomes "Error: " and its message |
| Chat.ToolResult | src/controllers/chatController.js:92-114 | "search_web" goes to the search service, "get_current_weather" to the weather service, any other name gives "Unknown function"; failures are caught |
| Chat.ToolResults | src/controllers/chatController.js:89-115 | one result per call, in the calls' order |
| Chat.HandleToolCalls | src/controllers/chatController.js:88-118 | the text is the results of all calls joined by blank lines |
| Chat.ToolResultsSnoc | src/controllers/chatController.js:91-117 | one more call appends a blank line and its result |
| Chat.OfferedToolsAreDispatched | src/controllers/chatController.js:74-104 | every tool offered is one the dispatch answers to |
| Chat.UnconfiguredSearchReportsError | src/controllers/chatController.js:96-113 | a search call without a search key answers "Error: " and the service's unavailable message |
| Chat.ResponseText | src/controllers/chatController.js:26-31 | with tool calls the reply is their joined results, otherwise the model's content |
| Chat.ErrorText | src/controllers/chatController.js:44 | an error's message, or "Failed to process your request" when it is empty |
| Chat.WebAnswered | src/controllers/chatController.js:24-46 | a reply is sent exactly when the model answered, and then stored as the assistant's message; a model error is answered with 500 and a non-empty message, storing nothing more |
| Chat.HandleWebChat | src/controllers/chatController.js:9-47 | the new store and the answer are those of `WebChat` on the validator's verdict |
| Chat.RejectedMessageStoresNothing | src/controllers/chatController.js:9-46 | a body the validator refuses stores nothing and is answered with 500 and an "Invalid message: " error |
| Chat.WebHistoryEndsWithMessage | src/controllers/chatController.js:15-18 | the history sent holds one to eight turns and ends with the user's message |
| Chat.WebRequestRepeatsMessage | src/controllers/chatController.js:15-24 | the request the model receives carries the user's message twice: last in the history and, sanitized, as the final turn |
| Chat.AnsweredWebChatStoresBoth | src/controllers/chatController.js:15-34 | after an answer the conversation ends with the user's message and then the reply |
| Chat.FailedGenerationKeepsUserMessage | src/controllers/chatController.js:15-46 | when the model fails, the user's message is stored last and nothing else, and the answer is 500 with a non-empty error |
| Chat.HandleTelegramMessage | src/controllers/chatController.js:49-72 | the new store and the reply are those of `TelegramChat` |
| Chat.TelegramReplyStored | src/controllers/chatController.js:51-66 | after a reply the Telegram conversation ends with the sanitized message and then the reply |
| Chat.TelegramHistoryEndsWithMessage | src/controllers/chatController.js:55-58 | the history sent holds one to four turns and ends with the sanitized message |
| Chat.PlatformsAreSeparate | src/controllers/chatController.js:52-64 | a Telegram message leaves every web conversation's history unchanged |
| Chat.AnsweredKeepsWeb | src/controllers/chatController.js:64 | storing a Telegram reply leaves a web conversation under a different key unchanged |
| Chat.ClearConversation | src/controllers/chatController.js:120-130 | only the web user's conversation is dropped and the answer is success with "Conversation cleared" |
| Chat.GetStats | src/controllers/chatController.js:132-148 | the number of conversations, and each tool's flag exactly when the tool is offered |

## Left out

- HTTP and the language-model SDK: every request is a function parameter that returns a value or an error with an optional status. The shape of the JSON answers is taken as given; `JSON.parse` of a tool call's arguments is a given `Result`.
- Time: `new Date()` and `Date.now()` are integer parameters. The hourly `setInterval` that runs `cleanup` is not modelled; `cleanup` takes the current time. The `delay` between retries is returned as the list of waits requested, not slept.
- Locale and date formatting (`toLocaleString`, `toLocaleTimeString`, `toLocaleDateString`, `toISOString`) are function parameters. The number of hotel nights, which the source computes from two date strings, is an integer parameter.
- `Math.random()`: each draw is a real in [0, 1) supplied per purpose. The order in which the engine consumes the draws is not modelled. The comparator shuffle `amenities.sort(() => 0.5 - Math.random())` is given as the permutation it applies.
- Floating point: the tools' running mean is an exact real, and `toFixed(2)` success rates are exact reals without the "%" text. The printing of fractional amounts, temperatures and currency results is a `showNumber`/`render` parameter. The 0.8 connecting-flight factor is the integer `(4 * b) / 5`, which equals `Math.floor(b * 0.8)` for the whole bases the generator draws.
- Strings are sequences of characters. Case mapping covers ASCII letters only; UTF-16 code units and Unicode case rules are not modelled.
- Common.SortBy: an insertion sort stands for `Array.prototype.sort` with a comparator subtracting the keys. Its contract states a sorted permutation; it does not state the stability that the language has guaranteed since ES2019.
- Concurrency: each handler runs to completion with no interleaving of `await` points.
- Logging: the logger is modelled through `Logger`. The other services' `logger.*` calls write nothing the model observes and are left out.
- `getStats` of the conversation store and of the controller: `memoryUsage` and `uptime` come from the process and are left out; only `totalConversations` and the tool flags are modelled.
- `destroy()` of the conversation store only clears the timer and is left out.
- Recovery.RecoveryService: `lastErrors` is declared by the source and never written; the field is kept and stays empty.
- Chat.TelegramReplyStored: `Chat.WebChat` and `Chat.HandleWebChat` take the language model as a `Generator` and the Telegram handler takes it as a `Responder`. So this lemma does not restate the 4000-character limit, which `OpenAI.TruncateForTelegram` proves for the application's responder.
- Chat.HandleWebChat: a reply whose content is `null` is stored as the text "undefined". The source stores `null` itself, and the store holds strings only.
- Flight.GenerateMockFlights: requires non-empty airline and aircraft lists. Its only caller passes the two fixed lists.
- Lookups in object literals: `fallbacks[serviceName]`, `cityTimezoneMap[...]` and `hotelChains[budgetRange]` (and the other tier tables) also find members of `Object.prototype`, so a name such as "constructor" yields a function there. The model's tables are plain maps or matches and treat such a name as absent: `Recovery.GetFallbackResponse` gives the generic text, `Timezone.SearchTimezoneByLocation` finds no zone, `Hotel.TierOf` finds no tier.
- Hotel chains, room types, descriptions and amenities are enumerations with name functions rather than strings.
- Metrics.FormatUptime: has no contract of its own; `Metrics.FormatUptimeExamples` and `Metrics.UptimeRecombines` state what it does.
- The Express app, routes and middleware, the Telegram bot wiring, the browser UI, configuration parsing and the lint setup are not part of this model.

## Findings

| source | as written | input that shows it | evidently intended | confidence | as-written member | corrected member |
|---|---|---|---|---|---|---|
| src/utils/logger.js:11 | `levels[level] \|\| levels.info`: the rank of "error" is 0, which is falsy, so the threshold becomes info | `LOG_LEVEL=error`: info and warn lines are still written | a configured "error" writes only error lines | high, not executed | Logger.ErrorLevelBecomesInfo | Logger.IntendedCurrentLevel |
| src/services/currencyService.js:70 | `axios` is used but never required, so every rate lookup throws `ReferenceError: axios is not defined` | converting 100 USD to EUR fails with "Failed to convert currency: axios is not defined" and never fills the cache | the rate is fetched, cached for an hour and reused | high, not executed | Currency.AsWrittenNeverConverts | Currency.FetchedRateIsReused |
