# Builder's daily log bot: a Dafny model of its core

The repository is a Telegram bot that does two things. It answers chat
messages with Google Gemini, which can call four tools (GitHub activity,
Vercel deployments, Render deploys and a web search), and it falls back to
Groq when Gemini is rate-limited or not configured. It also turns a day of
build activity into a LinkedIn post and a tweet. This project models:

- the chat orchestrator in `gemini.js` (`chat.dfy`, with `tools.dfy`,
  `backends.dfy` and `js.dfy`);
- the earlier Gemini-only handler in `src/gemini.js` (`draft_chat.dfy`);
- the three monitors (`github.dfy`, `vercel.dfy`, `render.dfy`);
- the web-search tool (`search.dfy`);
- the post formatter (`formatter.dfy`).

`seqs.dfy`, `text.dfy` and `wrappers.dfy` hold the generic sequence, string
and Option/Result definitions they share.

Everything outside the program is an input:

- **Backends.** Gemini, Groq and the tool executors are function-typed
  oracles. An exchange records the requests it sent and the executors it
  awaited. This is what lets "no second request" or "the executor was not
  called" be stated at all.
- **HTTP responses.** A call's HTTP response is a `Result`: the decoded
  field, or the message of the exception the request threw.
- **Clock and environment.** The clock reading (the `since` timestamp, the
  formatted date) and the environment variables are parameters.
- **Loops and specifications.** Each loop of the source is a Dafny `method`
  with a `while` loop, proved equal to a recursive specification function.
  The properties are lemmas about those functions.
- **Memoised clients.** `ai`, `configuredApiKey` and `groqClient` are the
  fields of the classes `Chat.ChatState` and `DraftChat.DraftState`.

## Model

| member | source | states |
|---|---|---|
| `Js.ReadProperty` | gemini.js:141 | Reading a property throws exactly when the target is `undefined` or `null`. On an object it yields the field, or `undefined` when the field is absent. On any other value it yields `undefined`. |
| `Tools.Settle` | gemini.js:242-247 | A thrown executor error becomes `{ error: message }`. A normal completion is passed on unchanged. |
| `Tools.Dispatch` | gemini.js:137-142 | An unknown name is recognised exactly when it is outside the four tool names. Each known name routes to its own executor. Only `web_search` receives an argument: `args.query` of an object, and `undefined` for undefined arguments (defaulted to `{}`) and for any other non-null value. For `web_search`, the route throws exactly when the arguments are `null`. |
| `Tools.ExecuteTool` | gemini.js:137-143 | An unknown name completes normally with `{ error: "Unknown function: <name>" }`. A routed name completes as its executor does. A throw comes only from the argument read or from the executor. |
| `Tools.Invoked` | gemini.js:137-143 | At most one executor is awaited, and one is awaited exactly when the name routes to an executor. |
| `Tools.ManifestsMatchDispatcher` | gemini.js:53-127 | The Gemini declarations list exactly the dispatcher's names, in order. The Groq tool list is the Gemini list wrapped as `{ type: 'function', function }`. Every declared tool is dispatched to an executor. |
| `Tools.QueryOnlyForSearch` | gemini.js:137-142 | An executor that receives an argument is the search, and the argument is the `query` property of the defaulted arguments. |
| `Backends.Apology` | gemini.js:284 | The reply on a non-rate-limit Gemini error starts with the apology prefix. |
| `Chat.IsRateLimit` | gemini.js:272-276 | An error is a rate limit exactly when its status or code is 429, or its message contains "429", or its lower-cased message contains "quota". |
| `Chat.QuotaInAnyCaseIsRateLimit` | gemini.js:272-276 | A message containing "quota" in any letter case is a rate limit. |
| `Chat.MentionOf429IsRateLimit` | gemini.js:272-276 | A message containing "429" is a rate limit, whatever the status and code. |
| `Chat.FunctionResponses` | gemini.js:239-252 | There is one function response per call, in call order. Each carries the call's name and `{ result }` of the settled executor outcome. |
| `Chat.TryGemini` | gemini.js:224-268 | One or two requests are sent, all with the client's key, the model, the tools and the system instruction. The first carries only the user turn. A second is sent exactly when the first answered with function calls. Without one no executor runs. The outcome is that of the last request. |
| `Chat.GeminiWithoutCalls` | gemini.js:232-237 | An answer without function calls is returned as its text after one request, with no executor run. |
| `Chat.GeminiRoundTwo` | gemini.js:239-266 | The second request's contents are the user turn, the model turn and one user turn holding a function-response part per call with that call's settled result. The executors awaited are those of the calls, in order. |
| `Chat.GeminiThrowingExecutor` | gemini.js:242-247 | A call whose executor throws gets `{ result: { error: message } }`, and the exchange still sends its second request. |
| `Chat.ToolResult` | gemini.js:182-188 | Arguments that fail to parse give `{ error: message }` for that tool call. Parsed arguments go through `executeTool`, and its outcome is settled, so a thrown executor error becomes `{ error: message }`. |
| `Chat.GroqThrowingExecutor` | gemini.js:181-206 | A tool call whose executor throws gets a tool message holding `{ error: message }`. Every other call still gets its message, and the second request is still sent. |
| `Chat.ToolMessages` | gemini.js:179-195 | There is one `tool` message per tool call, in order. Each echoes the call's id and holds the stringified result. |
| `Chat.FromGroq` | gemini.js:170-208 | A Groq answer starts with the `[via Groq]` marker. |
| `Chat.BothFailedReply` | gemini.js:209-212 | A failed Groq exchange starts with the "both failed" prefix. |
| `Chat.TryGroq` | gemini.js:155-212 | One or two requests are sent, all with the key, Groq model, Groq tools and `tool_choice: "auto"`. The first holds the system and user messages. A second is sent exactly when the first answered with tool calls. The reply is that of the last request, and is either marked `[via Groq]` or a "both failed" message. |
| `Chat.GroqRoundTwo` | gemini.js:177-206 | The second request's messages are the system message, the user message and the assistant turn, then one tool message per call carrying its id and stringified result. |
| `Chat.GroqFallback` | gemini.js:148-213 | Without a Groq client nothing is sent and the reply is the "both unavailable" notice. Otherwise the Groq exchange runs. |
| `Chat.Chat` | gemini.js:218-286 | Without a Gemini client no Gemini request is sent. Once Groq was contacted, the reply is a Groq reply or a "both failed" message. |
| `Chat.NoGeminiClientUsesGroq` | gemini.js:219-222 | Without a Gemini key the reply and requests are those of the Groq fallback, which starts from the system and user messages. |
| `Chat.RateLimitUsesGroq` | gemini.js:270-281 | A rate-limit error from the Gemini exchange hands the message over to the Groq fallback. |
| `Chat.QuotaErrorUsesGroq` | gemini.js:226-281 | A first Gemini request failing with a "quota" message falls back to Groq. |
| `Chat.OtherErrorApologises` | gemini.js:282-285 | Any other Gemini error gives the apology, and Groq is never contacted. |
| `Chat.GeminiReplyReturned` | gemini.js:232-268 | A Gemini reply is returned as-is, and Groq is never contacted. |
| `Chat.RunGeminiExchange` | gemini.js:224-268 | The step-by-step run of the Gemini `try` block (the request, then the loop pushing function responses, then the second request) equals `TryGemini`. |
| `Chat.PushToolMessages` | gemini.js:179-195 | The loop appends exactly `ToolMessages` to the messages and awaits exactly the executors of the tool calls, in order. |
| `Chat.RunGroqExchange` | gemini.js:155-208 | The step-by-step run of the Groq `try` block equals `TryGroq`. |
| `Chat.ChatState.constructor` | gemini.js:17-36 | All three memoised handles start empty. |
| `Chat.ChatState.GetGeminiClient` | gemini.js:20-31 | Without a key it returns `null`, and the state is unchanged. A client is reused when the key is unchanged and rebuilt when it changed. The Groq handle is untouched. |
| `Chat.ChatState.GetGroqClient` | gemini.js:38-48 | Without a key it returns `null`. Otherwise it builds the client once and keeps it, even when the key later changes. The Gemini handles are untouched. |
| `Chat.ChatState.HandleGroqFallback` | gemini.js:148-213 | It replies as `GroqFallback` with the key of the client it got. It creates the Groq client only on first use. |
| `Chat.ChatState.HandleGeminiChat` | gemini.js:218-286 | It replies as `Chat` with the keys of the clients it got. It updates the Gemini handles only when a key is set: the client is reused on an unchanged key and rebuilt otherwise. The Groq handle changes only when the exchange falls back with a Groq key and no client yet, and then it is a new client with that key. |
| `DraftChat.DraftDispatch` | src/gemini.js:121-133 | Each known name routes to its executor. An unknown name is recognised exactly outside the four names. The search throws exactly when the call's arguments are undefined or `null`. It receives `args.query` of an object, and `undefined` for any other defined, non-null value. |
| `DraftChat.DraftResult` | src/gemini.js:119-137 | An unknown name gives `{ error: "Unknown function <name>" }`. A routed call gives its settled executor outcome, so a throw becomes `{ error: message }`. A failed read of `args.query` gives `{ error: message }` too. |
| `DraftChat.DraftThrowingExecutor` | src/gemini.js:118-166 | A call whose executor throws gets `{ result: { error: message } }`. Every other call still gets its response part, and the second request is still sent. |
| `DraftChat.DraftResponses` | src/gemini.js:116-142 | There is one response per call, in order, with the call's name and `{ result }`. |
| `DraftChat.TryDraft` | src/gemini.js:91-168 | One or two requests are sent with the key, model, draft tools and system instruction. The second is sent exactly when the first answered with function calls. The reply is that of the last request. |
| `DraftChat.DraftChatRun` | src/gemini.js:85-89 | Without a client the reply is the fixed offline text, and nothing is sent. |
| `DraftChat.OfflineWithoutKey` | src/gemini.js:86-89 | Without a key nothing is sent and no executor runs. |
| `DraftChat.DraftWithoutCalls` | src/gemini.js:110-113 | An answer without calls is returned after one request. |
| `DraftChat.DraftRoundTwo` | src/gemini.js:116-166 | The second request holds the user turn, the model turn and one response part per call. The reply is the second answer's. |
| `DraftChat.DraftErrorApologises` | src/gemini.js:91-172 | A failure of the last request sent gives the apology: the first request, or the second one after the tool calls. There is no fallback. |
| `DraftChat.DraftsDiffer` | src/gemini.js:129-132 | The unknown-function error has no colon in the draft, unlike `executeTool` in `gemini.js`. A search call without arguments throws in the draft, but reaches the search in `gemini.js`, whose `args` defaults to `{}`. |
| `DraftChat.RunDraftExchange` | src/gemini.js:91-168 | The step-by-step run of the draft's `try` block equals `TryDraft`. |
| `DraftChat.DraftState.constructor` | src/gemini.js:12-13 | Both memoised handles start empty. |
| `DraftChat.DraftState.GetGeminiClient` | src/gemini.js:15-29 | Without a key it returns `null`, and the state is unchanged. A client is reused on the same key and rebuilt on a new one. |
| `DraftChat.DraftState.HandleGeminiChat` | src/gemini.js:85-173 | It replies as `DraftChatRun` with the client's key. It updates the handles only when the key is set, reusing the client on an unchanged key and building a new one otherwise. |
| `GithubMonitor.RecentEvents` | src/monitor/github.js:25-27 | Every kept event is one of the input's and was created after `since`, and every such input event is kept. |
| `GithubMonitor.RecentEventsAppend` | src/monitor/github.js:27 | The filter works event by event: the recent events of a concatenation are the concatenation of the recent events, so order and repetitions are kept. |
| `GithubMonitor.RecentEventsSingle` | src/monitor/github.js:27 | A single event is kept, once, exactly when it was created after `since`. |
| `GithubMonitor.TallyCountersAreCounts` | src/monitor/github.js:29-66 | `commits` is the sum of the pushed commit lists. `prs`, `releases`, `stars` and `issues` count the opened PRs, published releases, started watches and opened issues. |
| `GithubMonitor.TallyRepoNamesAreDistinctNames` | src/monitor/github.js:35-70 | `repoNames` is the de-duplicated list of the events' repository names. |
| `GithubMonitor.TallyIsCounting` | src/monitor/github.js:29-71 | The event-by-event fold equals the reference definition by sums, counts and de-duplication. |
| `GithubMonitor.CountersBounded` | src/monitor/github.js:41-65 | Each event adds to at most one of the four event counters, so their total is at most the number of events. |
| `GithubMonitor.UncountedEventChangesNoCounter` | src/monitor/github.js:41-65 | An event matching no counted case leaves every counter unchanged. |
| `GithubMonitor.RepoNamesDistinctInFirstSeenOrder` | src/monitor/github.js:35-70 | The names have no duplicates. Every event's repository is listed, and only those. They are listed in order of first occurrence. |
| `GithubMonitor.Aggregate` | src/monitor/github.js:29-71 | The `forEach` updating counters and the name set in place computes the tally. |
| `GithubMonitor.GetGithubActivity` | src/monitor/github.js:4-76 | The result is `null` without a username or when the request fails. Otherwise it is the tally of the recent events. |
| `VercelMonitor.ToRecord` | src/monitor/vercel.js:35-43 | The project, status and creation time are copied. The url is present exactly when truthy, with `https://` prepended. The duration is present exactly when both timestamps are truthy, and is their difference in seconds. |
| `VercelMonitor.Relevant` | src/monitor/vercel.js:31-43 | There are no more records than deployments, and every status is READY, ERROR or BUILDING. |
| `VercelMonitor.RelevantReportsExactlyTheMatches` | src/monitor/vercel.js:31-43 | Every deployment in a relevant state appears as its record, and every record comes from such a deployment. |
| `VercelMonitor.RelevantAppend` | src/monitor/vercel.js:31-43 | Filtering and mapping distribute over concatenation. |
| `VercelMonitor.RelevantSingle` | src/monitor/vercel.js:31-43 | A single deployment yields its record, once, exactly when its state is READY, ERROR or BUILDING. Together with `RelevantAppend`, the records keep the deployments' order. |
| `VercelMonitor.GetVercelDeployments` | src/monitor/vercel.js:4-48 | The result is `null` without a token or when the request fails. Otherwise it is the relevant deployments as records. |
| `RenderMonitor.NewEntriesIsFilterThenMap` | src/monitor/render.js:43-53 | The per-service entries are the recent deploys filtered, then mapped to entries for that service. |
| `RenderMonitor.RecentDeploysAppend` | src/monitor/render.js:31-57 | Visiting two service lists in sequence concatenates their entries. |
| `RenderMonitor.FailingServiceSkipped` | src/monitor/render.js:54-56 | A service whose deploy request fails contributes nothing, and the others are unaffected. |
| `RenderMonitor.NewEntriesRecentAndNamed` | src/monitor/render.js:43-53 | Each entry of a service names it and was created after `since`. |
| `RenderMonitor.EntriesRecentAndNamed` | src/monitor/render.js:31-61 | Every reported entry was created after `since` and names one of the listed services. |
| `RenderMonitor.PushNewDeploys` | src/monitor/render.js:43-53 | The per-service loop appends exactly that service's new entries. |
| `RenderMonitor.GetRenderDeploys` | src/monitor/render.js:4-66 | The result is `null` without a key or when the service list fails. Otherwise it is the recent deploys of all services, in service order. |
| `Search.TopResults` | tools/search.js:26 | The list keeps the first `min(5, n)` results, as a prefix. |
| `Search.WebSearch` | tools/search.js:3-33 | A missing key gives the configuration error. A failed request gives "Error performing search: " and the message. An absent or empty list gives "No results found.". |
| `Search.ResultsFraming` | tools/search.js:25-28 | The text starts with the first result's line and ends with the last shown result's line. |
| `Search.LaterResultsIgnored` | tools/search.js:26 | Results after the fifth do not change the text. |
| `Search.SingleResultOneLine` | tools/search.js:25-28 | A single result gives exactly its own line. |
| `Search.OneMoreResultOneMoreLine` | tools/search.js:25-28 | With fewer than five results, one more adds exactly a newline and its line. |
| `Formatter.TotalCommits` | src/formatter.js:6 | The total is the GitHub commit count, or 0 when the monitor returned nothing. |
| `Formatter.TotalDeploys` | src/formatter.js:7 | The total is zero exactly when both deployment lists are absent or empty. |
| `Formatter.TotalServices` | src/formatter.js:7-8 | The services total always equals the deploys total. |
| `Formatter.LinkedInPostOf` | src/formatter.js:13-27 | Each update line is present exactly when its count is positive, and carries that count and the names. The quiet line is present exactly when there are no commits and no deploys. |
| `Formatter.QuietExactlyWhenNothingShipped` | src/formatter.js:13-27 | The quiet line appears exactly when no update line does. |
| `Formatter.LinkedInTextParts` | src/formatter.js:10-31 | The post is the header, "What shipped today:", the update lines and the fixed closing. |
| `Formatter.FormatForLinkedIn` | src/formatter.js:3-34 | Building the post by appending equals the text of the post's structure. |
| `Formatter.LinkedInFraming` | src/formatter.js:10-31 | The post starts with the dated header and "What shipped today:", and ends with the hashtags. |
| `Formatter.LinkedInLeadsWithCommits` | src/formatter.js:13-15 | With commits, the commits line comes first after the heading. |
| `Formatter.LinkedInQuietDay` | src/formatter.js:25-27 | A day with no commits and no deploys gives exactly the header, the quiet line and the closing. |
| `Formatter.FirstRepo` | src/formatter.js:47 | The name is never empty. It is the first repository name when that name is non-empty, and "repos" otherwise. |
| `Formatter.HighlightOf` | src/formatter.js:46-52 | The highlight is pushed code exactly with commits (naming the first repo), deployed updates exactly with deploys but no commits, and planning otherwise. |
| `Formatter.FormatForTwitter` | src/formatter.js:36-57 | Building the tweet by appending equals its text. |
| `Formatter.TweetFraming` | src/formatter.js:43-54 | The tweet starts with the build-log header and ends with the footer. |
| `Formatter.TweetRepeatsDeployCount` | src/formatter.js:40-44 | The counts line shows the deploys total twice, as deploys and as services. |
| `Formatter.TweetDependsOnTotalsOnly` | src/formatter.js:36-57 | Two reports with the same totals and the same first repository give the same tweet. |
| `Text.NatToStringRoundTrip` | src/formatter.js:44 | A count rendered in decimal reads back as the same count. |
| `Text.NatToStringInjective` | src/formatter.js:44 | Different counts render differently. |
| `Text.JoinEnds` | src/formatter.js:14 | A joined list starts with its first part and ends with its last. |
| `Text.ContainsIff` | gemini.js:275-276 | The left-to-right scan for a substring agrees with "occurs at some index". |
| `Text.LowerAscii` | gemini.js:276 | Lower-casing keeps the length and maps each character. |
| `Seqs.Dedup` | src/monitor/github.js:35-70 | The result has no duplicates, holds every element and only those, and is no longer than the input. |
| `Seqs.DedupFirstSeenOrder` | src/monitor/github.js:70 | `Array.from` of a `Set` lists the elements in order of first insertion. |

## Behaviour of the source worth noting

- A Gemini error that is not a rate limit gets the apology only, and Groq
  is not tried (gemini.js:278-284).
- A tool executor that resolves to `null` hands `null` on as the call's
  result; it is not turned into an error object (gemini.js:137-143).
- The unknown-function message of src/gemini.js has no colon
  (src/gemini.js:132), while the one in `gemini.js` has one (gemini.js:142).
- A Groq answer whose content is `null` renders as `[via Groq]`, a newline
  and the text `null` (gemini.js:175, gemini.js:208).

## Left out

- Network, SDK and HTTP internals: a request is a value, and its outcome is an oracle input.
- Environment reads are inputs, and `console` logging is not modelled.
- Asynchrony: awaits happen in the order the source awaits them, and the model is sequential.
- JSON: `JSON.parse` and `JSON.stringify` are oracle functions, and their exact grammar is not modelled.
- `dayjs` date parsing and formatting: timestamps are integers, and the formatted date is a string parameter.
- The clock: "24 hours ago" is the `since` parameter, and the formatted day is the `date` parameter.
- Server-side query parameters are request details not modelled here: the GitHub page size of 100, Vercel's `since` and limit of 100, and the Render limits of 100 services and 20 deploys per service.
- VercelMonitor.ToRecord: the duration is an exact rational number of seconds, and floating-point rounding of the division by 1000 is not modelled.
- Text.LowerAscii: `toLowerCase` is modelled on ASCII letters only, and other characters are kept as they are.
- A malformed response shape is folded into the `Err` input of the monitor that reads it. Examples are a missing `deployments` list, or an event without `repo` or `payload`.
- A Gemini response whose `text` is absent, and responses with no `choices` or `candidates`, are not modelled, because the SDK shapes are taken as well formed.
- The executor oracle is deterministic: the same executor completes the same way each time it is awaited within one exchange.
- The scheduler, the Telegram bot, the entry point and the LinkedIn and Twitter posters are not part of this model.
