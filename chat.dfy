/** The chat orchestrator of gemini.js: a user message goes to Gemini with
    the tool manifest; requested function calls are executed and their
    results sent back in a second and last round; when Gemini has no client
    or is rate limited the same message is re-run against Groq, which
    follows the same two-round protocol in its own message format.

    The protocol is specified by pure functions (`TryGemini`, `TryGroq`,
    `GroqFallback`, `Chat`); the methods below run it step by step, as the
    source does, and are proved to compute exactly those functions. The
    memoised client handles are the fields of `ChatState`. */
module Chat {
  import opened Wrappers
  import opened Js
  import opened Backends
  import opened Tools
  import Seqs
  import Text

  const GeminiModel := "gemini-2.0-flash"
  const GroqModel := "openai/gpt-oss-20b"

  const SystemInstruction :=
    "You are OpenClaw, a personal dev assistant agent.\n"
    + "You help the user monitor their dev infrastructure, research prices, compare services, draft social content, and answer questions.\n"
    + "Always be concise since you reply via Telegram.\n"
    + "Use the available tools to fetch real-time data when needed."

  const Unavailable := "⚠️ Both Gemini and Groq are unavailable. Please check your API keys."
  const ViaGroq := "[via Groq]\n"
  const BothFailed := "⚠️ Both Gemini and Groq failed: "

  /** Everything outside the orchestrator that it awaits or calls: the two
      backends, the tool executors, `JSON.parse` (a value or the message of
      the `SyntaxError` it throws) and `JSON.stringify`. */
  datatype Oracles = Oracles(
    gemini: GeminiRequest -> ApiOutcome<GeminiResponse>,
    groq: GroqRequest -> ApiOutcome<AssistantMessage>,
    tools: Executors,
    parse: string -> Result<JsValue, string>,
    stringify: JsValue -> string)

  /** The two credentials read from `process.env` on each call. */
  datatype Env = Env(googleApiKey: Option<string>, groqApiKey: Option<string>)

  // ---------------- rate-limit classification ----------------

  /** `isRateLimit`: HTTP 429 in `status` or `code`, or a message that
      mentions "429" or, in any letter case, "quota". */
  function IsRateLimit(e: ApiError): (r: bool)
    ensures r <==>
      || e.status == Num(429)
      || e.code == Num(429)
      || (e.message.Some? && exists i :: Text.OccursAt(e.message.value, "429", i))
      || (e.message.Some? && exists i :: Text.OccursAt(Text.LowerAscii(e.message.value), "quota", i))
  {
    if e.message.Some? then
      Text.ContainsIff(e.message.value, "429");
      Text.ContainsIff(Text.LowerAscii(e.message.value), "quota");
      || e.status == Num(429)
      || e.code == Num(429)
      || (Truthy(e.message) && Text.Contains(e.message.value, "429"))
      || (Truthy(e.message) && Text.Contains(Text.LowerAscii(e.message.value), "quota"))
    else
      e.status == Num(429) || e.code == Num(429)
  }

  /** A message that mentions "quota" in any mix of letter cases is a rate limit. */
  lemma QuotaInAnyCaseIsRateLimit(status: JsValue, code: JsValue, before: string, quota: string, after: string)
    requires Text.LowerAscii(quota) == "quota"
    ensures IsRateLimit(ApiError(status, code, Some(before + quota + after)))
  {
    var m := before + quota + after;
    Text.LowerAsciiAppend(before + quota, after);
    Text.LowerAsciiAppend(before, quota);
    var lowered := Text.LowerAscii(before) + "quota" + Text.LowerAscii(after);
    assert Text.LowerAscii(m) == lowered;
    assert lowered[|before|..|before| + 5] == "quota";
    assert Text.OccursAt(Text.LowerAscii(m), "quota", |before|);
  }

  /** A message that mentions "429" is a rate limit, whatever the status. */
  lemma MentionOf429IsRateLimit(status: JsValue, code: JsValue, before: string, after: string)
    ensures IsRateLimit(ApiError(status, code, Some(before + "429" + after)))
  {
    var m := before + "429" + after;
    assert m[|before|..|before| + 3] == "429";
    assert Text.OccursAt(m, "429", |before|);
  }

  // ---------------- Gemini: the two-round protocol ----------------

  /** `{ role: 'user', parts: [{ text: userMessage }] }` */
  function UserTurn(msg: string): Content
  {
    Content("user", [TextPart(msg)])
  }

  function GeminiRequestFor(key: string, contents: seq<Content>): GeminiRequest
  {
    GeminiRequest(key, GeminiModel, contents, GeminiTools, SystemInstruction)
  }

  /** The entry pushed onto `functionResponses` for one call. */
  function ResponseFor(call: FunctionCall, ex: Executors): FunctionResponse
  {
    FunctionResponse(call.name, ResultObject(Settle(ExecuteTool(call.name, call.args, ex))))
  }

  /** One function response per call, in call order. */
  function FunctionResponses(calls: seq<FunctionCall>, ex: Executors): (r: seq<FunctionResponse>)
    ensures |r| == |calls|
    ensures forall i :: 0 <= i < |calls| ==> r[i] == ResponseFor(calls[i], ex)
  {
    Seqs.Map(calls, (c: FunctionCall) => ResponseFor(c, ex))
  }

  function AsResponsePart(r: FunctionResponse): Part
  {
    FunctionResponsePart(r)
  }

  /** Round-2 `contents`: the user message, the model turn, the results. */
  function SecondContents(msg: string, modelParts: seq<Part>, responses: seq<FunctionResponse>): seq<Content>
  {
    [UserTurn(msg), Content("model", modelParts), Content("user", Seqs.Map(responses, AsResponsePart))]
  }

  function CallInvocations(c: FunctionCall): seq<Executor>
  {
    Invoked(c.name, c.args)
  }

  /** How the `try` block of `handleGeminiChat` ends. */
  datatype Attempt = Replied(text: string) | Raised(error: ApiError)

  /** An attempt with the Gemini requests sent, in order, and the executors awaited. */
  datatype GeminiRun = GeminiRun(outcome: Attempt, sent: seq<GeminiRequest>, runs: seq<Executor>)

  function OutcomeOf(r: ApiOutcome<GeminiResponse>): Attempt
  {
    match r
    case Failed(e) => Raised(e)
    case Answered(resp) => Replied(resp.text)
  }

  /** The `try` block of `handleGeminiChat`, given a client built with `key`. */
  function TryGemini(key: string, msg: string, o: Oracles): (a: GeminiRun)
    ensures 1 <= |a.sent| <= 2
    ensures a.sent[0] == GeminiRequestFor(key, [UserTurn(msg)])
    ensures forall r <- a.sent ::
              r.apiKey == key && r.model == GeminiModel && r.tools == GeminiTools && r.systemInstruction == SystemInstruction
    ensures |a.sent| == 2 <==> o.gemini(a.sent[0]).Answered? && HasFunctionCalls(o.gemini(a.sent[0]).response)
    ensures |a.sent| == 1 ==> a.runs == []
    ensures |a.sent| == 1 ==> a.outcome == OutcomeOf(o.gemini(a.sent[0]))
    ensures |a.sent| == 2 ==> a.outcome == OutcomeOf(o.gemini(a.sent[1]))
  {
    var first := GeminiRequestFor(key, [UserTurn(msg)]);
    match o.gemini(first)
    case Failed(e) => GeminiRun(Raised(e), [first], [])
    case Answered(r1) =>
      if !HasFunctionCalls(r1) then GeminiRun(Replied(r1.text), [first], [])
      else
        var calls := r1.functionCalls.value;
        var second := GeminiRequestFor(key, SecondContents(msg, r1.modelParts, FunctionResponses(calls, o.tools)));
        GeminiRun(OutcomeOf(o.gemini(second)), [first, second], Seqs.FlatMap(calls, CallInvocations))
  }

  /** No function calls: the first reply's text, unchanged; no executor and
      no second request. */
  lemma GeminiWithoutCalls(key: string, msg: string, o: Oracles, r1: GeminiResponse)
    requires o.gemini(GeminiRequestFor(key, [UserTurn(msg)])) == Answered(r1)
    requires !HasFunctionCalls(r1)
    ensures TryGemini(key, msg, o) == GeminiRun(Replied(r1.text), [GeminiRequestFor(key, [UserTurn(msg)])], [])
  {
  }

  /** With function calls: round 2 carries exactly three turns, the last of
      them one `functionResponse` part per call, in call order, each with the
      call's name and `{ result }`. */
  lemma GeminiRoundTwo(key: string, msg: string, o: Oracles, r1: GeminiResponse)
    requires o.gemini(GeminiRequestFor(key, [UserTurn(msg)])) == Answered(r1)
    requires HasFunctionCalls(r1)
    ensures var a := TryGemini(key, msg, o);
      var calls := r1.functionCalls.value;
      |a.sent| == 2
      && |a.sent[1].contents| == 3
      && a.sent[1].contents[0] == UserTurn(msg)
      && a.sent[1].contents[1] == Content("model", r1.modelParts)
      && a.sent[1].contents[2].role == "user"
      && |a.sent[1].contents[2].parts| == |calls|
      && (forall i :: 0 <= i < |calls| ==>
            a.sent[1].contents[2].parts[i] == FunctionResponsePart(FunctionResponse(
              calls[i].name, ResultObject(Settle(ExecuteTool(calls[i].name, calls[i].args, o.tools))))))
      && a.runs == Seqs.FlatMap(calls, CallInvocations)
  {
    var calls := r1.functionCalls.value;
    var rs := FunctionResponses(calls, o.tools);
    var parts := Seqs.Map(rs, AsResponsePart);
    assert forall i :: 0 <= i < |calls| ==> parts[i] == FunctionResponsePart(rs[i]);
  }

  /** An executor that throws gives that call `{ result: { error: message } }`;
      the other calls still run and round 2 is still sent. */
  lemma GeminiThrowingExecutor(key: string, msg: string, o: Oracles, r1: GeminiResponse, i: nat, e: Executor, m: string)
    requires o.gemini(GeminiRequestFor(key, [UserTurn(msg)])) == Answered(r1)
    requires HasFunctionCalls(r1) && i < |r1.functionCalls.value|
    requires Dispatch(r1.functionCalls.value[i].name, r1.functionCalls.value[i].args) == Run(e)
    requires o.tools(e) == Threw(m)
    ensures var a := TryGemini(key, msg, o);
      |a.sent| == 2
      && a.sent[1].contents[2].parts[i] ==
         FunctionResponsePart(FunctionResponse(r1.functionCalls.value[i].name, ResultObject(ErrorObject(m))))
  {
    GeminiRoundTwo(key, msg, o, r1);
  }

  // ---------------- Groq: the two-round protocol ----------------

  function GroqRequestFor(key: string, messages: seq<GroqMessage>): GroqRequest
  {
    GroqRequest(key, GroqModel, messages, GroqTools, "auto")
  }

  /** The raw arguments of a tool call; an empty or absent string becomes the empty object text. */
  function ArgumentsText(arguments: Option<string>): string
  {
    if Truthy(arguments) then arguments.value else "{}"
  }

  /** The `result` of one tool call: parse the arguments, execute, and turn
      a thrown parse or executor error into `{ error: message }`. */
  function ToolResult(tc: ToolCall, o: Oracles): (v: JsValue)
    ensures o.parse(ArgumentsText(tc.arguments)).Err? ==> v == ErrorObject(o.parse(ArgumentsText(tc.arguments)).error)
    ensures o.parse(ArgumentsText(tc.arguments)).Ok? ==>
      v == Settle(ExecuteTool(tc.name, o.parse(ArgumentsText(tc.arguments)).value, o.tools))
  {
    match o.parse(ArgumentsText(tc.arguments))
    case Err(m) => ErrorObject(m)
    case Ok(args) => Settle(ExecuteTool(tc.name, args, o.tools))
  }

  function ToolMessageFor(tc: ToolCall, o: Oracles): GroqMessage
  {
    ToolMessage(tc.id, o.stringify(ToolResult(tc, o)))
  }

  /** One `role: 'tool'` message per tool call, in order, each echoing its call's id. */
  function ToolMessages(calls: seq<ToolCall>, o: Oracles): (r: seq<GroqMessage>)
    ensures |r| == |calls|
    ensures forall i :: 0 <= i < |calls| ==>
      r[i] == ToolMessage(calls[i].id, o.stringify(ToolResult(calls[i], o)))
  {
    Seqs.Map(calls, (tc: ToolCall) => ToolMessageFor(tc, o))
  }

  /** The executors a tool call awaits: none when its arguments do not parse. */
  function ToolCallInvocations(o: Oracles): ToolCall -> seq<Executor>
  {
    (tc: ToolCall) =>
      match o.parse(ArgumentsText(tc.arguments))
      case Ok(args) => Invoked(tc.name, args)
      case Err(_) => []
  }

  function FromGroq(m: AssistantMessage): (r: string)
    ensures Text.StartsWith(r, ViaGroq)
  {
    ViaGroq + ShowOrNull(m.content)
  }

  function BothFailedReply(e: ApiError): (r: string)
    ensures Text.StartsWith(r, BothFailed)
  {
    BothFailed + ShowOrUndefined(e.message)
  }

  function GroqReply(r: ApiOutcome<AssistantMessage>): string
  {
    match r
    case Failed(e) => BothFailedReply(e)
    case Answered(m) => FromGroq(m)
  }

  /** A Groq exchange: the reply, the Groq requests sent, the executors awaited. */
  datatype GroqRun = GroqRun(reply: string, sent: seq<GroqRequest>, runs: seq<Executor>)

  function FirstMessages(msg: string): seq<GroqMessage>
  {
    [SystemMessage(SystemInstruction), UserMessage(msg)]
  }

  /** The `try` block of `handleGroqFallback`, given a client built with `key`. */
  function TryGroq(key: string, msg: string, o: Oracles): (x: GroqRun)
    ensures 1 <= |x.sent| <= 2
    ensures x.sent[0] == GroqRequestFor(key, FirstMessages(msg))
    ensures forall r <- x.sent ::
              r.apiKey == key && r.model == GroqModel && r.tools == GroqTools && r.toolChoice == "auto"
    ensures |x.sent| == 2 <==> o.groq(x.sent[0]).Answered? && HasToolCalls(o.groq(x.sent[0]).response)
    ensures |x.sent| == 1 ==> x.runs == []
    ensures x.reply == GroqReply(o.groq(x.sent[|x.sent| - 1]))
    ensures Text.StartsWith(x.reply, ViaGroq) || Text.StartsWith(x.reply, BothFailed)
  {
    var first := GroqRequestFor(key, FirstMessages(msg));
    match o.groq(first)
    case Failed(e) => GroqRun(BothFailedReply(e), [first], [])
    case Answered(choice) =>
      if !HasToolCalls(choice) then GroqRun(FromGroq(choice), [first], [])
      else
        var calls := choice.toolCalls.value;
        var second := GroqRequestFor(key, FirstMessages(msg) + [AssistantTurn(choice)] + ToolMessages(calls, o));
        GroqRun(GroqReply(o.groq(second)), [first, second], Seqs.FlatMap(calls, ToolCallInvocations(o)))
  }

  /** Round 2 of Groq: system, user, the assistant message as returned, then
      one tool message per call with the matching `tool_call_id`. */
  lemma GroqRoundTwo(key: string, msg: string, o: Oracles, choice: AssistantMessage)
    requires o.groq(GroqRequestFor(key, FirstMessages(msg))) == Answered(choice)
    requires HasToolCalls(choice)
    ensures var x := TryGroq(key, msg, o);
      var calls := choice.toolCalls.value;
      var ms := x.sent[1].messages;
      |x.sent| == 2
      && |ms| == 3 + |calls|
      && ms[..3] == [SystemMessage(SystemInstruction), UserMessage(msg), AssistantTurn(choice)]
      && (forall i :: 0 <= i < |calls| ==>
            ms[3 + i].ToolMessage? && ms[3 + i].toolCallId == calls[i].id
            && ms[3 + i].content == o.stringify(ToolResult(calls[i], o)))
  {
    var calls := choice.toolCalls.value;
    var tms := ToolMessages(calls, o);
    var ms := FirstMessages(msg) + [AssistantTurn(choice)] + tms;
    assert ms[..3] == [SystemMessage(SystemInstruction), UserMessage(msg), AssistantTurn(choice)];
    assert forall i :: 0 <= i < |calls| ==> ms[3 + i] == tms[i];
  }

  /** A tool call whose executor throws gets a tool message holding
      `{ error: message }`; the other calls still get theirs and round 2 is
      still sent. */
  lemma GroqThrowingExecutor(key: string, msg: string, o: Oracles, choice: AssistantMessage,
                             i: nat, args: JsValue, e: Executor, m: string)
    requires o.groq(GroqRequestFor(key, FirstMessages(msg))) == Answered(choice)
    requires HasToolCalls(choice) && i < |choice.toolCalls.value|
    requires o.parse(ArgumentsText(choice.toolCalls.value[i].arguments)) == Ok(args)
    requires Dispatch(choice.toolCalls.value[i].name, args) == Run(e)
    requires o.tools(e) == Threw(m)
    ensures var x := TryGroq(key, msg, o);
      |x.sent| == 2
      && |x.sent[1].messages| == 3 + |choice.toolCalls.value|
      && x.sent[1].messages[3 + i] == ToolMessage(choice.toolCalls.value[i].id, o.stringify(ErrorObject(m)))
  {
    GroqRoundTwo(key, msg, o, choice);
  }

  /** `handleGroqFallback`, given the key of the client `getGroqClient`
      returns (`None` for `null`). */
  function GroqFallback(client: Option<string>, msg: string, o: Oracles): (x: GroqRun)
    ensures client.None? ==> x == GroqRun(Unavailable, [], [])
    ensures client.Some? ==> x == TryGroq(client.value, msg, o)
  {
    if client.None? then GroqRun(Unavailable, [], []) else TryGroq(client.value, msg, o)
  }

  // ---------------- routing ----------------

  /** A whole chat exchange: the reply and every request and executor call made. */
  datatype ChatRun = ChatRun(
    reply: string,
    geminiSent: seq<GeminiRequest>,
    groqSent: seq<GroqRequest>,
    runs: seq<Executor>)

  /** `handleGeminiChat`, given the keys of the clients `getGeminiClient`
      and (when it is reached) `getGroqClient` return. */
  function Chat(geminiKey: Option<string>, groqKey: Option<string>, msg: string, o: Oracles): (x: ChatRun)
    ensures geminiKey.None? ==> x.geminiSent == []
    ensures x.groqSent != [] ==> Text.StartsWith(x.reply, ViaGroq) || Text.StartsWith(x.reply, BothFailed)
  {
    if geminiKey.None? then
      var g := GroqFallback(groqKey, msg, o);
      ChatRun(g.reply, [], g.sent, g.runs)
    else
      var a := TryGemini(geminiKey.value, msg, o);
      match a.outcome
      case Replied(t) => ChatRun(t, a.sent, [], a.runs)
      case Raised(e) =>
        if IsRateLimit(e) then
          var g := GroqFallback(groqKey, msg, o);
          ChatRun(g.reply, a.sent, g.sent, a.runs + g.runs)
        else ChatRun(Apology(e), a.sent, [], a.runs)
  }

  /** Whether a chat exchange reaches `handleGroqFallback`. */
  predicate FallsBack(geminiKey: Option<string>, msg: string, o: Oracles)
  {
    geminiKey.None?
    || (TryGemini(geminiKey.value, msg, o).outcome.Raised?
        && IsRateLimit(TryGemini(geminiKey.value, msg, o).outcome.error))
  }

  /** Without a Gemini client the original message goes to Groq and Gemini is never called. */
  lemma NoGeminiClientUsesGroq(groqKey: Option<string>, msg: string, o: Oracles)
    ensures var x := Chat(None, groqKey, msg, o);
      x.geminiSent == []
      && x.reply == GroqFallback(groqKey, msg, o).reply
      && x.groqSent == GroqFallback(groqKey, msg, o).sent
      && (groqKey.Some? ==> x.groqSent[0].messages == FirstMessages(msg))
      && (groqKey.None? ==> x.reply == Unavailable && x.groqSent == [])
  {
  }

  /** A rate-limit error from either Gemini call discards the Gemini exchange
      and re-runs the original message against Groq. */
  lemma RateLimitUsesGroq(key: string, groqKey: Option<string>, msg: string, o: Oracles, e: ApiError)
    requires TryGemini(key, msg, o).outcome == Raised(e)
    requires IsRateLimit(e)
    ensures var x := Chat(Some(key), groqKey, msg, o);
      x.reply == GroqFallback(groqKey, msg, o).reply
      && x.groqSent == GroqFallback(groqKey, msg, o).sent
      && (groqKey.Some? ==> x.groqSent[0].messages == FirstMessages(msg))
  {
  }

  /** A first Gemini call failing with "quota" in its message, in any case, falls back. */
  lemma QuotaErrorUsesGroq(key: string, groqKey: Option<string>, msg: string, o: Oracles,
                           status: JsValue, code: JsValue, before: string, quota: string, after: string)
    requires Text.LowerAscii(quota) == "quota"
    requires o.gemini(GeminiRequestFor(key, [UserTurn(msg)])) == Failed(ApiError(status, code, Some(before + quota + after)))
    ensures FallsBack(Some(key), msg, o)
    ensures Chat(Some(key), groqKey, msg, o).reply == GroqFallback(groqKey, msg, o).reply
  {
    QuotaInAnyCaseIsRateLimit(status, code, before, quota, after);
  }

  /** Any other Gemini error is reported with an apology and Groq is never called. */
  lemma OtherErrorApologises(key: string, groqKey: Option<string>, msg: string, o: Oracles, e: ApiError)
    requires TryGemini(key, msg, o).outcome == Raised(e)
    requires !IsRateLimit(e)
    ensures var x := Chat(Some(key), groqKey, msg, o);
      x.reply == Apology(e) && x.groqSent == [] && !FallsBack(Some(key), msg, o)
  {
  }

  /** A Gemini reply is returned as it is, and Groq is never called. */
  lemma GeminiReplyReturned(key: string, groqKey: Option<string>, msg: string, o: Oracles, t: string)
    requires TryGemini(key, msg, o).outcome == Replied(t)
    ensures var x := Chat(Some(key), groqKey, msg, o);
      x.reply == t && x.groqSent == [] && x.geminiSent == TryGemini(key, msg, o).sent
  {
  }

  // ---------------- the exchanges, step by step ----------------

  /** One iteration of the Gemini `for` loop, in terms of its specification. */
  lemma GeminiLoopStep(calls: seq<FunctionCall>, i: nat, ex: Executors)
    requires i < |calls|
    ensures FunctionResponses(calls[..i + 1], ex) == FunctionResponses(calls[..i], ex) + [ResponseFor(calls[i], ex)]
    ensures Seqs.FlatMap(calls[..i + 1], CallInvocations) == Seqs.FlatMap(calls[..i], CallInvocations) + CallInvocations(calls[i])
  {
    assert calls[..i + 1][..i] == calls[..i];
  }

  /** One iteration of the Groq `for` loop, in terms of its specification. */
  lemma GroqLoopStep(calls: seq<ToolCall>, i: nat, o: Oracles)
    requires i < |calls|
    ensures ToolMessages(calls[..i + 1], o) == ToolMessages(calls[..i], o) + [ToolMessageFor(calls[i], o)]
    ensures Seqs.FlatMap(calls[..i + 1], ToolCallInvocations(o))
         == Seqs.FlatMap(calls[..i], ToolCallInvocations(o)) + ToolCallInvocations(o)(calls[i])
  {
    assert calls[..i + 1][..i] == calls[..i];
  }

  /** The Gemini `try` block as the source runs it, pushing one function
      response per call. */
  method RunGeminiExchange(key: string, msg: string, o: Oracles) returns (a: GeminiRun)
    ensures a == TryGemini(key, msg, o)
  {
    var first := GeminiRequestFor(key, [UserTurn(msg)]);
    var outcome := o.gemini(first);
    if outcome.Failed? {
      return GeminiRun(Raised(outcome.error), [first], []);
    }
    var result := outcome.response;
    if !HasFunctionCalls(result) {
      return GeminiRun(Replied(result.text), [first], []);
    }
    var functionCalls := result.functionCalls.value;
    var functionResponses: seq<FunctionResponse> := [];
    var runs: seq<Executor> := [];
    var i := 0;
    while i < |functionCalls|
      invariant 0 <= i <= |functionCalls|
      invariant functionResponses == FunctionResponses(functionCalls[..i], o.tools)
      invariant runs == Seqs.FlatMap(functionCalls[..i], CallInvocations)
    {
      var call := functionCalls[i];
      var functionResult: JsValue;
      match ExecuteTool(call.name, call.args, o.tools) {
        case Normal(v) => functionResult := v;
        case Threw(m) => functionResult := ErrorObject(m);
      }
      runs := runs + Invoked(call.name, call.args);
      functionResponses := functionResponses + [FunctionResponse(call.name, ResultObject(functionResult))];
      GeminiLoopStep(functionCalls, i, o.tools);
      i := i + 1;
    }
    assert functionCalls[..i] == functionCalls;
    var second := GeminiRequestFor(key, SecondContents(msg, result.modelParts, functionResponses));
    a := GeminiRun(OutcomeOf(o.gemini(second)), [first, second], runs);
  }

  /** The Groq `for` loop: one `role: 'tool'` message pushed per tool call. */
  method PushToolMessages(toolCalls: seq<ToolCall>, o: Oracles, messages: seq<GroqMessage>)
    returns (updated: seq<GroqMessage>, runs: seq<Executor>)
    ensures updated == messages + ToolMessages(toolCalls, o)
    ensures runs == Seqs.FlatMap(toolCalls, ToolCallInvocations(o))
  {
    updated := messages;
    runs := [];
    var i := 0;
    while i < |toolCalls|
      invariant 0 <= i <= |toolCalls|
      invariant updated == messages + ToolMessages(toolCalls[..i], o)
      invariant runs == Seqs.FlatMap(toolCalls[..i], ToolCallInvocations(o))
    {
      var toolCall := toolCalls[i];
      var result: JsValue;
      match o.parse(ArgumentsText(toolCall.arguments)) {
        case Err(m) =>
          result := ErrorObject(m);
        case Ok(args) =>
          runs := runs + Invoked(toolCall.name, args);
          match ExecuteTool(toolCall.name, args, o.tools) {
            case Normal(v) => result := v;
            case Threw(m) => result := ErrorObject(m);
          }
      }
      Seqs.AppendAssoc(messages, ToolMessages(toolCalls[..i], o), [ToolMessageFor(toolCall, o)]);
      updated := updated + [ToolMessage(toolCall.id, o.stringify(result))];
      GroqLoopStep(toolCalls, i, o);
      i := i + 1;
    }
    assert toolCalls[..i] == toolCalls;
  }

  /** The Groq `try` block as the source runs it, pushing onto `messages`. */
  method RunGroqExchange(key: string, msg: string, o: Oracles) returns (x: GroqRun)
    ensures x == TryGroq(key, msg, o)
  {
    var messages := FirstMessages(msg);
    var first := GroqRequestFor(key, messages);
    var response := o.groq(first);
    if response.Failed? {
      return GroqRun(BothFailedReply(response.error), [first], []);
    }
    var choice := response.response;
    if !HasToolCalls(choice) {
      return GroqRun(FromGroq(choice), [first], []);
    }
    messages := messages + [AssistantTurn(choice)];
    var runs;
    messages, runs := PushToolMessages(choice.toolCalls.value, o, messages);
    var second := GroqRequestFor(key, messages);
    x := GroqRun(GroqReply(o.groq(second)), [first, second], runs);
  }

  // ---------------- memoised clients and the handlers ----------------

  /** The key of the Gemini client `getGeminiClient` returns. */
  function GeminiKeyFor(apiKey: Option<string>): Option<string>
  {
    if Truthy(apiKey) then apiKey else None
  }

  /** The key of the Groq client `getGroqClient` returns: the memoised
      client keeps the key it was first built with. */
  function GroqKeyFor(current: GroqClient?, apiKey: Option<string>): Option<string>
  {
    if !Truthy(apiKey) then None
    else if current != null then Some(current.apiKey)
    else apiKey
  }

  /** The module-level `ai`, `configuredApiKey` and `groqClient` of gemini.js. */
  class ChatState {
    var ai: GeminiClient?
    var configuredApiKey: Option<string>
    var groqClient: GroqClient?

    ghost predicate Valid()
      reads this
    {
      ai != null ==> configuredApiKey == Some(ai.apiKey)
    }

    constructor ()
      ensures Valid()
      ensures ai == null && configuredApiKey == None && groqClient == null
    {
      ai := null;
      configuredApiKey := None;
      groqClient := null;
    }

    /** Rebuilds the client exactly when there is none or the key changed. */
    method GetGeminiClient(apiKey: Option<string>) returns (client: GeminiClient?)
      requires Valid()
      modifies this
      ensures Valid()
      ensures !Truthy(apiKey) ==> client == null && ai == old(ai) && configuredApiKey == old(configuredApiKey)
      ensures Truthy(apiKey) ==>
                client != null && client == ai && configuredApiKey == apiKey && client.apiKey == apiKey.value
      ensures Truthy(apiKey) && (old(ai) == null || old(configuredApiKey) != apiKey) ==> fresh(client)
      ensures Truthy(apiKey) && old(ai) != null && old(configuredApiKey) == apiKey ==> client == old(ai)
      ensures groqClient == old(groqClient)
    {
      if !Truthy(apiKey) {
        return null;
      }
      if ai == null || configuredApiKey != apiKey {
        ai := new GeminiClient(apiKey.value);
        configuredApiKey := apiKey;
      }
      client := ai;
    }

    /** Builds the client once; a later change of key does not rebuild it. */
    method GetGroqClient(apiKey: Option<string>) returns (client: GroqClient?)
      requires Valid()
      modifies this
      ensures Valid()
      ensures !Truthy(apiKey) ==> client == null && groqClient == old(groqClient)
      ensures Truthy(apiKey) ==> client != null && client == groqClient
      ensures Truthy(apiKey) && old(groqClient) == null ==> fresh(client) && client.apiKey == apiKey.value
      ensures Truthy(apiKey) && old(groqClient) != null ==> client == old(groqClient)
      ensures ai == old(ai) && configuredApiKey == old(configuredApiKey)
      ensures (if client == null then None else Some(client.apiKey)) == GroqKeyFor(old(groqClient), apiKey)
    {
      if !Truthy(apiKey) {
        return null;
      }
      if groqClient == null {
        groqClient := new GroqClient(apiKey.value);
      }
      client := groqClient;
    }

    /** `handleGroqFallback(userMessage)` */
    method HandleGroqFallback(msg: string, groqApiKey: Option<string>, o: Oracles) returns (x: GroqRun)
      requires Valid()
      modifies this
      ensures Valid()
      ensures x == GroqFallback(GroqKeyFor(old(groqClient), groqApiKey), msg, o)
      ensures ai == old(ai) && configuredApiKey == old(configuredApiKey)
      ensures Truthy(groqApiKey) && old(groqClient) == null ==>
        fresh(groqClient) && groqClient.apiKey == groqApiKey.value
      ensures !(Truthy(groqApiKey) && old(groqClient) == null) ==> groqClient == old(groqClient)
    {
      var groq := GetGroqClient(groqApiKey);
      if groq == null {
        return GroqRun(Unavailable, [], []);
      }
      x := RunGroqExchange(groq.apiKey, msg, o);
    }

    /** `handleGeminiChat(userMessage)`: always returns a reply, never throws. */
    method HandleGeminiChat(msg: string, env: Env, o: Oracles) returns (x: ChatRun)
      requires Valid()
      modifies this
      ensures Valid()
      ensures x == Chat(GeminiKeyFor(env.googleApiKey), GroqKeyFor(old(groqClient), env.groqApiKey), msg, o)
      ensures Truthy(env.googleApiKey) ==> ai != null && configuredApiKey == env.googleApiKey
      ensures !Truthy(env.googleApiKey) ==> ai == old(ai) && configuredApiKey == old(configuredApiKey)
      ensures Truthy(env.googleApiKey) && old(ai) != null && old(configuredApiKey) == env.googleApiKey ==>
        ai == old(ai)
      ensures Truthy(env.googleApiKey) && !(old(ai) != null && old(configuredApiKey) == env.googleApiKey) ==>
        fresh(ai)
      ensures !(Truthy(env.groqApiKey) && old(groqClient) == null) ==> groqClient == old(groqClient)
      ensures !FallsBack(GeminiKeyFor(env.googleApiKey), msg, o) ==> groqClient == old(groqClient)
      ensures FallsBack(GeminiKeyFor(env.googleApiKey), msg, o) && Truthy(env.groqApiKey) && old(groqClient) == null ==>
        fresh(groqClient) && groqClient.apiKey == env.groqApiKey.value
    {
      var geminiClient := GetGeminiClient(env.googleApiKey);
      if geminiClient == null {
        var g := HandleGroqFallback(msg, env.groqApiKey, o);
        return ChatRun(g.reply, [], g.sent, g.runs);
      }
      var a := RunGeminiExchange(geminiClient.apiKey, msg, o);
      match a.outcome {
        case Replied(t) =>
          x := ChatRun(t, a.sent, [], a.runs);
        case Raised(error) =>
          if IsRateLimit(error) {
            var g := HandleGroqFallback(msg, env.groqApiKey, o);
            x := ChatRun(g.reply, a.sent, g.sent, a.runs + g.runs);
          } else {
            x := ChatRun(Apology(error), a.sent, [], a.runs);
          }
      }
    }
  }
}
