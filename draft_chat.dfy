/** The earlier chat handler of src/gemini.js: Gemini only, with the tool
    dispatch written inline, no Groq fallback and its own memoised client.
    It differs from gemini.js in three visible ways: a missing key gives a
    fixed offline text, `args` has no `{}` default (so `web_search` with no
    arguments throws a `TypeError` that becomes that call's error), and the
    unknown-function message has no colon. */
module DraftChat {
  import opened Wrappers
  import opened Js
  import opened Backends
  import opened Tools
  import Seqs
  import Text

  const ModelName := "gemini-3-flash-preview"

  const SystemInstruction :=
    "You are OpenClaw, a personal dev assistant agent.\n"
    + "You help the user monitor their dev infrastructure, research prices, compare services, draft social content, and answer questions.\n"
    + "Always be concise since you reply via Telegram.\n"
    + "Use the available tools to fetch real-time data when needed.\n"
    + "If you need to search the web, use the web_search tool.\n"
    + "If you need to check dev activity, use the appropriate monitor tools."

  const Offline := "I am currently offline (GOOGLE_API_KEY missing). Please configure my brain."

  const SearchDescription := "Searches the web for a given query. Use this to find information, prices, documentation, or news."

  /** `tools`: the same four declarations; only the search description differs. */
  const DraftTools: seq<FunctionDeclaration> := [
    NoArguments("github_activity", GithubDescription),
    NoArguments("vercel_deployments", VercelDescription),
    NoArguments("render_deploys", RenderDescription),
    FunctionDeclaration("web_search", SearchDescription, [QueryParameter], ["query"])
  ]

  /** What the draft handler awaits: Gemini and the tool executors. */
  datatype DraftOracles = DraftOracles(
    gemini: GeminiRequest -> ApiOutcome<GeminiResponse>,
    tools: Executors)

  /** The draft's inline `if … else if …` over the call's name; `args.query`
      is read from the call's own `args`. */
  function DraftDispatch(name: string, args: JsValue): (r: Route)
    ensures r.NoSuchTool? <==> name !in KnownNames
    ensures r.Throws? <==> name == "web_search" && (args == Undefined || args == Null)
    ensures r.Run? && r.executor.WebSearch? ==> name == "web_search"
    ensures name == "github_activity" ==> r == Run(GithubActivity)
    ensures name == "vercel_deployments" ==> r == Run(VercelDeployments)
    ensures name == "render_deploys" ==> r == Run(RenderDeploys)
    ensures name == "web_search" && args.Obj? ==>
      r == Run(WebSearch(if "query" in args.fields then args.fields["query"] else Undefined))
    ensures name == "web_search" && args != Undefined && args != Null && !args.Obj? ==>
      r == Run(WebSearch(Undefined))
  {
    if name == "github_activity" then Run(GithubActivity)
    else if name == "vercel_deployments" then Run(VercelDeployments)
    else if name == "render_deploys" then Run(RenderDeploys)
    else if name == "web_search" then
      match ReadProperty(args, "query")
      case Ok(q) => Run(WebSearch(q))
      case Err(m) => Throws(m)
    else NoSuchTool
  }

  function DraftUnknownFunction(name: string): string
  {
    "Unknown function " + name
  }

  /** The value `functionResult` holds after the draft's `try`/`catch`. */
  function DraftResult(call: FunctionCall, ex: Executors): (v: JsValue)
    ensures call.name !in KnownNames ==> v == ErrorObject(DraftUnknownFunction(call.name))
    ensures DraftDispatch(call.name, call.args).Run? ==>
      v == Settle(ex(DraftDispatch(call.name, call.args).executor))
    ensures DraftDispatch(call.name, call.args).Throws? ==>
      v == ErrorObject(DraftDispatch(call.name, call.args).message)
  {
    match DraftDispatch(call.name, call.args)
    case Run(e) => Settle(ex(e))
    case Throws(m) => ErrorObject(m)
    case NoSuchTool => ErrorObject(DraftUnknownFunction(call.name))
  }

  function DraftResponseFor(call: FunctionCall, ex: Executors): FunctionResponse
  {
    FunctionResponse(call.name, ResultObject(DraftResult(call, ex)))
  }

  /** One function response per call, in call order. */
  function DraftResponses(calls: seq<FunctionCall>, ex: Executors): (r: seq<FunctionResponse>)
    ensures |r| == |calls|
    ensures forall i :: 0 <= i < |calls| ==> r[i] == DraftResponseFor(calls[i], ex)
  {
    Seqs.Map(calls, (c: FunctionCall) => DraftResponseFor(c, ex))
  }

  function DraftInvocations(c: FunctionCall): seq<Executor>
  {
    match DraftDispatch(c.name, c.args)
    case Run(e) => [e]
    case _ => []
  }

  function UserTurn(msg: string): Content
  {
    Content("user", [TextPart(msg)])
  }

  function DraftRequestFor(key: string, contents: seq<Content>): GeminiRequest
  {
    GeminiRequest(key, ModelName, contents, DraftTools, SystemInstruction)
  }

  function AsResponsePart(r: FunctionResponse): Part
  {
    FunctionResponsePart(r)
  }

  function DraftSecondContents(msg: string, modelParts: seq<Part>, responses: seq<FunctionResponse>): seq<Content>
  {
    [UserTurn(msg), Content("model", modelParts), Content("user", Seqs.Map(responses, AsResponsePart))]
  }

  /** A draft exchange: the reply, the Gemini requests sent, the executors awaited. */
  datatype DraftRun = DraftRun(reply: string, sent: seq<GeminiRequest>, runs: seq<Executor>)

  /** The reply for the outcome of the last Gemini call: its text, or the apology. */
  function DraftReply(r: ApiOutcome<GeminiResponse>): string
  {
    match r
    case Failed(e) => Apology(e)
    case Answered(resp) => resp.text
  }

  /** The `try`/`catch` of the draft `handleGeminiChat`, given a client built with `key`. */
  function TryDraft(key: string, msg: string, o: DraftOracles): (x: DraftRun)
    ensures 1 <= |x.sent| <= 2
    ensures x.sent[0] == DraftRequestFor(key, [UserTurn(msg)])
    ensures forall r <- x.sent ::
              r.apiKey == key && r.model == ModelName && r.tools == DraftTools && r.systemInstruction == SystemInstruction
    ensures |x.sent| == 2 <==> o.gemini(x.sent[0]).Answered? && HasFunctionCalls(o.gemini(x.sent[0]).response)
    ensures |x.sent| == 1 ==> x.runs == []
    ensures x.reply == DraftReply(o.gemini(x.sent[|x.sent| - 1]))
  {
    var first := DraftRequestFor(key, [UserTurn(msg)]);
    match o.gemini(first)
    case Failed(e) => DraftRun(Apology(e), [first], [])
    case Answered(r1) =>
      if !HasFunctionCalls(r1) then DraftRun(r1.text, [first], [])
      else
        var calls := r1.functionCalls.value;
        var second := DraftRequestFor(key, DraftSecondContents(msg, r1.modelParts, DraftResponses(calls, o.tools)));
        DraftRun(DraftReply(o.gemini(second)), [first, second], Seqs.FlatMap(calls, DraftInvocations))
  }

  /** The draft `handleGeminiChat`, given the key of the client
      `getGeminiClient` returns (`None` for `null`). */
  function DraftChatRun(client: Option<string>, msg: string, o: DraftOracles): (x: DraftRun)
    ensures client.None? ==> x == DraftRun(Offline, [], [])
    ensures client.Some? ==> x == TryDraft(client.value, msg, o)
  {
    if client.None? then DraftRun(Offline, [], []) else TryDraft(client.value, msg, o)
  }

  /** Without a key: the fixed offline text, and no request at all. */
  lemma OfflineWithoutKey(msg: string, o: DraftOracles)
    ensures DraftChatRun(None, msg, o) == DraftRun(Offline, [], [])
  {
  }

  /** No function calls: the first reply's text, unchanged. */
  lemma DraftWithoutCalls(key: string, msg: string, o: DraftOracles, r1: GeminiResponse)
    requires o.gemini(DraftRequestFor(key, [UserTurn(msg)])) == Answered(r1)
    requires !HasFunctionCalls(r1)
    ensures TryDraft(key, msg, o) == DraftRun(r1.text, [DraftRequestFor(key, [UserTurn(msg)])], [])
  {
  }

  /** Round 2: user text, model parts, one `functionResponse` per call in
      order; the reply is the second response's text or the apology. */
  lemma DraftRoundTwo(key: string, msg: string, o: DraftOracles, r1: GeminiResponse)
    requires o.gemini(DraftRequestFor(key, [UserTurn(msg)])) == Answered(r1)
    requires HasFunctionCalls(r1)
    ensures var x := TryDraft(key, msg, o);
      var calls := r1.functionCalls.value;
      |x.sent| == 2
      && x.sent[1].contents[..2] == [UserTurn(msg), Content("model", r1.modelParts)]
      && |x.sent[1].contents| == 3 && x.sent[1].contents[2].role == "user"
      && |x.sent[1].contents[2].parts| == |calls|
      && (forall i :: 0 <= i < |calls| ==>
            x.sent[1].contents[2].parts[i] ==
            FunctionResponsePart(FunctionResponse(calls[i].name, ResultObject(DraftResult(calls[i], o.tools)))))
      && x.reply == DraftReply(o.gemini(x.sent[1]))
  {
    var calls := r1.functionCalls.value;
    var rs := DraftResponses(calls, o.tools);
    var parts := Seqs.Map(rs, AsResponsePart);
    assert forall i :: 0 <= i < |calls| ==> parts[i] == FunctionResponsePart(rs[i]);
  }

  /** A call whose executor throws gets `{ result: { error: message } }`;
      the other calls still run and round 2 is still sent. */
  lemma DraftThrowingExecutor(key: string, msg: string, o: DraftOracles, r1: GeminiResponse,
                              i: nat, e: Executor, m: string)
    requires o.gemini(DraftRequestFor(key, [UserTurn(msg)])) == Answered(r1)
    requires HasFunctionCalls(r1) && i < |r1.functionCalls.value|
    requires DraftDispatch(r1.functionCalls.value[i].name, r1.functionCalls.value[i].args) == Run(e)
    requires o.tools(e) == Threw(m)
    ensures var x := TryDraft(key, msg, o);
      |x.sent| == 2
      && |x.sent[1].contents[2].parts| == |r1.functionCalls.value|
      && x.sent[1].contents[2].parts[i] ==
         FunctionResponsePart(FunctionResponse(r1.functionCalls.value[i].name, ResultObject(ErrorObject(m))))
  {
    DraftRoundTwo(key, msg, o, r1);
  }

  /** An error of either call (the last request sent failed) is answered
      with the apology; there is no other backend. */
  lemma DraftErrorApologises(key: string, msg: string, o: DraftOracles, e: ApiError)
    requires var x := TryDraft(key, msg, o); o.gemini(x.sent[|x.sent| - 1]) == Failed(e)
    ensures TryDraft(key, msg, o).reply == Apology(e)
    ensures Text.StartsWith(TryDraft(key, msg, o).reply, "My brain hurts. Something went wrong: ")
  {
  }

  /** The two drafts disagree on the unknown-function message and on a
      `web_search` call without arguments. */
  lemma DraftsDiffer(name: string, ex: Executors)
    requires name !in KnownNames
    ensures DraftResult(FunctionCall(name, Obj(map[]), None), ex) == ErrorObject("Unknown function " + name)
    ensures Settle(ExecuteTool(name, Obj(map[]), ex)) == ErrorObject("Unknown function: " + name)
    ensures DraftUnknownFunction(name) != UnknownFunction(name)
    ensures DraftResult(FunctionCall("web_search", Undefined, None), ex)
            == ErrorObject(CannotReadMessage("undefined", "query"))
    ensures Settle(ExecuteTool("web_search", Undefined, ex)) == Settle(ex(WebSearch(Undefined)))
  {
    var d := DraftUnknownFunction(name);
    var u := UnknownFunction(name);
    assert d[16] == ' ' && u[16] == ':';
  }

  /** One iteration of the draft's `for` loop, in terms of its specification. */
  lemma DraftLoopStep(calls: seq<FunctionCall>, i: nat, ex: Executors)
    requires i < |calls|
    ensures DraftResponses(calls[..i + 1], ex) == DraftResponses(calls[..i], ex) + [DraftResponseFor(calls[i], ex)]
    ensures Seqs.FlatMap(calls[..i + 1], DraftInvocations) == Seqs.FlatMap(calls[..i], DraftInvocations) + DraftInvocations(calls[i])
  {
    assert calls[..i + 1][..i] == calls[..i];
  }

  /** The draft `try` block as the source runs it. */
  method RunDraftExchange(key: string, msg: string, o: DraftOracles) returns (x: DraftRun)
    ensures x == TryDraft(key, msg, o)
  {
    var first := DraftRequestFor(key, [UserTurn(msg)]);
    var outcome := o.gemini(first);
    if outcome.Failed? {
      return DraftRun(Apology(outcome.error), [first], []);
    }
    var result := outcome.response;
    if !HasFunctionCalls(result) {
      return DraftRun(result.text, [first], []);
    }
    var functionCalls := result.functionCalls.value;
    var functionResponses: seq<FunctionResponse> := [];
    var runs: seq<Executor> := [];
    var i := 0;
    while i < |functionCalls|
      invariant 0 <= i <= |functionCalls|
      invariant functionResponses == DraftResponses(functionCalls[..i], o.tools)
      invariant runs == Seqs.FlatMap(functionCalls[..i], DraftInvocations)
    {
      var call := functionCalls[i];
      var functionResult: JsValue;
      match DraftDispatch(call.name, call.args) {
        case Run(e) =>
          runs := runs + [e];
          match o.tools(e) {
            case Normal(v) => functionResult := v;
            case Threw(m) => functionResult := ErrorObject(m);
          }
        case Throws(m) =>
          functionResult := ErrorObject(m);
        case NoSuchTool =>
          functionResult := ErrorObject(DraftUnknownFunction(call.name));
      }
      functionResponses := functionResponses + [FunctionResponse(call.name, ResultObject(functionResult))];
      DraftLoopStep(functionCalls, i, o.tools);
      i := i + 1;
    }
    assert functionCalls[..i] == functionCalls;
    var second := DraftRequestFor(key, DraftSecondContents(msg, result.modelParts, functionResponses));
    x := DraftRun(DraftReply(o.gemini(second)), [first, second], runs);
  }

  /** The module-level `ai` and `configuredApiKey` of src/gemini.js. */
  class DraftState {
    var ai: GeminiClient?
    var configuredApiKey: Option<string>

    ghost predicate Valid()
      reads this
    {
      ai != null ==> configuredApiKey == Some(ai.apiKey)
    }

    constructor ()
      ensures Valid() && ai == null && configuredApiKey == None
    {
      ai := null;
      configuredApiKey := None;
    }

    /** Rebuilds the client only when there is none or the key changed. */
    method GetGeminiClient(apiKey: Option<string>) returns (client: GeminiClient?)
      requires Valid()
      modifies this
      ensures Valid()
      ensures !Truthy(apiKey) ==> client == null && ai == old(ai) && configuredApiKey == old(configuredApiKey)
      ensures Truthy(apiKey) ==>
                client != null && client == ai && configuredApiKey == apiKey && client.apiKey == apiKey.value
      ensures Truthy(apiKey) && (old(ai) == null || old(configuredApiKey) != apiKey) ==> fresh(client)
      ensures Truthy(apiKey) && old(ai) != null && old(configuredApiKey) == apiKey ==> client == old(ai)
    {
      if !Truthy(apiKey) {
        return null;
      }
      if ai == null || configuredApiKey != apiKey {
        ai := new GeminiClient(apiKey.value);
        configuredApiKey := apiKey;
      }
      client := ai;
    }

    /** `handleGeminiChat(userMessage)` of src/gemini.js. */
    method HandleGeminiChat(msg: string, googleApiKey: Option<string>, o: DraftOracles) returns (x: DraftRun)
      requires Valid()
      modifies this
      ensures Valid()
      ensures x == DraftChatRun(if Truthy(googleApiKey) then googleApiKey else None, msg, o)
      ensures Truthy(googleApiKey) ==> ai != null && configuredApiKey == googleApiKey
      ensures !Truthy(googleApiKey) ==> ai == old(ai) && configuredApiKey == old(configuredApiKey)
      ensures Truthy(googleApiKey) && old(ai) != null && old(configuredApiKey) == googleApiKey ==> ai == old(ai)
      ensures Truthy(googleApiKey) && !(old(ai) != null && old(configuredApiKey) == googleApiKey) ==> fresh(ai)
    {
      var geminiClient := GetGeminiClient(googleApiKey);
      if geminiClient == null {
        return DraftRun(Offline, [], []);
      }
      x := RunDraftExchange(geminiClient.apiKey, msg, o);
    }
  }
}
