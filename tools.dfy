/** The capability registry of the chat layer (gemini.js): the four tool
    declarations in the Gemini and Groq manifest shapes, and the dispatcher
    `executeTool`. The executors themselves (the monitors and the web
    search) are oracles: `Executors` maps the executor that is awaited to
    the completion it produces, a value or a thrown message. */
module Tools {
  import opened Wrappers
  import opened Js
  import opened Backends
  import Seqs

  /** The executor awaited for a call; only the web search takes an argument. */
  datatype Executor = GithubActivity | VercelDeployments | RenderDeploys | WebSearch(query: JsValue)

  /** How an awaited call ends: with a value, or by throwing a message. */
  datatype Completion = Normal(value: JsValue) | Threw(message: string)

  type Executors = Executor -> Completion

  /** The catch around each executor call: a thrown error becomes an object
      holding its message, a normal completion is kept as it is. */
  function Settle(c: Completion): (v: JsValue)
    ensures c.Threw? ==> v == ErrorObject(c.message)
    ensures c.Normal? ==> v == c.value
  {
    match c
    case Normal(v) => v
    case Threw(m) => ErrorObject(m)
  }

  const KnownNames: seq<string> := ["github_activity", "vercel_deployments", "render_deploys", "web_search"]

  // ---------------- manifests ----------------

  const GithubDescription := "Fetches the user's recent GitHub events (commits, PRs, releases, stars, issues) from the last 24 hours."
  const VercelDescription := "Fetches the user's recent Vercel deployments (READY, ERROR, BUILDING) from the last 24 hours."
  const RenderDescription := "Fetches the user's recent Render service deploys from the last 24 hours."

  const QueryParameter := Parameter("query", "string", "The search query.")

  function NoArguments(name: string, description: string): FunctionDeclaration
  {
    FunctionDeclaration(name, description, [], [])
  }

  /** The four Gemini function declarations, in the order the source lists them. */
  const GeminiTools: seq<FunctionDeclaration> := [
    NoArguments("github_activity", GithubDescription),
    NoArguments("vercel_deployments", VercelDescription),
    NoArguments("render_deploys", RenderDescription),
    FunctionDeclaration("web_search", "Searches the web for a given query.", [QueryParameter], ["query"])
  ]

  function AsGroqTool(d: FunctionDeclaration): GroqTool
  {
    GroqTool("function", d)
  }

  /** `groqTools`, written out separately in the source. */
  const GroqTools: seq<GroqTool> := [
    GroqTool("function", NoArguments("github_activity", GithubDescription)),
    GroqTool("function", NoArguments("vercel_deployments", VercelDescription)),
    GroqTool("function", NoArguments("render_deploys", RenderDescription)),
    GroqTool("function", FunctionDeclaration("web_search", "Searches the web for a given query.", [QueryParameter], ["query"]))
  ]

  function DeclaredName(d: FunctionDeclaration): string
  {
    d.name
  }

  // ---------------- executeTool ----------------

  /** Where a call goes: an executor, a `TypeError` thrown while reading the
      arguments, or no executor for the name. */
  datatype Route = Run(executor: Executor) | Throws(message: string) | NoSuchTool

  /** The default parameter `args = {}` replaces only `undefined`. */
  function DefaultArgs(args: JsValue): JsValue
  {
    if args == Undefined then Obj(map[]) else args
  }

  /** The branch `executeTool(name, args)` takes. */
  function Dispatch(name: string, args: JsValue): (r: Route)
    ensures r.NoSuchTool? <==> name !in KnownNames
    ensures r.Throws? ==> name == "web_search" && args == Null
    ensures name == "web_search" ==> (r.Throws? <==> args == Null)
    ensures r.Run? && r.executor.WebSearch? ==> name == "web_search"
    ensures name == "github_activity" ==> r == Run(GithubActivity)
    ensures name == "vercel_deployments" ==> r == Run(VercelDeployments)
    ensures name == "render_deploys" ==> r == Run(RenderDeploys)
    ensures name == "web_search" && args.Obj? ==>
      r == Run(WebSearch(if "query" in args.fields then args.fields["query"] else Undefined))
    ensures name == "web_search" && args == Undefined ==> r == Run(WebSearch(Undefined))
    ensures name == "web_search" && args != Null && !args.Obj? ==> r == Run(WebSearch(Undefined))
  {
    if name == "github_activity" then Run(GithubActivity)
    else if name == "vercel_deployments" then Run(VercelDeployments)
    else if name == "render_deploys" then Run(RenderDeploys)
    else if name == "web_search" then
      match ReadProperty(DefaultArgs(args), "query")
      case Ok(q) => Run(WebSearch(q))
      case Err(m) => Throws(m)
    else NoSuchTool
  }

  function UnknownFunction(name: string): string
  {
    "Unknown function: " + name
  }

  /** `executeTool(name, args)`: what the awaited call completes with. */
  function ExecuteTool(name: string, args: JsValue, ex: Executors): (c: Completion)
    ensures name !in KnownNames ==> c == Normal(ErrorObject(UnknownFunction(name)))
    ensures Dispatch(name, args).Run? ==> c == ex(Dispatch(name, args).executor)
    ensures c.Threw? ==> Dispatch(name, args).Throws? || ex(Dispatch(name, args).executor) == c
  {
    match Dispatch(name, args)
    case Run(e) => ex(e)
    case Throws(m) => Threw(m)
    case NoSuchTool => Normal(ErrorObject(UnknownFunction(name)))
  }

  /** The executors a call of `executeTool(name, args)` awaits: one or none. */
  function Invoked(name: string, args: JsValue): (r: seq<Executor>)
    ensures |r| <= 1
    ensures |r| == 1 <==> Dispatch(name, args).Run?
  {
    match Dispatch(name, args)
    case Run(e) => [e]
    case _ => []
  }

  /** Both manifests declare exactly the names the dispatcher serves, in the
      same order, and the Groq manifest is the Gemini one wrapped as
      `{ type: 'function', function }`. */
  lemma ManifestsMatchDispatcher()
    ensures Seqs.Map(GeminiTools, DeclaredName) == KnownNames
    ensures GroqTools == Seqs.Map(GeminiTools, AsGroqTool)
    ensures forall i :: 0 <= i < |GeminiTools| ==>
      !Dispatch(GeminiTools[i].name, Obj(map[])).NoSuchTool?
  {
    var names := Seqs.Map(GeminiTools, DeclaredName);
    assert names == KnownNames by {
      assert |names| == 4;
      assert names[0] == KnownNames[0] && names[1] == KnownNames[1];
      assert names[2] == KnownNames[2] && names[3] == KnownNames[3];
    }
    var wrapped := Seqs.Map(GeminiTools, AsGroqTool);
    assert |wrapped| == 4;
    assert wrapped[0] == GroqTools[0] && wrapped[1] == GroqTools[1];
    assert wrapped[2] == GroqTools[2] && wrapped[3] == GroqTools[3];
  }

  /** Only `web_search` receives an argument, and it receives `args.query`. */
  lemma QueryOnlyForSearch(name: string, args: JsValue, q: JsValue)
    requires Dispatch(name, args) == Run(WebSearch(q))
    ensures name == "web_search"
    ensures ReadProperty(DefaultArgs(args), "query") == Ok(q)
  {
  }
}
