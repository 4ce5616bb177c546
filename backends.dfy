/** The wire shapes of the two LLM backends as the chat layer sees them,
    and the client handles the SDKs construct. The backends themselves are
    not modelled: a handler receives each backend as a function from the
    request it sends to the outcome it gets back. */
module Backends {
  import opened Wrappers
  import opened Js
  import Text

  /** What a failed SDK call throws: the fields the chat layer reads. */
  datatype ApiError = ApiError(status: JsValue, code: JsValue, message: Option<string>)

  /** The outcome of one awaited backend call. */
  datatype ApiOutcome<T> = Answered(response: T) | Failed(error: ApiError)

  /** One parameter of a capability's JSON schema. */
  datatype Parameter = Parameter(name: string, kind: string, description: string)

  /** A capability declaration: name, description, parameter schema. */
  datatype FunctionDeclaration = FunctionDeclaration(
    name: string,
    description: string,
    properties: seq<Parameter>,
    required: seq<string>)

  // ---------------- Gemini (generateContent) ----------------

  /** A function call requested by Gemini. */
  datatype FunctionCall = FunctionCall(name: string, args: JsValue, id: Option<string>)

  /** `{ name, response }`, the payload of a `functionResponse` part. */
  datatype FunctionResponse = FunctionResponse(name: string, response: JsValue)

  datatype Part =
    | TextPart(text: string)
    | FunctionCallPart(call: FunctionCall)
    | FunctionResponsePart(functionResponse: FunctionResponse)
    | OtherPart(raw: JsValue)

  /** One turn of `contents`: `{ role, parts }`. */
  datatype Content = Content(role: string, parts: seq<Part>)

  /** `generateContent({ model, contents, config: { tools, systemInstruction } })`
      sent through a client built with `apiKey`. */
  datatype GeminiRequest = GeminiRequest(
    apiKey: string,
    model: string,
    contents: seq<Content>,
    tools: seq<FunctionDeclaration>,
    systemInstruction: string)

  /** What the handlers read from a `generateContent` result: `text`,
      `functionCalls` and `candidates[0].content.parts`. */
  datatype GeminiResponse = GeminiResponse(
    text: string,
    functionCalls: Option<seq<FunctionCall>>,
    modelParts: seq<Part>)

  /** The response carries at least one function call. */
  predicate HasFunctionCalls(r: GeminiResponse)
  {
    r.functionCalls.Some? && |r.functionCalls.value| > 0
  }

  // ---------------- Groq (chat.completions.create) ----------------

  /** `{ id, function: { name, arguments } }` of a tool call. */
  datatype ToolCall = ToolCall(id: string, name: string, arguments: Option<string>)

  /** `choices[0].message` of a completion. */
  datatype AssistantMessage = AssistantMessage(content: Option<string>, toolCalls: Option<seq<ToolCall>>)

  /** The message carries at least one tool call. */
  predicate HasToolCalls(m: AssistantMessage)
  {
    m.toolCalls.Some? && |m.toolCalls.value| > 0
  }

  datatype GroqMessage =
    | SystemMessage(content: string)
    | UserMessage(content: string)
    | AssistantTurn(message: AssistantMessage)
    | ToolMessage(toolCallId: string, content: string)

  /** `{ type: 'function', function: declaration }` */
  datatype GroqTool = GroqTool(kind: string, declaration: FunctionDeclaration)

  /** `chat.completions.create({ model, messages, tools, tool_choice })`
      sent through a client built with `apiKey`. */
  datatype GroqRequest = GroqRequest(
    apiKey: string,
    model: string,
    messages: seq<GroqMessage>,
    tools: seq<GroqTool>,
    toolChoice: string)

  // ---------------- client handles ----------------

  /** `new GoogleGenAI({ apiKey })` */
  class GeminiClient {
    const apiKey: string

    constructor (apiKey: string)
      ensures this.apiKey == apiKey
    {
      this.apiKey := apiKey;
    }
  }

  /** `new Groq({ apiKey })` */
  class GroqClient {
    const apiKey: string

    constructor (apiKey: string)
      ensures this.apiKey == apiKey
    {
      this.apiKey := apiKey;
    }
  }

  /** The reply both Gemini handlers give for an error they do not recover from. */
  function Apology(e: ApiError): (r: string)
    ensures Text.StartsWith(r, "My brain hurts. Something went wrong: ")
  {
    "My brain hurts. Something went wrong: " + ShowOrUndefined(e.message)
  }
}
