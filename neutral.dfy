/** The gateway's provider-neutral request, response and error types, as the
    adapter consumes and produces them. They are defined in other modules of
    the gateway (inference types, tool types, errors); only the fields the
    adapter reads or writes appear here, as plain records. */
module Neutral {
  import opened Wrappers
  import opened Json

  newtype u32 = x: int | 0 <= x < 0x1_0000_0000

  /** An HTTP status code as reqwest's `StatusCode` admits it. */
  type StatusCode = c: int | 100 <= c <= 999 witness 200

  /** An f32 carried as its bits; it only ever passes through. */
  datatype F32 = F32(bits: bv32)

  /** Time values (`Duration`, elapsed time since a start instant) are carried
      as opaque numbers of nanoseconds; the adapter only copies them. */
  type Duration = nat

  /** The stream identifier the stream loop draws from `Uuid::now_v7()`. */
  type Uuid = string

  datatype Role = User | Assistant

  datatype ContentBlock =
    | Text(text: string)
    | ToolCall(id: string, name: string, arguments: string)
    | ToolResult(id: string, name: string, result: string)

  datatype RequestMessage = RequestMessage(role: Role, content: seq<ContentBlock>)

  datatype ToolChoice = None | Auto | Required | Specific(name: string)

  /** A tool as `ToolConfig::name()`, `description()` and `parameters()` expose it. */
  datatype ToolDef = ToolDef(name: string, description: string, parameters: Json)

  datatype ToolCallConfig = ToolCallConfig(toolsAvailable: seq<ToolDef>, toolChoice: ToolChoice)

  datatype ModelInferenceRequest = ModelInferenceRequest(
    messages: seq<RequestMessage>,
    system: Option<string>,
    toolConfig: Option<ToolCallConfig>,
    temperature: Option<F32>,
    maxTokens: Option<u32>,
    seed: Option<u32>,
    stream: bool)

  datatype Usage = Usage(inputTokens: u32, outputTokens: u32)

  datatype Latency = NonStreaming(responseTime: Duration)

  datatype ProviderInferenceResponse = ProviderInferenceResponse(
    content: seq<ContentBlock>,
    rawResponse: string,
    usage: Usage,
    latency: Latency)

  datatype ContentBlockChunk =
    | TextChunk(text: string, id: string)
    | ToolCallChunk(id: string, rawName: string, rawArguments: string)

  datatype ProviderInferenceResponseChunk = ProviderInferenceResponseChunk(
    inferenceId: Uuid,
    content: seq<ContentBlockChunk>,
    usage: Option<Usage>,
    rawMessage: string,
    latency: Duration)

  /** The variants of the gateway's error type this adapter raises. */
  datatype Error =
    | InvalidRequest(message: string)
    | InvalidTool(message: string)
    | AnthropicClient(message: string, statusCode: StatusCode)
    | AnthropicServer(message: string)
}
