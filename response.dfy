/** The non-streaming reply: decoding a complete response body into the
    neutral response, classifying an error reply by its status code, and the
    tolerant usage parser the stream decoder shares. */
module Response {
  import opened Wrappers
  import opened Json
  import N = Neutral
  import Wire

  /** Wire content block of a response, tagged `type`: `text` or `tool_use`. */
  datatype ContentBlock =
    | Text(text: string)
    | ToolUse(id: string, name: string, input: Json)

  /** Token usage as the wire reports it. */
  datatype WireUsage = WireUsage(inputTokens: N.u32, outputTokens: N.u32)

  datatype WireResponse = WireResponse(
    id: string,
    kind: string,
    role: string,
    content: seq<ContentBlock>,
    model: string,
    stopReason: Option<string>,
    stopSequence: Option<string>,
    usage: WireUsage)

  datatype ResponseWithLatency = ResponseWithLatency(response: WireResponse, latency: N.Latency)

  /** The body of an error reply: `{"error": {"type": ..., "message": ...}}`. */
  datatype ErrorBody = ErrorBody(kind: string, message: string)
  datatype ErrorEnvelope = ErrorEnvelope(error: ErrorBody)

  /** The serde_json entry points the reply path uses, supplied from outside;
      an `Err` carries serde's message. */
  datatype ResponseCodec = ResponseCodec(
    parseResponse: string -> Result<WireResponse, string>,
    showResponse: WireResponse -> Result<string, string>,
    parseErrorReply: string -> Result<ErrorEnvelope, string>,
    showValue: ValuePrinter)

  /** Both token counts reach the neutral usage unchanged. */
  function UsageFrom(usage: WireUsage): (u: N.Usage)
    ensures UsageToWire(u) == usage
  {
    N.Usage(usage.inputTokens, usage.outputTokens)
  }

  /** The wire usage a neutral usage stands for. */
  function UsageToWire(usage: N.Usage): WireUsage {
    WireUsage(usage.inputTokens, usage.outputTokens)
  }

  const TOOL_INPUT_PREFIX: string := "Error parsing input for tool call: "
  const RAW_RESPONSE_PREFIX: string := "Error parsing response from Anthropic: "

  /** Wire block to neutral block: text stays text; a tool use becomes a tool
      call whose arguments are its input printed as JSON text. Only that
      printing can fail, and its failure is a server error. */
  function BlockFrom(block: ContentBlock, show: ValuePrinter): (r: Result<N.ContentBlock, N.Error>)
    ensures r.Failure? <==> block.ToolUse? && show(block.input).Failure?
    ensures r.Failure? ==> r.error == N.AnthropicServer(TOOL_INPUT_PREFIX + show(block.input).error)
    ensures block.Text? ==> r == Success(N.Text(block.text))
    ensures block.ToolUse? && r.Success? ==> r.value == N.ToolCall(block.id, block.name, show(block.input).value)
  {
    match block
    case Text(text) => Success(N.Text(text))
    case ToolUse(id, name, input) =>
      match show(input)
      case Failure(e) => Failure(N.AnthropicServer(TOOL_INPUT_PREFIX + e))
      case Success(arguments) => Success(N.ToolCall(id, name, arguments))
  }

  /** The neutral response: one neutral block per wire block in the same
      order, the response re-printed as the raw response, usage and latency
      copied. Printing the response is attempted first; its failure, or the
      first block that fails, is a server error. */
  function ResponseFrom(value: ResponseWithLatency, codec: ResponseCodec): (r: Result<N.ProviderInferenceResponse, N.Error>)
    ensures r.Success? <==>
      codec.showResponse(value.response).Success? &&
      forall i | 0 <= i < |value.response.content| :: BlockFrom(value.response.content[i], codec.showValue).Success?
    ensures r.Failure? ==> r.error.AnthropicServer?
    ensures codec.showResponse(value.response).Failure? ==>
      r == Failure(N.AnthropicServer(RAW_RESPONSE_PREFIX + codec.showResponse(value.response).error))
    ensures r.Success? ==>
      && |r.value.content| == |value.response.content|
      && (forall i | 0 <= i < |r.value.content| ::
            r.value.content[i] == BlockFrom(value.response.content[i], codec.showValue).value)
      && r.value.rawResponse == codec.showResponse(value.response).value
      && r.value.usage.inputTokens == value.response.usage.inputTokens
      && r.value.usage.outputTokens == value.response.usage.outputTokens
      && r.value.latency == value.latency
  {
    match codec.showResponse(value.response)
    case Failure(e) => Failure(N.AnthropicServer(RAW_RESPONSE_PREFIX + e))
    case Success(raw) =>
      match CollectResults(value.response.content, (b: ContentBlock) => BlockFrom(b, codec.showValue))
      case Failure(e) => Failure(e)
      case Success(content) => Success(N.ProviderInferenceResponse(content, raw, UsageFrom(value.response.usage), value.latency))
  }

  /** The statuses blamed on the caller: bad request, unauthorized, payload
      too large, too many requests. */
  predicate IsClientStatus(code: N.StatusCode) {
    code == 400 || code == 401 || code == 413 || code == 429
  }

  /** An error reply never yields a response. A client status gives a client
      error carrying the status; any other status (403, 404, 500, 529, ...)
      gives a server error. Both carry the provider's message unchanged. */
  function HandleAnthropicError(code: N.StatusCode, body: ErrorBody): (r: Result<N.ProviderInferenceResponse, N.Error>)
    ensures r.Failure?
    ensures r.error.AnthropicClient? <==> IsClientStatus(code)
    ensures r.error.AnthropicServer? <==> !IsClientStatus(code)
    ensures r.error.AnthropicClient? ==> r.error.statusCode == code
    ensures r.error.message == body.message
  {
    if IsClientStatus(code) then Failure(N.AnthropicClient(body.message, code))
    else Failure(N.AnthropicServer(body.message))
  }

  /** A token count read from a usage object: the field when it holds an
      unsigned 64-bit integer, truncated to 32 bits as `as u32` does;
      otherwise 0. */
  function TokenCount(usage: Json, key: string): (n: N.u32)
    ensures usage.Get(key).Some? && AsU64(usage.Get(key).value).Some? ==>
      n as int == AsU64(usage.Get(key).value).value % U32_LIMIT
    ensures usage.Get(key).None? || AsU64(usage.Get(key).value).None? ==> n == 0
  {
    match usage.Get(key)
    case None => 0
    case Some(v) =>
      match AsU64(v)
      case None => 0
      case Some(x) => (x % U32_LIMIT) as N.u32
  }

  /** `parse_usage_info`: never fails; missing or non-numeric fields read 0. */
  function ParseUsageInfo(usage: Json): (r: WireUsage)
    ensures r.inputTokens as int ==
      if usage.Get("input_tokens").Some? && AsU64(usage.Get("input_tokens").value).Some?
      then AsU64(usage.Get("input_tokens").value).value % U32_LIMIT else 0
    ensures r.outputTokens as int ==
      if usage.Get("output_tokens").Some? && AsU64(usage.Get("output_tokens").value).Some?
      then AsU64(usage.Get("output_tokens").value).value % U32_LIMIT else 0
  {
    WireUsage(TokenCount(usage, "input_tokens"), TokenCount(usage, "output_tokens"))
  }

  /** Usage as the wire encodes it. */
  function UsageJson(usage: WireUsage): Json {
    JObj(map["input_tokens" := JInt(usage.inputTokens as int), "output_tokens" := JInt(usage.outputTokens as int)])
  }

  /** Reading back an encoded usage gives the same counts. */
  lemma ParseUsageInfoReadsUsageJson(usage: WireUsage)
    ensures ParseUsageInfo(UsageJson(usage)) == usage
  {
    var j := UsageJson(usage);
    assert j.Get("input_tokens") == Some(JInt(usage.inputTokens as int));
    assert j.Get("output_tokens") == Some(JInt(usage.outputTokens as int));
  }

  /** A usage object with an unusable field reads 0 for it and keeps the other. */
  lemma ParseUsageInfoDefaults(input: N.u32, output: Json)
    requires AsU64(output).None?
    ensures ParseUsageInfo(JObj(map["input_tokens" := JInt(input as int), "output_tokens" := output]))
      == WireUsage(input, 0)
    ensures ParseUsageInfo(JObj(map["input_tokens" := JInt(input as int)])) == WireUsage(input, 0)
  {
    var full := JObj(map["input_tokens" := JInt(input as int), "output_tokens" := output]);
    assert full.Get("input_tokens") == Some(JInt(input as int));
    assert full.Get("output_tokens") == Some(output);
    var partial := JObj(map["input_tokens" := JInt(input as int)]);
    assert partial.Get("input_tokens") == Some(JInt(input as int));
    assert partial.Get("output_tokens") == None;
  }

  /** A tool call's arguments survive the trip out and back: sending a tool
      call whose arguments are the printed form of an object `o` puts `o` on
      the wire, and a response carrying that tool use decodes to the same
      tool call again. */
  lemma ToolArgumentsRoundTrip(id: string, name: string, o: Json, parse: ValueParser, show: ValuePrinter)
    requires o.IsObject() && PrintsAndParsesBack(parse, show, o)
    ensures Wire.ContentFrom(N.ToolCall(id, name, show(o).value), parse) == Success(Wire.ToolUse(id, name, o))
    ensures BlockFrom(ToolUse(id, name, o), show) == Success(N.ToolCall(id, name, show(o).value))
  {
  }

  const TEXT_ERROR_PREFIX: string := "Error parsing JSON response: "
  const ERROR_REPLY_PREFIX: string := "Error parsing response: "

  /** What `infer` does with a reply once it has arrived: a success status is
      parsed and decoded as a response; any other status is parsed as an
      error reply and classified. Only a success status can yield a response. */
  function DecodeReply(status: N.StatusCode, body: string, latency: N.Latency, codec: ResponseCodec): (r: Result<N.ProviderInferenceResponse, N.Error>)
    ensures r.Success? ==> 200 <= status < 300
    ensures !(200 <= status < 300) && codec.parseErrorReply(body).Success? ==>
      r == HandleAnthropicError(status, codec.parseErrorReply(body).value.error)
    ensures 200 <= status < 300 && codec.parseResponse(body).Success? ==>
      r == ResponseFrom(ResponseWithLatency(codec.parseResponse(body).value, latency), codec)
    ensures 200 <= status < 300 && codec.parseResponse(body).Failure? ==>
      r == Failure(N.AnthropicServer(TEXT_ERROR_PREFIX + codec.parseResponse(body).error + ": " + body))
    ensures !(200 <= status < 300) && codec.parseErrorReply(body).Failure? ==>
      r == Failure(N.AnthropicServer(ERROR_REPLY_PREFIX + codec.parseErrorReply(body).error))
  {
    if 200 <= status < 300 then
      match codec.parseResponse(body)
      case Failure(e) => Failure(N.AnthropicServer(TEXT_ERROR_PREFIX + e + ": " + body))
      case Success(response) => ResponseFrom(ResponseWithLatency(response, latency), codec)
    else
      match codec.parseErrorReply(body)
      case Failure(e) => Failure(N.AnthropicServer(ERROR_REPLY_PREFIX + e))
      case Success(envelope) => HandleAnthropicError(status, envelope.error)
  }
}
