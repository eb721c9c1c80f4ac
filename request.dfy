/** `GCPVertexAnthropicRequestBody::new`: the wire request built from a
    neutral inference request. */
module Request {
  import opened Wrappers
  import opened Json
  import N = Neutral
  import opened Wire
  import Normalize

  const ANTHROPIC_API_VERSION: string := "vertex-2023-10-16"
  const DEFAULT_MAX_TOKENS: N.u32 := 4096
  const NO_MESSAGES_MESSAGE: string := "Anthropic requires at least one message"

  /** The wire body. Optional fields are left out of the JSON when None. */
  datatype RequestBody = RequestBody(
    anthropicVersion: string,
    messages: seq<Message>,
    maxTokens: N.u32,
    stream: Option<bool>,
    system: Option<string>,
    temperature: Option<N.F32>,
    toolChoice: Option<ToolChoice>,
    tools: Option<seq<Tool>>)

  /** Every neutral message converted, or the first failure. */
  function MessagesFrom(messages: seq<N.RequestMessage>, parse: ValueParser): Result<seq<Message>, N.Error> {
    CollectResults(messages, (m: N.RequestMessage) => MessageFrom(m, parse))
  }

  /** `tools` is present whenever a tool configuration is, even an empty one. */
  function ToolsFrom(config: Option<N.ToolCallConfig>): (r: Option<seq<Tool>>)
    ensures r.Some? <==> config.Some?
    ensures r.Some? ==>
      && |r.value| == |config.value.toolsAvailable|
      && forall i | 0 <= i < |r.value| ::
           r.value[i].description.Some? && ToolDefOf(r.value[i]) == config.value.toolsAvailable[i]
  {
    match config
    case None => None
    case Some(c) =>
      Some(seq(|c.toolsAvailable|, i requires 0 <= i < |c.toolsAvailable| => ToolFrom(c.toolsAvailable[i])))
  }

  /** `tool_choice` only with a non-empty tool list, and only when the choice
      converts: a choice of "no tools" is dropped here, not reported. */
  function ToolChoiceFor(tools: Option<seq<Tool>>, config: Option<N.ToolCallConfig>): (r: Option<ToolChoice>)
    ensures r.Some? <==> tools.Some? && |tools.value| > 0 && config.Some? && !config.value.toolChoice.None?
    ensures r.Some? ==> ToolChoiceToNeutral(r.value) == config.value.toolChoice
  {
    if tools.Some? && |tools.value| > 0 && config.Some?
    then ToolChoiceFrom(config.value.toolChoice).ToOption()
    else None
  }

  /** An empty message list is an invalid request; otherwise the only
      failure is a tool call whose arguments are not a JSON object. A built
      body carries a well-formed conversation made of the converted messages,
      the caller's settings (4096 tokens when unset), the caller's tools
      whenever a tool configuration is given, and the tool choice exactly when
      there is at least one tool and the choice is not "no tools". */
  function NewRequestBody(request: N.ModelInferenceRequest, parse: ValueParser): (r: Result<RequestBody, N.Error>)
    ensures (r.Failure? && r.error.InvalidRequest?) <==> request.messages == []
    ensures r.Failure? && request.messages == [] ==> r.error == N.InvalidRequest(NO_MESSAGES_MESSAGE)
    ensures r.Success? <==>
      request.messages != [] &&
      forall i | 0 <= i < |request.messages| :: MessageFrom(request.messages[i], parse).Success?
    ensures r.Failure? && request.messages != [] ==> r.error.AnthropicClient? && r.error.statusCode == 400
    ensures r.Success? ==>
      && r.value.anthropicVersion == ANTHROPIC_API_VERSION
      && Normalize.WellFormed(r.value.messages)
      && r.value.messages == Normalize.Prepared(MessagesFrom(request.messages, parse).value)
      && r.value.maxTokens == request.maxTokens.GetOr(DEFAULT_MAX_TOKENS)
      && r.value.stream == Some(request.stream)
      && r.value.system == request.system
      && r.value.temperature == request.temperature
    ensures r.Success? ==>
      && (r.value.tools.Some? <==> request.toolConfig.Some?)
      && (r.value.tools.Some? ==>
            && |r.value.tools.value| == |request.toolConfig.value.toolsAvailable|
            && forall i | 0 <= i < |r.value.tools.value| ::
                 var def := request.toolConfig.value.toolsAvailable[i];
                 r.value.tools.value[i] == Tool.Tool(def.name, Some(def.description), def.parameters))
    ensures r.Success? ==>
      && (r.value.toolChoice.Some? <==>
            request.toolConfig.Some? && |request.toolConfig.value.toolsAvailable| > 0 &&
            !request.toolConfig.value.toolChoice.None?)
      && (r.value.toolChoice.Some? ==>
            ToolChoiceToNeutral(r.value.toolChoice.value) == request.toolConfig.value.toolChoice)
  {
    if request.messages == [] then Failure(N.InvalidRequest(NO_MESSAGES_MESSAGE))
    else
      match MessagesFrom(request.messages, parse)
      case Failure(e) =>
        assert exists i | 0 <= i < |request.messages| :: MessageFrom(request.messages[i], parse).Failure?;
        Failure(e)
      case Success(converted) =>
        Normalize.PreparedWellFormed(converted);
        var tools := ToolsFrom(request.toolConfig);
        Success(RequestBody(
          ANTHROPIC_API_VERSION,
          Normalize.Prepared(converted),
          request.maxTokens.GetOr(DEFAULT_MAX_TOKENS),
          Some(request.stream),
          request.system,
          request.temperature,
          ToolChoiceFor(tools, request.toolConfig),
          tools))
  }

  /** The neutral seed has no wire equivalent: it makes no difference. */
  lemma SeedIsDropped(request: N.ModelInferenceRequest, seed: Option<N.u32>, parse: ValueParser)
    ensures NewRequestBody(request.(seed := seed), parse) == NewRequestBody(request, parse)
  {
  }

  /** A user turn then an assistant turn is sent with a placeholder user turn
      after them. */
  lemma UserAssistantRequestGetsClosed(request: N.ModelInferenceRequest, parse: ValueParser, u: string, a: string)
    requires request.messages == [N.RequestMessage(N.User, [N.Text(u)]), N.RequestMessage(N.Assistant, [N.Text(a)])]
    ensures NewRequestBody(request, parse).Success?
    ensures NewRequestBody(request, parse).value.messages ==
      [Message(User, [Text(u)]), Message(Assistant, [Text(a)]), Normalize.PLACEHOLDER]
  {
    var converted := [Message(User, [Text(u)]), Message(Assistant, [Text(a)])];
    var r0 := MessageFrom(request.messages[0], parse);
    var r1 := MessageFrom(request.messages[1], parse);
    assert ContentFrom(N.Text(u), parse).Success? && ContentFrom(N.Text(a), parse).Success?;
    assert r0.Success? && r0.value.content == [Text(u)];
    assert r1.Success? && r1.value.content == [Text(a)];
    assert MessagesFrom(request.messages, parse).value == converted;
    Normalize.ConsolidateKeepsAlternating(converted);
    Normalize.PreparedShape(converted);
  }
}
