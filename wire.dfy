/** The request side of the Anthropic Messages wire format as the Vertex
    adapter builds it, and the conversions from the neutral types into it. */
module Wire {
  import opened Wrappers
  import opened Json
  import N = Neutral

  /** Only two roles exist on the wire; the system prompt is a separate field. */
  datatype Role = User | Assistant

  /** Each neutral role goes out as the wire role that stands for it. */
  function RoleFrom(role: N.Role): (r: Role)
    ensures RoleToNeutral(r) == role
  {
    match role
    case User => User
    case Assistant => Assistant
  }

  /** The neutral role a wire role stands for. */
  function RoleToNeutral(role: Role): N.Role {
    match role
    case User => N.User
    case Assistant => N.Assistant
  }

  /** Both wire roles are produced, each from exactly its neutral role. */
  lemma RoleFromIsOnto(role: Role)
    ensures RoleFrom(RoleToNeutral(role)) == role
  {
  }

  /** Wire tool choice, tagged `type`: `auto`, `any` or `tool` with a name. */
  datatype ToolChoice = Auto | Any | Tool(name: string)

  const TOOL_CHOICE_NONE_MESSAGE: string :=
    "Tool choice is None. Anthropic does not support tool choice None."

  /** Neutral tool choice to wire tool choice. "No tools" has no wire form
      and is an invalid-tool error; every other choice converts. */
  function ToolChoiceFrom(choice: N.ToolChoice): (r: Result<ToolChoice, N.Error>)
    ensures r.Failure? <==> choice.None?
    ensures r.Failure? ==> r.error == N.InvalidTool(TOOL_CHOICE_NONE_MESSAGE)
    ensures r.Success? ==> ToolChoiceToNeutral(r.value) == choice
  {
    match choice
    case Auto => Success(Auto)
    case Required => Success(Any)
    case Specific(name) => Success(ToolChoice.Tool(name))
    case None => Failure(N.InvalidTool(TOOL_CHOICE_NONE_MESSAGE))
  }

  /** The neutral choice a wire choice stands for. */
  function ToolChoiceToNeutral(choice: ToolChoice): N.ToolChoice {
    match choice
    case Auto => N.Auto
    case Any => N.Required
    case Tool(name) => N.Specific(name)
  }

  /** Every wire choice is reached, from exactly the neutral choice it stands for. */
  lemma ToolChoiceFromIsOnto(choice: ToolChoice)
    ensures ToolChoiceFrom(ToolChoiceToNeutral(choice)) == Success(choice)
  {
    match choice
    case Auto =>
    case Any =>
    case Tool(name) =>
  }

  /** Wire tool descriptor. The adapter always sends the description. */
  datatype Tool = Tool(name: string, description: Option<string>, inputSchema: Json)

  /** A tool goes out with a description, and from the wire descriptor the
      configured tool can be read back whole. */
  function ToolFrom(tool: N.ToolDef): (r: Tool)
    ensures r.description.Some?
    ensures ToolDefOf(r) == tool
  {
    Tool.Tool(tool.name, Some(tool.description), tool.parameters)
  }

  /** The tool configuration a wire descriptor stands for; a missing
      description reads as empty. */
  function ToolDefOf(tool: Tool): N.ToolDef {
    N.ToolDef(tool.name, tool.description.GetOr(""), tool.inputSchema)
  }

  /** Wire content block, tagged `type`: `text`, `tool_result`, `tool_use`. */
  datatype MessageContent =
    | Text(text: string)
    | ToolResult(toolUseId: string, content: seq<MessageContent>)
    | ToolUse(id: string, name: string, input: Json)

  const TOOL_ARGUMENTS_NOT_OBJECT_MESSAGE: string := "Tool call arguments must be a JSON object"
  const TOOL_ARGUMENTS_PARSE_PREFIX: string := "Error parsing tool call arguments as JSON Value: "

  /** Neutral content block to wire content block. A tool call's argument
      text must parse, and parse to an object; either failure is a client
      error with status 400. Text and tool results always convert. */
  function ContentFrom(block: N.ContentBlock, parse: ValueParser): (r: Result<MessageContent, N.Error>)
    ensures r.Failure? <==>
      block.ToolCall? && (parse(block.arguments).Failure? || !parse(block.arguments).value.IsObject())
    ensures r.Failure? ==> r.error.AnthropicClient? && r.error.statusCode == 400
    ensures block.Text? ==> r == Success(Text(block.text))
    ensures block.ToolResult? ==> r == Success(ToolResult(block.id, [Text(block.result)]))
    ensures block.ToolCall? && r.Success? ==>
      r.value == ToolUse(block.id, block.name, parse(block.arguments).value)
  {
    match block
    case Text(text) => Success(Text(text))
    case ToolCall(id, name, arguments) =>
      (match parse(arguments)
       case Failure(e) => Failure(N.AnthropicClient(TOOL_ARGUMENTS_PARSE_PREFIX + e, 400))
       case Success(input) =>
         if !input.IsObject() then Failure(N.AnthropicClient(TOOL_ARGUMENTS_NOT_OBJECT_MESSAGE, 400))
         else Success(ToolUse(id, name, input)))
    case ToolResult(id, _, result) => Success(ToolResult(id, [Text(result)]))
  }

  datatype Message = Message(role: Role, content: seq<MessageContent>)

  /** Neutral message to wire message: same role, blocks converted one by one
      in order; the first block that fails fails the message. */
  function MessageFrom(message: N.RequestMessage, parse: ValueParser): (r: Result<Message, N.Error>)
    ensures r.Success? <==> forall i | 0 <= i < |message.content| :: ContentFrom(message.content[i], parse).Success?
    ensures r.Success? ==>
      && r.value.role == RoleFrom(message.role)
      && |r.value.content| == |message.content|
      && forall i | 0 <= i < |message.content| :: r.value.content[i] == ContentFrom(message.content[i], parse).value
    ensures r.Failure? ==>
      exists i | 0 <= i < |message.content| :: ContentFrom(message.content[i], parse).Failure? &&
        r.error == ContentFrom(message.content[i], parse).error
  {
    match CollectResults(message.content, (b: N.ContentBlock) => ContentFrom(b, parse))
    case Success(content) => Success(Message(RoleFrom(message.role), content))
    case Failure(e) => Failure(e)
  }
}
