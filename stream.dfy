/** The streaming decoder. A stream is a sequence of server-sent events,
    each carrying one JSON message of the Anthropic messages-streaming
    protocol. The decoder turns each message into at most one neutral chunk;
    because only the event that starts a tool call names the tool, it keeps
    the id and name of the current tool call in two slots and stamps them
    on every later partial-arguments chunk.

    `Translate` and `Run` are the specification; `StreamDecoder.Step` and
    `StreamAnthropic` are the source's stateful step and its event loop,
    proved to compute them. */
module Stream {
  import opened Wrappers
  import opened Json
  import N = Neutral
  import Decimal
  import Response

  /** Content payloads of stream messages, tagged `type`. */
  datatype MessageBlock =
    | Text(text: string)
    | TextDelta(text: string)
    | ToolUse(id: string, name: string, input: Json)
    | InputJsonDelta(partialJson: string)

  /** The protocol's message kinds, tagged `type`. */
  datatype StreamMessage =
    | ContentBlockDelta(delta: MessageBlock, index: N.u32)
    | ContentBlockStart(contentBlock: MessageBlock, index: N.u32)
    | ContentBlockStop(index: N.u32)
    | ErrorEvent(error: Json)
    | MessageDelta(messageDelta: Json, usage: Json)
    | MessageStart(message: Json)
    | MessageStop
    | Ping

  /** serde_json for stream messages, supplied from outside: parsing an
      event's data, printing a parsed message back (the chunk's raw message),
      and `Value`'s display form (the text of an error event). */
  datatype StreamCodec = StreamCodec(
    parseEvent: string -> Result<StreamMessage, string>,
    showEvent: StreamMessage -> Result<string, string>,
    display: Json -> string)

  type Chunk = N.ProviderInferenceResponseChunk
  type Item = Result<Chunk, N.Error>

  /** The decoder's memory: `current_tool_id` and `current_tool_name`. */
  datatype Slots = Slots(toolId: Option<string>, toolName: Option<string>)

  const UNSET: Slots := Slots(None, None)

  datatype Outcome = Outcome(result: Result<Option<Chunk>, N.Error>, slots: Slots)

  const RAW_MESSAGE_PREFIX: string := "Error parsing response from Anthropic: "
  const NO_TOOL_NAME_MESSAGE: string :=
    "Got InputJsonDelta chunk from Anthropic without current tool name being set by a ToolUse"
  const NO_TOOL_ID_MESSAGE: string :=
    "Got InputJsonDelta chunk from Anthropic without current tool id being set by a ToolUse"
  const UNSUPPORTED_DELTA_MESSAGE: string := "Unsupported content block type for ContentBlockDelta"
  const UNSUPPORTED_START_MESSAGE: string := "Unsupported content block type for ContentBlockStart"

  /** A message that opens a tool call. */
  predicate StartsTool(m: StreamMessage) {
    m.ContentBlockStart? && m.contentBlock.ToolUse?
  }

  /** A message that carries a piece of a tool call's arguments. */
  predicate ContinuesTool(m: StreamMessage) {
    m.ContentBlockDelta? && m.delta.InputJsonDelta?
  }

  /** The chunk id of a text block: its index in decimal. */
  function IndexId(index: N.u32): string {
    Decimal.NatToString(index as nat)
  }

  function UsageChunk(inferenceId: N.Uuid, usage: Json, raw: string, latency: N.Duration): Chunk {
    N.ProviderInferenceResponseChunk(inferenceId, [], Some(Response.UsageFrom(Response.ParseUsageInfo(usage))), raw, latency)
  }

  function ContentChunk(inferenceId: N.Uuid, content: N.ContentBlockChunk, raw: string, latency: N.Duration): Chunk {
    N.ProviderInferenceResponseChunk(inferenceId, [content], None, raw, latency)
  }

  /** One message, as `anthropic_to_tensorzero_stream_message` handles it.
      The slots change only when a tool call starts (and the message could be
      printed), and then hold that call's id and name; a message that cannot
      be printed back is a server error. */
  function Translate(m: StreamMessage, slots: Slots, inferenceId: N.Uuid, latency: N.Duration, codec: StreamCodec): (o: Outcome)
    ensures o.slots ==
      if StartsTool(m) && codec.showEvent(m).Success?
      then Slots(Some(m.contentBlock.id), Some(m.contentBlock.name))
      else slots
    ensures codec.showEvent(m).Failure? ==>
      o.result == Failure(N.AnthropicServer(RAW_MESSAGE_PREFIX + codec.showEvent(m).error))
  {
    match codec.showEvent(m)
    case Failure(e) => Outcome(Failure(N.AnthropicServer(RAW_MESSAGE_PREFIX + e)), slots)
    case Success(raw) =>
      match m
      case ContentBlockDelta(delta, index) =>
        (match delta
         case TextDelta(text) =>
           Outcome(Success(Some(ContentChunk(inferenceId, N.TextChunk(text, IndexId(index)), raw, latency))), slots)
         case InputJsonDelta(partialJson) =>
           if slots.toolName.None? then Outcome(Failure(N.AnthropicServer(NO_TOOL_NAME_MESSAGE)), slots)
           else if slots.toolId.None? then Outcome(Failure(N.AnthropicServer(NO_TOOL_ID_MESSAGE)), slots)
           else
             var c := N.ToolCallChunk(slots.toolId.value, slots.toolName.value, partialJson);
             Outcome(Success(Some(ContentChunk(inferenceId, c, raw, latency))), slots)
         case _ => Outcome(Failure(N.AnthropicServer(UNSUPPORTED_DELTA_MESSAGE)), slots))
      case ContentBlockStart(block, index) =>
        (match block
         case Text(text) =>
           Outcome(Success(Some(ContentChunk(inferenceId, N.TextChunk(text, IndexId(index)), raw, latency))), slots)
         case ToolUse(id, name, _) =>
           var c := N.ToolCallChunk(id, name, "");
           Outcome(Success(Some(ContentChunk(inferenceId, c, raw, latency))), Slots(Some(id), Some(name)))
         case _ => Outcome(Failure(N.AnthropicServer(UNSUPPORTED_START_MESSAGE)), slots))
      case ContentBlockStop(_) => Outcome(Success(None), slots)
      case ErrorEvent(error) => Outcome(Failure(N.AnthropicServer(codec.display(error))), slots)
      case MessageDelta(_, usage) => Outcome(Success(Some(UsageChunk(inferenceId, usage, raw, latency))), slots)
      case MessageStart(message) =>
        (match message.Get("usage")
         case Some(usage) => Outcome(Success(Some(UsageChunk(inferenceId, usage, raw, latency))), slots)
         case None => Outcome(Success(None), slots))
      case MessageStop => Outcome(Success(None), slots)
      case Ping => Outcome(Success(None), slots)
  }

  /** Every chunk is stamped with the stream id, the latency and the
      printed message, and holds at most one block. A tool-call chunk carries
      exactly the id and name the slots hold after the message; a text chunk
      is identified by its block's index. */
  lemma TranslateStampsChunks(m: StreamMessage, slots: Slots, inferenceId: N.Uuid, latency: N.Duration, codec: StreamCodec)
    ensures
      var o := Translate(m, slots, inferenceId, latency, codec);
      o.result.Success? && o.result.value.Some? ==>
        && o.result.value.value.inferenceId == inferenceId
        && o.result.value.value.latency == latency
        && o.result.value.value.rawMessage == codec.showEvent(m).value
        && |o.result.value.value.content| <= 1
        && forall c | c in o.result.value.value.content ::
             && (c.ToolCallChunk? ==> o.slots == Slots(Some(c.id), Some(c.rawName)))
             && (c.TextChunk? ==> (m.ContentBlockStart? || m.ContentBlockDelta?) && c.id == IndexId(m.index))
  {
  }

  /** A piece of tool-call arguments fails exactly when no tool call has
      set both slots. */
  lemma ArgumentsNeedCurrentTool(m: StreamMessage, slots: Slots, inferenceId: N.Uuid, latency: N.Duration, codec: StreamCodec)
    requires ContinuesTool(m) && codec.showEvent(m).Success?
    ensures Translate(m, slots, inferenceId, latency, codec).result.Failure? <==> slots.toolName.None? || slots.toolId.None?
  {
  }

  /** The messages that yield nothing: block stops, pings, the final stop,
      and a message start without usage. */
  lemma TranslateYieldsNothing(m: StreamMessage, slots: Slots, inferenceId: N.Uuid, latency: N.Duration, codec: StreamCodec)
    ensures Translate(m, slots, inferenceId, latency, codec).result == Success(None) <==>
      codec.showEvent(m).Success? &&
      (m.ContentBlockStop? || m.MessageStop? || m.Ping? || (m.MessageStart? && m.message.Get("usage").None?))
  {
  }

  /** A content block kind the message cannot carry: a delta is text or
      partial arguments, a start is text or a tool use. */
  predicate Unsupported(m: StreamMessage) {
    || (m.ContentBlockDelta? && !(m.delta.TextDelta? || m.delta.InputJsonDelta?))
    || (m.ContentBlockStart? && !(m.contentBlock.Text? || m.contentBlock.ToolUse?))
  }

  /** What each printable message yields. It fails exactly for an error
      event, an unsupported block kind, or a piece of arguments with no
      current tool. A tool start yields a tool-call chunk with the tool's id
      and name and no arguments; text yields a text chunk identified by its
      block's index; a piece of arguments yields a tool-call chunk naming the
      current tool; a message delta, and a message start with usage, yield a
      usage chunk; an error event yields its displayed error. */
  lemma TranslateEmits(m: StreamMessage, slots: Slots, inferenceId: N.Uuid, latency: N.Duration, codec: StreamCodec)
    requires codec.showEvent(m).Success?
    ensures
      var r := Translate(m, slots, inferenceId, latency, codec).result;
      var raw := codec.showEvent(m).value;
      && (r.Failure? <==>
            m.ErrorEvent? || Unsupported(m) || (ContinuesTool(m) && (slots.toolName.None? || slots.toolId.None?)))
      && (StartsTool(m) ==>
            r == Success(Some(ContentChunk(inferenceId, N.ToolCallChunk(m.contentBlock.id, m.contentBlock.name, ""), raw, latency))))
      && (m.ContentBlockStart? && m.contentBlock.Text? ==>
            r == Success(Some(ContentChunk(inferenceId, N.TextChunk(m.contentBlock.text, IndexId(m.index)), raw, latency))))
      && (m.ContentBlockDelta? && m.delta.TextDelta? ==>
            r == Success(Some(ContentChunk(inferenceId, N.TextChunk(m.delta.text, IndexId(m.index)), raw, latency))))
      && (ContinuesTool(m) && slots.toolName.Some? && slots.toolId.Some? ==>
            r == Success(Some(ContentChunk(inferenceId,
                   N.ToolCallChunk(slots.toolId.value, slots.toolName.value, m.delta.partialJson), raw, latency))))
      && (m.MessageDelta? ==> r == Success(Some(UsageChunk(inferenceId, m.usage, raw, latency))))
      && (m.MessageStart? && m.message.Get("usage").Some? ==>
            r == Success(Some(UsageChunk(inferenceId, m.message.Get("usage").value, raw, latency))))
      && (m.ErrorEvent? ==> r == Failure(N.AnthropicServer(codec.display(m.error))))
      && (Unsupported(m) ==>
            r == Failure(N.AnthropicServer(if m.ContentBlockStart? then UNSUPPORTED_START_MESSAGE else UNSUPPORTED_DELTA_MESSAGE)))
  {
  }

  /** The state one stream owns: the id and name of the current tool call. */
  class StreamDecoder {
    var currentToolId: Option<string>
    var currentToolName: Option<string>

    constructor ()
      ensures currentToolId == None && currentToolName == None
    {
      currentToolId := None;
      currentToolName := None;
    }

    function Identity(): Slots
      reads this
    {
      Slots(currentToolId, currentToolName)
    }

    /** Decode one message, writing the slots through as the source does
        through its two `&mut` references. */
    method Step(message: StreamMessage, inferenceId: N.Uuid, latency: N.Duration, codec: StreamCodec)
      returns (r: Result<Option<Chunk>, N.Error>)
      modifies this
      ensures Outcome(r, Identity()) == Translate(message, old(Identity()), inferenceId, latency, codec)
    {
      var printed := codec.showEvent(message);
      if printed.Failure? {
        return Failure(N.AnthropicServer(RAW_MESSAGE_PREFIX + printed.error));
      }
      var raw := printed.value;
      match message {
        case ContentBlockDelta(delta, index) =>
          match delta {
            case TextDelta(text) =>
              r := Success(Some(ContentChunk(inferenceId, N.TextChunk(text, IndexId(index)), raw, latency)));
            case InputJsonDelta(partialJson) =>
              if currentToolName.None? {
                return Failure(N.AnthropicServer(NO_TOOL_NAME_MESSAGE));
              }
              if currentToolId.None? {
                return Failure(N.AnthropicServer(NO_TOOL_ID_MESSAGE));
              }
              var c := N.ToolCallChunk(currentToolId.value, currentToolName.value, partialJson);
              r := Success(Some(ContentChunk(inferenceId, c, raw, latency)));
            case _ =>
              r := Failure(N.AnthropicServer(UNSUPPORTED_DELTA_MESSAGE));
          }
        case ContentBlockStart(block, index) =>
          match block {
            case Text(text) =>
              r := Success(Some(ContentChunk(inferenceId, N.TextChunk(text, IndexId(index)), raw, latency)));
            case ToolUse(id, name, _) =>
              currentToolId := Some(id);
              currentToolName := Some(name);
              r := Success(Some(ContentChunk(inferenceId, N.ToolCallChunk(id, name, ""), raw, latency)));
            case _ =>
              r := Failure(N.AnthropicServer(UNSUPPORTED_START_MESSAGE));
          }
        case ContentBlockStop(_) =>
          r := Success(None);
        case ErrorEvent(error) =>
          r := Failure(N.AnthropicServer(codec.display(error)));
        case MessageDelta(_, usage) =>
          r := Success(Some(UsageChunk(inferenceId, usage, raw, latency)));
        case MessageStart(body) =>
          match body.Get("usage") {
            case Some(usage) =>
              r := Success(Some(UsageChunk(inferenceId, usage, raw, latency)));
            case None =>
              r := Success(None);
          }
        case MessageStop =>
          r := Success(None);
        case Ping =>
          r := Success(None);
      }
    }
  }

  // ---------------------------------------------------------------------
  // The event loop

  /** What the event source delivers: the connection opening, a message
      event with its data and the time elapsed since the stream started when
      it was handled, or a transport error with its text. */
  datatype TransportEvent =
    | Open
    | Message(data: string, elapsed: N.Duration)
    | TransportError(message: string)

  const PARSE_ERROR_PREFIX: string := "Error parsing message: "

  function ParseErrorMessage(e: string, data: string): string {
    PARSE_ERROR_PREFIX + e + ", Data: " + data
  }

  /** The event whose message is the protocol's last one. */
  predicate EndsStream(e: TransportEvent, codec: StreamCodec) {
    e.Message? && codec.parseEvent(e.data).Success? && codec.parseEvent(e.data).value.MessageStop?
  }

  predicate NoEnd(events: seq<TransportEvent>, codec: StreamCodec) {
    forall i | 0 <= i < |events| :: !EndsStream(events[i], codec)
  }

  /** The items a step contributes: nothing, one chunk, or one error. */
  function Emitted(result: Result<Option<Chunk>, N.Error>): seq<Item> {
    match result
    case Success(None) => []
    case Success(Some(c)) => [Success(c)]
    case Failure(e) => [Failure(e)]
  }

  /** What one event does to the stream: it ends it, or it yields what it
      yields and leaves the slots for the next event. */
  datatype EventOutcome = Stop | Continue(emitted: seq<Item>, slots: Slots)

  /** One event of `stream_anthropic`: the connection opening yields nothing;
      a transport error or data that does not parse yields one error; a
      `message_stop` ends the stream; any other message is translated. */
  function EventStep(e: TransportEvent, slots: Slots, inferenceId: N.Uuid, codec: StreamCodec): (r: EventOutcome)
    ensures r.Stop? <==> EndsStream(e, codec)
    ensures r.Continue? ==> |r.emitted| <= 1 && r.slots == SlotsAfterEvent(e, slots, codec)
    ensures e.Open? ==> r == Continue([], slots)
    ensures e.TransportError? ==> r == Continue([Failure(N.AnthropicServer(e.message))], slots)
    ensures e.Message? && codec.parseEvent(e.data).Failure? ==>
      r == Continue([Failure(N.AnthropicServer(ParseErrorMessage(codec.parseEvent(e.data).error, e.data)))], slots)
  {
    match e
    case Open => Continue([], slots)
    case TransportError(message) => Continue([Failure(N.AnthropicServer(message))], slots)
    case Message(data, elapsed) =>
      match codec.parseEvent(data)
      case Failure(err) => Continue([Failure(N.AnthropicServer(ParseErrorMessage(err, data)))], slots)
      case Success(m) =>
        if m.MessageStop? then Stop
        else
          var o := Translate(m, slots, inferenceId, elapsed, codec);
          Continue(Emitted(o.result), o.slots)
  }

  /** A per-event step, as the loop applies it with the decoder's slots. */
  type Stepper = (TransportEvent, Slots) -> EventOutcome

  function StepperFor(inferenceId: N.Uuid, codec: StreamCodec): Stepper {
    (e: TransportEvent, s: Slots) => EventStep(e, s, inferenceId, codec)
  }

  /** The loop as a fold: the items yielded by applying `step` to each event
      in turn, threading the slots, until a step ends the stream. */
  function Fold(step: Stepper, events: seq<TransportEvent>, slots: Slots): seq<Item>
    decreases |events|
  {
    if events == [] then []
    else
      match step(events[0], slots)
      case Stop => []
      case Continue(emitted, next) => emitted + Fold(step, events[1..], next)
  }

  /** The slots the same fold leaves behind. */
  function FoldSlots(step: Stepper, events: seq<TransportEvent>, slots: Slots): Slots
    decreases |events|
  {
    if events == [] then slots
    else
      match step(events[0], slots)
      case Stop => slots
      case Continue(_, next) => FoldSlots(step, events[1..], next)
  }

  /** No event of the sequence ends the stream, whatever the slots. */
  ghost predicate Continues(step: Stepper, events: seq<TransportEvent>) {
    forall i, s | 0 <= i < |events| :: step(events[i], s).Continue?
  }

  /** Folding a sequence that does not end the stream, then the rest from the
      slots it leaves, is folding the whole. */
  lemma {:induction false} FoldSplit(step: Stepper, pre: seq<TransportEvent>, post: seq<TransportEvent>, slots: Slots)
    requires Continues(step, pre)
    ensures Fold(step, pre + post, slots) == Fold(step, pre, slots) + Fold(step, post, FoldSlots(step, pre, slots))
    decreases |pre|
  {
    if pre == [] {
      assert pre + post == post;
    } else {
      assert (pre + post)[0] == pre[0];
      assert (pre + post)[1..] == pre[1..] + post;
      assert Continues(step, pre[1..]) by {
        forall i, s | 0 <= i < |pre[1..]| ensures step(pre[1..][i], s).Continue? {
          assert pre[1..][i] == pre[i + 1];
        }
      }
      FoldSplit(step, pre[1..], post, step(pre[0], slots).slots);
    }
  }

  /** The items `stream_anthropic` yields for a sequence of events, starting
      from the given slots: the fold of `EventStep`, which ends at the first
      message that parses as `message_stop`. */
  function Run(events: seq<TransportEvent>, slots: Slots, inferenceId: N.Uuid, codec: StreamCodec): seq<Item> {
    Fold(StepperFor(inferenceId, codec), events, slots)
  }

  /** Each event yields at most one item. */
  lemma {:induction false} RunYieldsAtMostOnePerEvent(events: seq<TransportEvent>, slots: Slots, inferenceId: N.Uuid, codec: StreamCodec)
    ensures |Run(events, slots, inferenceId, codec)| <= |events|
    decreases |events|
  {
    if events != [] {
      match EventStep(events[0], slots, inferenceId, codec)
      case Stop =>
      case Continue(_, next) =>
        RunYieldsAtMostOnePerEvent(events[1..], next, inferenceId, codec);
    }
  }

  /** `Run` from the i-th event on, when that event does not end the stream. */
  lemma RunFrom(events: seq<TransportEvent>, i: nat, slots: Slots, inferenceId: N.Uuid, codec: StreamCodec, emitted: seq<Item>, next: Slots)
    requires i < |events|
    requires EventStep(events[i], slots, inferenceId, codec) == Continue(emitted, next)
    ensures Run(events[i..], slots, inferenceId, codec) == emitted + Run(events[i + 1..], next, inferenceId, codec)
  {
    assert events[i..][0] == events[i];
    assert events[i..][1..] == events[i + 1..];
  }

  /** `Run` from the i-th event on, when that event ends the stream. */
  lemma RunStopsAt(events: seq<TransportEvent>, i: nat, slots: Slots, inferenceId: N.Uuid, codec: StreamCodec)
    requires i < |events| && EndsStream(events[i], codec)
    ensures Run(events[i..], slots, inferenceId, codec) == []
  {
    assert events[i..][0] == events[i];
  }

  /** The body of the loop in `stream_anthropic`: one event handled with the
      decoder's slots. */
  method HandleEvent(decoder: StreamDecoder, e: TransportEvent, inferenceId: N.Uuid, codec: StreamCodec)
    returns (outcome: EventOutcome)
    modifies decoder
    ensures outcome == EventStep(e, old(decoder.Identity()), inferenceId, codec)
    ensures outcome.Continue? ==> outcome.slots == decoder.Identity()
  {
    match e {
      case Open =>
        outcome := Continue([], decoder.Identity());
      case TransportError(message) =>
        outcome := Continue([Failure(N.AnthropicServer(message))], decoder.Identity());
      case Message(data, elapsed) =>
        var parsed := codec.parseEvent(data);
        if parsed.Success? && parsed.value.MessageStop? {
          return Stop;
        }
        if parsed.Failure? {
          outcome := Continue([Failure(N.AnthropicServer(ParseErrorMessage(parsed.error, data)))], decoder.Identity());
        } else {
          var response := decoder.Step(parsed.value, inferenceId, elapsed, codec);
          outcome := Continue(Emitted(response), decoder.Identity());
        }
    }
  }

  /** The loop of `stream_anthropic` over the events received, with a fresh
      decoder owning the slots; it ends at the stream's last message. */
  method StreamAnthropic(events: seq<TransportEvent>, inferenceId: N.Uuid, codec: StreamCodec) returns (items: seq<Item>)
    ensures items == Run(events, UNSET, inferenceId, codec)
  {
    var decoder := new StreamDecoder();
    items := [];
    var i := 0;
    ghost var all := Run(events, UNSET, inferenceId, codec);
    assert events[0..] == events;
    while i < |events|
      invariant 0 <= i <= |events|
      invariant items + Run(events[i..], decoder.Identity(), inferenceId, codec) == all
    {
      ghost var slots := decoder.Identity();
      var outcome := HandleEvent(decoder, events[i], inferenceId, codec);
      match outcome {
        case Stop =>
          RunStopsAt(events, i, slots, inferenceId, codec);
          break;
        case Continue(emitted, _) =>
          RunFrom(events, i, slots, inferenceId, codec, emitted, decoder.Identity());
          items := items + emitted;
      }
      i := i + 1;
    }
  }

  // ---------------------------------------------------------------------
  // What the slots hold

  /** The slots after a message event: the tool call it starts, if it starts
      one that the step accepts; otherwise unchanged. */
  function SlotsAfterEvent(e: TransportEvent, slots: Slots, codec: StreamCodec): Slots {
    if e.Message? && codec.parseEvent(e.data).Success? then
      var m := codec.parseEvent(e.data).value;
      if StartsTool(m) && codec.showEvent(m).Success?
      then Slots(Some(m.contentBlock.id), Some(m.contentBlock.name))
      else slots
    else slots
  }

  /** The slots after a sequence of events: the most recent tool call
      started, or the initial slots when none was. */
  function SlotsAfter(events: seq<TransportEvent>, slots: Slots, codec: StreamCodec): Slots
    decreases |events|
  {
    if events == [] then slots
    else
      SlotsAfterEvent(events[|events| - 1], SlotsAfter(events[..|events| - 1], slots, codec), codec)
  }

  lemma {:induction false} SlotsAfterCons(e: TransportEvent, rest: seq<TransportEvent>, slots: Slots, codec: StreamCodec)
    ensures SlotsAfter([e] + rest, slots, codec) == SlotsAfter(rest, SlotsAfterEvent(e, slots, codec), codec)
    decreases |rest|
  {
    if rest == [] {
      assert ([e] + rest)[..0] == [];
    } else {
      var all := [e] + rest;
      assert all[..|all| - 1] == [e] + rest[..|rest| - 1];
      assert all[|all| - 1] == rest[|rest| - 1];
      SlotsAfterCons(e, rest[..|rest| - 1], slots, codec);
    }
  }

  /** Under the real step, a sequence with no `message_stop` continues, and
      leaves the slots holding the most recent tool call it started. */
  lemma {:induction false} FoldSlotsIsSlotsAfter(pre: seq<TransportEvent>, slots: Slots, inferenceId: N.Uuid, codec: StreamCodec)
    requires NoEnd(pre, codec)
    ensures Continues(StepperFor(inferenceId, codec), pre)
    ensures FoldSlots(StepperFor(inferenceId, codec), pre, slots) == SlotsAfter(pre, slots, codec)
    decreases |pre|
  {
    var step := StepperFor(inferenceId, codec);
    forall i, s | 0 <= i < |pre| ensures step(pre[i], s).Continue? {
      assert !EndsStream(pre[i], codec);
    }
    if pre != [] {
      assert NoEnd(pre[1..], codec) by {
        forall i | 0 <= i < |pre[1..]| ensures !EndsStream(pre[1..][i], codec) {
          assert pre[1..][i] == pre[i + 1];
        }
      }
      FoldSlotsIsSlotsAfter(pre[1..], SlotsAfterEvent(pre[0], slots, codec), inferenceId, codec);
      SlotsAfterCons(pre[0], pre[1..], slots, codec);
      assert [pre[0]] + pre[1..] == pre;
    }
  }

  /** Events before the end of the stream are decoded one after another: the
      items of a prefix come first, and the rest is decoded from the slots
      that prefix leaves. */
  lemma RunSplit(pre: seq<TransportEvent>, post: seq<TransportEvent>, slots: Slots, inferenceId: N.Uuid, codec: StreamCodec)
    requires NoEnd(pre, codec)
    ensures Run(pre + post, slots, inferenceId, codec) ==
      Run(pre, slots, inferenceId, codec) + Run(post, SlotsAfter(pre, slots, codec), inferenceId, codec)
  {
    FoldSlotsIsSlotsAfter(pre, slots, inferenceId, codec);
    FoldSplit(StepperFor(inferenceId, codec), pre, post, slots);
  }

  /** Nothing after the first `message_stop` is read or yielded. */
  lemma StopEndsRun(pre: seq<TransportEvent>, stop: TransportEvent, post: seq<TransportEvent>, slots: Slots, inferenceId: N.Uuid, codec: StreamCodec)
    requires NoEnd(pre, codec) && EndsStream(stop, codec)
    ensures Run(pre + [stop] + post, slots, inferenceId, codec) == Run(pre, slots, inferenceId, codec)
  {
    assert pre + [stop] + post == pre + ([stop] + post);
    RunSplit(pre, [stop] + post, slots, inferenceId, codec);
  }

  /** A transport error, or data that does not parse, yields exactly one
      error item in its place, and decoding goes on with the slots as they
      were. */
  lemma ErrorYieldsOneItem(pre: seq<TransportEvent>, e: TransportEvent, post: seq<TransportEvent>, slots: Slots, inferenceId: N.Uuid, codec: StreamCodec)
    requires NoEnd(pre, codec)
    requires e.TransportError? || (e.Message? && codec.parseEvent(e.data).Failure?)
    ensures Run(pre + [e] + post, slots, inferenceId, codec) ==
      Run(pre, slots, inferenceId, codec)
      + [Failure(N.AnthropicServer(
           if e.TransportError? then e.message else ParseErrorMessage(codec.parseEvent(e.data).error, e.data)))]
      + Run(post, SlotsAfter(pre, slots, codec), inferenceId, codec)
  {
    assert pre + [e] + post == pre + ([e] + post);
    RunSplit(pre, [e] + post, slots, inferenceId, codec);
    assert ([e] + post)[1..] == post;
  }

  /** Any message other than `message_stop` yields, in its place, exactly
      what `Translate` yields for it from the slots the earlier events left,
      and decoding goes on from the slots it leaves. */
  lemma StepYieldsInPlace(pre: seq<TransportEvent>, e: TransportEvent, post: seq<TransportEvent>, slots: Slots, inferenceId: N.Uuid, codec: StreamCodec)
    requires NoEnd(pre, codec)
    requires e.Message? && codec.parseEvent(e.data).Success? && !codec.parseEvent(e.data).value.MessageStop?
    ensures
      var o := Translate(codec.parseEvent(e.data).value, SlotsAfter(pre, slots, codec), inferenceId, e.elapsed, codec);
      Run(pre + [e] + post, slots, inferenceId, codec) ==
        Run(pre, slots, inferenceId, codec) + Emitted(o.result) + Run(post, o.slots, inferenceId, codec)
  {
    assert pre + [e] + post == pre + ([e] + post);
    RunSplit(pre, [e] + post, slots, inferenceId, codec);
    assert ([e] + post)[1..] == post;
  }

  /** A piece of tool-call arguments is stamped with the id and name of the
      most recent tool call started before it; with none started, the
      stream yields the "without current tool name" error in its place. */
  lemma ArgumentsCarryCurrentTool(pre: seq<TransportEvent>, e: TransportEvent, post: seq<TransportEvent>, slots: Slots, inferenceId: N.Uuid, codec: StreamCodec)
    requires NoEnd(pre, codec)
    requires e.Message? && codec.parseEvent(e.data).Success?
    requires ContinuesTool(codec.parseEvent(e.data).value)
    requires codec.showEvent(codec.parseEvent(e.data).value).Success?
    ensures
      var k := |Run(pre, slots, inferenceId, codec)|;
      var current := SlotsAfter(pre, slots, codec);
      var m := codec.parseEvent(e.data).value;
      var items := Run(pre + [e] + post, slots, inferenceId, codec);
      && k < |items|
      && items[k] ==
           if current.toolName.None? then Failure(N.AnthropicServer(NO_TOOL_NAME_MESSAGE))
           else if current.toolId.None? then Failure(N.AnthropicServer(NO_TOOL_ID_MESSAGE))
           else Success(ContentChunk(inferenceId,
                  N.ToolCallChunk(current.toolId.value, current.toolName.value, m.delta.partialJson),
                  codec.showEvent(m).value, e.elapsed))
  {
    assert pre + [e] + post == pre + ([e] + post);
    RunSplit(pre, [e] + post, slots, inferenceId, codec);
    assert ([e] + post)[1..] == post;
  }

  /** The slots hold the most recent tool call started: a start followed by
      events that start none leaves its id and name in place. */
  lemma {:induction false} SlotsHoldLatestStart(pre: seq<TransportEvent>, start: TransportEvent, rest: seq<TransportEvent>, slots: Slots, codec: StreamCodec)
    requires start.Message? && codec.parseEvent(start.data).Success?
    requires StartsTool(codec.parseEvent(start.data).value)
    requires codec.showEvent(codec.parseEvent(start.data).value).Success?
    requires forall i | 0 <= i < |rest| :: SlotsAfterEvent(rest[i], UNSET, codec) == UNSET
    ensures
      var block := codec.parseEvent(start.data).value.contentBlock;
      SlotsAfter(pre + [start] + rest, slots, codec) == Slots(Some(block.id), Some(block.name))
    decreases |rest|
  {
    var block := codec.parseEvent(start.data).value.contentBlock;
    var all := pre + [start] + rest;
    if rest == [] {
      assert all[..|all| - 1] == pre;
      assert all[|all| - 1] == start;
    } else {
      var shorter := rest[..|rest| - 1];
      assert all[..|all| - 1] == pre + [start] + shorter;
      assert all[|all| - 1] == rest[|rest| - 1];
      SlotsHoldLatestStart(pre, start, shorter, slots, codec);
      assert SlotsAfterEvent(rest[|rest| - 1], UNSET, codec) == UNSET;
    }
  }

  /** A tool call started with id "t1" and name "n1" and then a piece of its
      arguments give two tool-call chunks both naming t1 and n1; the same
      piece with no tool call before it is an error. */
  lemma ToolIdentityScenario(d1: string, d2: string, t: N.Duration, inferenceId: N.Uuid, codec: StreamCodec)
    requires codec.parseEvent(d1) == Success(ContentBlockStart(ToolUse("t1", "n1", JObj(map[])), 1))
    requires codec.parseEvent(d2) == Success(ContentBlockDelta(InputJsonDelta("{\"a\":"), 1))
    requires codec.showEvent(ContentBlockStart(ToolUse("t1", "n1", JObj(map[])), 1)).Success?
    requires codec.showEvent(ContentBlockDelta(InputJsonDelta("{\"a\":"), 1)).Success?
    ensures
      var items := Run([Message(d1, t), Message(d2, t)], UNSET, inferenceId, codec);
      && |items| == 2
      && items[0].Success? && items[0].value.content == [N.ToolCallChunk("t1", "n1", "")]
      && items[1].Success? && items[1].value.content == [N.ToolCallChunk("t1", "n1", "{\"a\":")]
    ensures Run([Message(d2, t)], UNSET, inferenceId, codec) == [Failure(N.AnthropicServer(NO_TOOL_NAME_MESSAGE))]
  {
    var start := ContentBlockStart(ToolUse("t1", "n1", JObj(map[])), 1);
    var piece := ContentBlockDelta(InputJsonDelta("{\"a\":"), 1);
    var events := [Message(d1, t), Message(d2, t)];
    var tool := Slots(Some("t1"), Some("n1"));
    var first := [Success(ContentChunk(inferenceId, N.ToolCallChunk("t1", "n1", ""), codec.showEvent(start).value, t))];
    var second := [Success(ContentChunk(inferenceId, N.ToolCallChunk("t1", "n1", "{\"a\":"), codec.showEvent(piece).value, t))];
    assert EventStep(events[0], UNSET, inferenceId, codec) == Continue(first, tool);
    assert EventStep(events[1], tool, inferenceId, codec) == Continue(second, tool);
    RunFrom(events, 0, UNSET, inferenceId, codec, first, tool);
    RunFrom(events, 1, tool, inferenceId, codec, second, tool);
    assert events[0..] == events && events[2..] == [];
    var alone := [Message(d2, t)];
    var failure := [Failure(N.AnthropicServer(NO_TOOL_NAME_MESSAGE))];
    assert EventStep(alone[0], UNSET, inferenceId, codec) == Continue(failure, UNSET);
    RunFrom(alone, 0, UNSET, inferenceId, codec, failure, UNSET);
    assert alone[0..] == alone && alone[1..] == [];
  }

  // ---------------------------------------------------------------------
  // Opening a stream

  const NO_FIRST_CHUNK_MESSAGE: string := "Stream ended before first chunk"

  /** `infer_stream` takes the first item before handing the stream over:
      a chunk is returned together with the rest of the items, an error item
      is returned as the failure, and a stream with no items at all fails. */
  function FirstChunk(items: seq<Item>): (r: Result<(Chunk, seq<Item>), N.Error>)
    ensures r.Success? <==> items != [] && items[0].Success?
    ensures r.Success? ==> [Success(r.value.0)] + r.value.1 == items
    ensures items == [] ==> r == Failure(N.AnthropicServer(NO_FIRST_CHUNK_MESSAGE))
    ensures items != [] && items[0].Failure? ==> r == Failure(items[0].error)
  {
    if items == [] then Failure(N.AnthropicServer(NO_FIRST_CHUNK_MESSAGE))
    else
      match items[0]
      case Success(chunk) => Success((chunk, items[1..]))
      case Failure(e) => Failure(e)
  }

  /** A stream whose first event is `message_stop` fails to open. */
  lemma SilentStreamFailsToOpen(events: seq<TransportEvent>, inferenceId: N.Uuid, codec: StreamCodec)
    requires events != [] && EndsStream(events[0], codec)
    ensures FirstChunk(Run(events, UNSET, inferenceId, codec)) == Failure(N.AnthropicServer(NO_FIRST_CHUNK_MESSAGE))
  {
    RunStopsAt(events, 0, UNSET, inferenceId, codec);
    assert events[0..] == events;
  }
}
