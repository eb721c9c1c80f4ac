# GCP Vertex Anthropic provider, modelled in Dafny

This project models the TensorZero gateway's adapter for Anthropic models
served on Google Cloud Vertex AI (`gateway/src/inference/providers/gcp_vertex_anthropic.rs`).
The adapter does four things:

- **Request building** (`request.dfy`, `wire.dfy`, `normalize.dfy`). It
  turns the gateway's provider-neutral inference request into the Anthropic
  Messages request body. It converts roles, content blocks, tools and the tool
  choice, and it rejects tool-call arguments that are not a JSON object. It
  then normalises the conversation: same-role turns are merged, and a
  `[listening]` user turn is added in front when the conversation does not
  open with a user turn, and at the end when it ends with an assistant turn.
- **Reply decoding** (`response.dfy`). It decodes a complete response into
  the neutral response. It sorts an error reply into a client error or a
  server error by status code, and it reads token usage tolerantly.
- **Stream decoding** (`stream.dfy`). Server-sent events are turned into
  neutral chunks by a decoder that remembers the id and name of the current
  tool call. Only the event that starts a tool call carries them, yet every
  later piece of that call's arguments must be stamped with them. The stream
  ends at the first `message_stop`, and opening a stream needs a first chunk.
- **Support** (`wrappers.dfy`, `json.dfy`, `decimal.dfy`, `neutral.dfy`):
  - `Option` and `Result`, and `collect` into a `Result`;
  - an abstract JSON value;
  - the decimal rendering of block indices;
  - the neutral types the adapter consumes and produces.

Where the source mutates state, the model does too.

- `Normalize.PrepareMessages` is the source's loop over a mutable list, with
  its `last_role` variable. It is proved to compute the fold
  `Normalize.Prepared`.
- `Stream.StreamDecoder` is a class whose two fields are the two mutable
  slots. Its `Step` method is proved to compute `Stream.Translate`.
- `Stream.StreamAnthropic` is the event loop, with a fresh decoder. It is
  proved to compute `Stream.Run`, the fold of one event step over the events.

Everything else is functions and lemmas.

serde_json is not modelled as a format. Parsing and printing are supplied
as function-valued parameters returning `Result`, where an error carries
serde's message. The properties hold for every such codec, or for every
codec that round-trips a given value.

## Model

| member | source | states |
|---|---|---|
| Wrappers.CollectResults | gateway/src/inference/providers/gcp_vertex_anthropic.rs:324-328 | `collect::<Result<Vec<_>,_>>` succeeds exactly when every element converts. It then keeps the order and length, and its value at each position is that element's conversion. Otherwise it returns the error of the first element that fails. |
| Decimal.NatToString | gateway/src/inference/providers/gcp_vertex_anthropic.rs:656 | `index.to_string()` is never empty, is made of digits only, and has no leading zero except for 0 itself. |
| Decimal.DigitsValueOfNatToString | gateway/src/inference/providers/gcp_vertex_anthropic.rs:656 | Reading the decimal rendering back gives the index it came from. |
| Decimal.NatToStringInjective | gateway/src/inference/providers/gcp_vertex_anthropic.rs:694 | Different block indices give different text-chunk ids. |
| Wire.RoleFrom | gateway/src/inference/providers/gcp_vertex_anthropic.rs:194-201 | Each neutral role goes out as the wire role that stands for it: user as user, assistant as assistant. |
| Wire.RoleFromIsOnto | gateway/src/inference/providers/gcp_vertex_anthropic.rs:194-201 | Both wire roles are produced, each from exactly its neutral role. |
| Wire.ToolChoiceFrom | gateway/src/inference/providers/gcp_vertex_anthropic.rs:215-230 | Fails exactly for the "none" choice, with the InvalidTool message. Every other choice converts to the wire choice that stands for it: auto to auto, required to any, a specific tool to that tool. |
| Wire.ToolChoiceFromIsOnto | gateway/src/inference/providers/gcp_vertex_anthropic.rs:215-230 | Every wire choice is produced, from exactly the neutral choice it stands for. |
| Wire.ToolFrom | gateway/src/inference/providers/gcp_vertex_anthropic.rs:240-249 | A tool always goes out with its description, and its name, description and input schema are those of the configured tool, which can be read back whole. |
| Wire.ContentFrom | gateway/src/inference/providers/gcp_vertex_anthropic.rs:270-310 | Fails exactly when a tool call's arguments do not parse, or parse to something that is not a JSON object; both failures are client errors with status 400. Text stays text. A tool result becomes a tool_result holding one text block. A tool call becomes a tool_use whose input is the parsed arguments. |
| Wire.MessageFrom | gateway/src/inference/providers/gcp_vertex_anthropic.rs:318-335 | Keeps the role and converts the blocks one by one, in order. It fails exactly when some block fails, and then with that block's error. |
| Normalize.Consolidate | gateway/src/inference/providers/gcp_vertex_anthropic.rs:403-426 | The merge loop never lengthens the list and is empty only for empty input. It keeps the first and the last role, and leaves no two adjacent messages with the same role. |
| Normalize.PrepareMessages | gateway/src/inference/providers/gcp_vertex_anthropic.rs:400-460 | The source's loop with `last_role` and pop-extend-push computes `Prepared`, and its result is always well formed. The pop never finds an empty list. |
| Normalize.PreparedShape | gateway/src/inference/providers/gcp_vertex_anthropic.rs:427-458 | A placeholder user turn goes in front exactly when the input is empty or opens with an assistant turn. One goes at the end exactly when the input ends with an assistant turn. Between them is the consolidated input. |
| Normalize.PreparedWellFormed | gateway/src/inference/providers/gcp_vertex_anthropic.rs:400-460 | For every input the output is non-empty, opens with a user turn, does not end with an assistant turn, and alternates roles. |
| Normalize.PreparedKeepsWellFormed | gateway/src/inference/providers/gcp_vertex_anthropic.rs:400-460 | A conversation that is already well formed is sent unchanged. |
| Normalize.PreparedIdempotent | gateway/src/inference/providers/gcp_vertex_anthropic.rs:400-460 | Normalising twice gives the same result as normalising once. |
| Normalize.ConsolidateKeepsContent | gateway/src/inference/providers/gcp_vertex_anthropic.rs:405-426 | Merging neither loses, duplicates nor reorders any content block. |
| Normalize.PreparedKeepsContent | gateway/src/inference/providers/gcp_vertex_anthropic.rs:400-460 | The output's content is the input's content in order. The only additions are placeholder texts, in the front and end positions `PreparedShape` names. |
| Normalize.ConsolidateCountsRuns | gateway/src/inference/providers/gcp_vertex_anthropic.rs:405-426 | The merged list has one message per maximal run of same-role input messages. |
| Normalize.ConsolidateMergesRun | gateway/src/inference/providers/gcp_vertex_anthropic.rs:407-416 | A run of same-role messages becomes one message of that role holding the run's content in order. |
| Normalize.ConsolidateSplitsAtRoleChange | gateway/src/inference/providers/gcp_vertex_anthropic.rs:417-419 | At a change of role, merging treats the two sides independently. |
| Normalize.ConsolidateKeepsAlternating | gateway/src/inference/providers/gcp_vertex_anthropic.rs:405-426 | An input that already alternates is not changed by merging. |
| Normalize.PreparedEmpty | gateway/src/inference/providers/gcp_vertex_anthropic.rs:1239-1242 | No messages give the single placeholder user turn. |
| Normalize.PreparedSingleUser | gateway/src/inference/providers/gcp_vertex_anthropic.rs:1244-1253 | A single user message is sent as it is. |
| Normalize.PreparedMergesAndCloses | gateway/src/inference/providers/gcp_vertex_anthropic.rs:1158-1191 | Two user turns and then an assistant turn give one user turn with both texts, the assistant turn, and a closing placeholder. |
| Request.NewRequestBody | gateway/src/inference/providers/gcp_vertex_anthropic.rs:356-391 | No messages is an InvalidRequest error, and it is the only one. Otherwise the body is built exactly when every message converts, and any other failure is a 400 client error. A built body holds: (1) the Vertex API version; (2) the normalised, well-formed conversation of the converted messages; (3) max tokens, defaulting to 4096; (4) `stream`, always present; (5) the system prompt and temperature unchanged; (6) tools exactly when a tool configuration is given, one per tool in order, each with its description; (7) a tool choice exactly when there is at least one tool and the choice is not "none", and then the wire choice that stands for the caller's. |
| Request.ToolsFrom | gateway/src/inference/providers/gcp_vertex_anthropic.rs:369-373 | `tools` is present exactly when a tool configuration is, even an empty one. It then holds one wire tool per configured tool, in order, each carrying that tool's name, description and schema. |
| Request.ToolChoiceFor | gateway/src/inference/providers/gcp_vertex_anthropic.rs:374-379 | `tool_choice` is present exactly when there is at least one tool and the configured choice is not "none"; a "none" choice is dropped, not reported. It is then the wire choice that stands for the configured one. |
| Request.SeedIsDropped | gateway/src/inference/providers/gcp_vertex_anthropic.rs:380 | The request's seed makes no difference to the body. |
| Request.UserAssistantRequestGetsClosed | gateway/src/inference/providers/gcp_vertex_anthropic.rs:1134-1156 | A user turn and then an assistant turn are sent with a placeholder user turn after them. |
| Response.BlockFrom | gateway/src/inference/providers/gcp_vertex_anthropic.rs:486-504 | Text stays text. A tool use becomes a tool call whose arguments are its input printed as JSON. Only that printing can fail, and its failure is a server error with the "input for tool call" message. |
| Response.ResponseFrom | gateway/src/inference/providers/gcp_vertex_anthropic.rs:541-564 | Succeeds exactly when the response prints and every block converts. The raw response is printed first, and its failure is reported before any block's. On success the blocks keep their order and length, the raw response is the printed response, and usage and latency are copied. Every failure is a server error. |
| Response.UsageFrom | gateway/src/inference/providers/gcp_vertex_anthropic.rs:512-519 | Both token counts reach the neutral usage unchanged. |
| Response.HandleAnthropicError | gateway/src/inference/providers/gcp_vertex_anthropic.rs:566-584 | An error reply never gives a response. Status 400, 401, 413 or 429 gives a client error carrying that status; any other status gives a server error. The provider's message is kept either way. |
| Response.TokenCount | gateway/src/inference/providers/gcp_vertex_anthropic.rs:759-767 | A count is the field's value reduced modulo 2^32 when the field holds an unsigned 64-bit integer (the `as u32` cast). A missing or non-numeric field reads 0. |
| Response.ParseUsageInfo | gateway/src/inference/providers/gcp_vertex_anthropic.rs:759-772 | Never fails. Each count is its field's unsigned 64-bit value reduced modulo 2^32, and 0 when the field is missing or not an unsigned 64-bit integer. |
| Response.ParseUsageInfoReadsUsageJson | gateway/src/inference/providers/gcp_vertex_anthropic.rs:759-772 | Usage encoded as the wire encodes it reads back unchanged. |
| Response.ParseUsageInfoDefaults | gateway/src/inference/providers/gcp_vertex_anthropic.rs:759-772 | An unusable or missing output count reads 0 and leaves the input count as it is. |
| Response.ToolArgumentsRoundTrip | gateway/src/inference/providers/gcp_vertex_anthropic.rs:278-299 | Tool-call arguments that print an object go out as that object. A reply carrying that tool use decodes back to the same tool call, provided the codec round-trips the object. |
| Response.DecodeReply | gateway/src/inference/providers/gcp_vertex_anthropic.rs:60-79 | Only a 2xx status can give a response; a 2xx body that parses is decoded by `ResponseFrom`, and one that does not is a server error "Error parsing JSON response" carrying serde's message and the body. Any other status with a parseable error reply goes to `HandleAnthropicError`; an unparseable error reply is a server error "Error parsing response" with serde's message. |
| Stream.Translate | gateway/src/inference/providers/gcp_vertex_anthropic.rs:639-757 | The slots change only when a tool call starts and its message prints, and then they hold that call's id and name. A message that does not print is a server error that leaves the slots alone. |
| Stream.TranslateStampsChunks | gateway/src/inference/providers/gcp_vertex_anthropic.rs:650-720 | Each chunk has the stream id, the latency and the printed message, and at most one block. A tool-call chunk carries exactly the id and name the slots hold after the message. A text chunk's id is its block index in decimal. |
| Stream.ArgumentsNeedCurrentTool | gateway/src/inference/providers/gcp_vertex_anthropic.rs:663-682 | A piece of tool-call arguments fails exactly when the tool name or id slot is unset. |
| Stream.TranslateEmits | gateway/src/inference/providers/gcp_vertex_anthropic.rs:650-755 | For a message that prints: it fails exactly for an error event, a block kind the message cannot carry (a delta other than text or partial arguments, a start other than text or a tool use), or partial arguments with no current tool. A tool start yields a tool-call chunk with the tool's id and name and empty arguments. Text yields a text chunk with that text, identified by the block index. Partial arguments yield a tool-call chunk naming the current tool. A message delta, and a message start with usage, yield a usage chunk read by `parse_usage_info`. An error event yields a server error holding the displayed error. |
| Stream.TranslateYieldsNothing | gateway/src/inference/providers/gcp_vertex_anthropic.rs:725-755 | A message yields no chunk (and no error) exactly when it prints and is a block stop, a ping, the final stop, or a message start without usage. |
| Stream.StreamDecoder.constructor | gateway/src/inference/providers/gcp_vertex_anthropic.rs:137-138 | A stream starts with no current tool id or name. |
| Stream.StreamDecoder.Step | gateway/src/inference/providers/gcp_vertex_anthropic.rs:639-757 | Writing through the two slots, the step returns what `Translate` returns and leaves the slots `Translate` leaves. |
| Stream.EventStep | gateway/src/inference/providers/gcp_vertex_anthropic.rs:140-175 | An event ends the stream exactly when its data parses as `message_stop`. Otherwise it yields at most one item and leaves the slots `SlotsAfterEvent` gives. The connection opening yields nothing. A transport error yields it as a server error, and unparseable data yields the "Error parsing message" error with the data. |
| Stream.FoldSplit | gateway/src/inference/providers/gcp_vertex_anthropic.rs:139-179 | For any step function, events that do not end the stream are folded one after another: folding a prefix, then the rest from the slots it leaves, is folding the whole. |
| Stream.RunYieldsAtMostOnePerEvent | gateway/src/inference/providers/gcp_vertex_anthropic.rs:139-179 | The stream yields no more items than there are events. |
| Stream.HandleEvent | gateway/src/inference/providers/gcp_vertex_anthropic.rs:140-176 | One pass of the loop body computes `EventStep` from the decoder's slots, and leaves in the decoder the slots it reports. |
| Stream.StreamAnthropic | gateway/src/inference/providers/gcp_vertex_anthropic.rs:131-183 | The loop, with a fresh decoder, yields exactly `Run` of the events from unset slots. |
| Stream.FoldSlotsIsSlotsAfter | gateway/src/inference/providers/gcp_vertex_anthropic.rs:704-707 | Before the end of the stream, the slots the loop carries are those of the most recent tool call started. |
| Stream.RunSplit | gateway/src/inference/providers/gcp_vertex_anthropic.rs:139-179 | The items of a prefix without `message_stop` come first. The rest is decoded from the slots that prefix leaves. |
| Stream.StopEndsRun | gateway/src/inference/providers/gcp_vertex_anthropic.rs:156-159 | Nothing after the first `message_stop` is read or yielded. |
| Stream.ErrorYieldsOneItem | gateway/src/inference/providers/gcp_vertex_anthropic.rs:141-155 | A transport error, or data that does not parse, yields exactly one server error in its place. Decoding then goes on with the slots unchanged. |
| Stream.StepYieldsInPlace | gateway/src/inference/providers/gcp_vertex_anthropic.rs:160-174 | Any message other than `message_stop` yields, at its own position, exactly what `Translate` gives for it from the slots the earlier events left: nothing for `Ok(None)`, one chunk, or one error. Decoding goes on from the slots it leaves. |
| Stream.ArgumentsCarryCurrentTool | gateway/src/inference/providers/gcp_vertex_anthropic.rs:663-682 | A piece of tool-call arguments yields, at its own position in the stream, a chunk stamped with the most recent tool call's id and name. When no tool call has started, it yields the "without current tool name" error. |
| Stream.SlotsHoldLatestStart | gateway/src/inference/providers/gcp_vertex_anthropic.rs:704-707 | A tool-call start followed by events that start no tool call leaves its id and name in the slots. |
| Stream.ToolIdentityScenario | gateway/src/inference/providers/gcp_vertex_anthropic.rs:704-720 | A start of tool t1/n1 and then a piece of its arguments give two tool-call chunks, both naming t1 and n1. The piece alone is an error. |
| Stream.FirstChunk | gateway/src/inference/providers/gcp_vertex_anthropic.rs:110-119 | Opening succeeds exactly when the first item is a chunk, and then returns it together with the rest of the stream. A first error is returned as it is. An empty stream gives "Stream ended before first chunk". |
| Stream.SilentStreamFailsToOpen | gateway/src/inference/providers/gcp_vertex_anthropic.rs:113-117 | A stream whose first event is `message_stop` fails to open with "Stream ended before first chunk". |

## Left out

- HTTP, credentials and the event source are not modelled: sending the request, `get_jwt_token`, the missing-credentials error, `eventsource()` and its send error, reading the body as text, and `event_source.close()`. `DecodeReply` takes the status and the body text, and `StreamAnthropic` takes the received events as a finite sequence.
- The clock and `Uuid::now_v7()` become parameters. Latencies are opaque numbers, and the stream id is a value given to `Run` and `StreamAnthropic`.
- serde_json is not modelled as a format. Parsing, printing and `Value`'s display are supplied as parameters, and `skip_serializing_if` (fields left out of the JSON when absent) is not modelled.
- `f32` temperature is carried as opaque bits and only passed through.
- The neutral types come from other modules of the gateway. Only the fields the adapter reads are modelled. `ToolConfig`'s accessors `name()`, `description()` and `parameters()` become the fields of a record.
- The `async`/streaming machinery (`async_stream`, `Box::pin`, `await`) is not modelled. The stream is the sequence of items it yields.
- Normalize.PrepareMessages: the "Last message is missing (this should never happen)" error is not modelled as a result, because the pop it guards is proved never to find an empty list.
- Stream.StreamAnthropic: a stream that never ends is not modelled, only finite sequences of events.

