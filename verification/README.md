# ProviderX: a verified model

ProviderX is a local router. It takes Codex "Responses" traffic, translates it to three upstream
protocols (Responses, Chat Completions, Anthropic Messages), keeps a bounded history for each
WebSocket session, and edits two sets of files that other programs also edit: the Codex
configuration and its own provider documents. This project models the parts of it whose correctness
spans many steps, and proves what those parts promise on every input and every run.

`dafny verify dfyconfig.toml` checks everything.

## How the model is built

Every component is a value and a step function (`Emitter` and `Apply`, `World` and `Step`, `Session`
and `Prepare`), and laws stated over all runs of it. Where the source updates fields, arrays, maps or
files in place, a class or a loop does so too, and each of its operations is proved equal to the step
function. Step functions without such a class compose others or stand for code the source writes as
expressions: the server of many relay sessions, the rounds of a Responses conversation, the decoders of
one block. What a run means to those who see it only from outside is then stated without the step function's
helpers, in terms of the events, lists and files themselves and with the constants written out: `OutputMeaning`,
`ChatMeaning`, `AnthropicMeaning`, `RelayTraffic`, `ControlPlaneMutations`, `CodexConfigOutcome`. The parts and
their files:

| part | files |
|---|---|
| Streaming translator | `OutputModel`, `OutputEmitter`, `OutputLaws`, `OutputLifecycle`, `OutputStop`, `OutputPlacement`, `OutputMeaning`, `SseFraming`, `ChatStream`, `ChatMeaning`, `AnthropicModel`, `AnthropicDecoder`, `AnthropicLaws`, `AnthropicStream`, `AnthropicLifecycle`, `AnthropicMeaning`, `Reasoning`, `ResponsesStream`, `ToolNames` |
| Session history | `OverlapMerge`, `ChatSession`, `ResponsesSession` |
| Crash-recoverable files | `AtomicFile`, `TomlDocument`, `CodexConfig`, `CodexConfigLaws`, `CodexConfigEditor`, `CodexConfigIdentity`, `CodexConfigOutcome`, `ProviderUpgrade`, `ProviderUpgradeLaws`, `ProviderUpgrader`, `ControlPlane`, `ControlPlaneMutations`, `AppRuntime` |
| Relay and routing | `Routing`, `Relay`, `RelayTraffic` |
| Shared values | `Wrappers`, `OrderedTable` |

Conventions. A string holds one character per UTF-8 byte, so its length is the source's byte length
(in `Routing` characters are Unicode scalars, because its checks are). A SHA-256 hash is the content
it digests. Random identifiers, JSON readers, YAML classification, serialised sizes and clock-driven
failures are parameters of the functions that use them; every law holds for all of them. Counters
that the source saturates are written as saturating and proved never to saturate, or saturate in the
model too.

The file protocols are machines whose steps are single file accesses. Between any two of them another
program may edit a file or the process may stop; a write that fails and leaves its file unchanged is
the same event as a stop. The classes `Editor` and `Upgrader` take, for every access, what another
program did just before it, so their error branches are real.

## What is proved that is worth knowing

- **Where a promise is conditional, the condition is settled.** Chunks must not cut a CR LF pair:
  framing agrees with the unbroken stream if and only if none is cut (`FramesAgreeIffPairsAreKept`,
  with a two-byte counterexample in `CutPairEndsABlock`). The item lifecycle needs an orderly stream, and
  the code does not enforce one; each part of that hypothesis has its exact law. A message is announced at
  its final output index if and only if reasoning does not start after it
  (`MessageIsPlacedIffReasoningComesFirst`), a call if and only if neither starts after it
  (`CallIsPlacedIffNothingStartsAfter`). When tool indices are left unused the two errors can cancel, so a
  call may be announced at its array place by accident (`UnusedIndexCanHideALateStart`); the law says
  exactly when. Items are reported done as they stand at the stop reason; they are the items of the
  terminal event if and only if no accepted content after the stop reason adds to an item, starts one, or
  leaves a call under another id or identity (`DoneItemsAreFinalIff`, with an input in
  `TextAfterStopIsNotReported`). A call is announced if and only if it has an id and a name at the same
  time, and is reported done in any case (`ClosedCallWasAddedIff`, `NamelessCallIsClosedUnadded`); the
  announced name is the final one if and only if no name part is accepted afterwards
  (`AnnouncedNameIsFinalIff`).
- **Stopping `apply` or `restore` is recoverable except in two places.** An `apply` that has saved a
  receipt with a new URL over a configuration applied with another one, and a `restore` that has put
  the original back under an active receipt. There, and only there, both operations refuse the
  configuration from then on (`StoppingIsRecoverableIffNotExposed`); `UrlChangeIsExposed` and
  `RestoreIsExposed` say exactly when an operation passes through such a place, and `UrlChangeStrands` and
  `RestoreStrands` are runs that do.
- **An edit of unmanaged keys strands a URL change.** When another program changes the file in any way
  between the reading and the writing of an `apply`, the compare-and-swap write fails. That is harmless
  unless the URL was being moved; then both operations refuse the configuration from then on, with
  nothing having crashed (`EditBeforeReceiptStrandsIffUrlMoves`, `EditBeforeWriteStrandsIffUrlMoves`, and
  the runs of `EditStrands`).
  `Calm` therefore excludes such edits.
- **Apply and restore give back every item, not always the file.** Restoring re-inserts keys: what was
  written around a managed key is lost, and the catalog key moves behind the other values. The file is
  identical if and only if there was nothing around a managed key and the catalog key was last or absent
  (`QuietRoundTrip`); `CatalogKeyMoves` is the plainest file that is not.
- **A request in a binary frame skips the route.** A binary, ping or pong frame that reads as a request
  starts one and is sent as it came, without route check, rewriting or observation
  (`PayloadRequestSkipsTheRoute`); `RelayIsSafe` speaks of text requests for that reason.
- **Flattened tool names collide** (`FlatteningCollides`), and conversion refuses exactly those
  collisions (`ConversionIsExact`), so the way back is always unique.
- **A dropped shutdown sender ends a relay session even mid-response**
  (`LostSenderCutsAResponse`); a restart cuts a response exactly then or under force
  (`RestartCutsIffForcedOrLost`), so `DrainingNeverCutsAResponse` assumes neither.

## Where the code and its words differ

The model follows the code.

- The documentation of `restore` speaks of the exact pre-install configuration and of no external
  edits (crates/provider-x-app/src/codex_config/mod.rs:207-211). The code puts back the three managed
  items only, and accepts any edit that keeps their values. Even with no edit the file need not be exact:
  `model_catalog_json = "x"` above `model = "m"` comes back below it, because applying removes the key and
  restoring appends it (lines 332 and 382-388), and a comment above `model_provider` is lost.
- The provider upgrade is described for older documents
  (crates/provider-x-core/src/config.rs:325). The code treats every other non-zero schema version as
  an upgrade, a newer one included.
- A provider identifier is documented as non-empty and made of lower-case letters, digits or `-`
  (crates/provider-x-core/src/model.rs:13-18). The code also refuses one of dashes only
  (`IdsAtTheirEdges`).
- `apply` reads the current model cache as text even when the receipt already records one
  (crates/provider-x-app/src/codex_config/mod.rs:158-160), so a cache that is not UTF-8 blocks it.
  `Accepted` states this.

## Model

| member | source | states |
|---|---|---|
| OutputStream.OutputEmitter.Apply | crates/provider-x-protocol/src/output.rs:155-213 | accepts or refuses one semantic event, leaving state and pending events exactly as the model's step, failed events included |
| OutputStream.OutputEmitter.ApplyToolDelta | crates/provider-x-protocol/src/output.rs:255-324 | one tool delta: byte check first, then merge, announcement once id and name are known, and arguments delta |
| OutputStream.OutputEmitter.FinishItemsNow | crates/provider-x-protocol/src/output.rs:351-422 | closes reasoning, message and every call in output order |
| OutputStream.OutputEmitter.FinalizeNow | crates/provider-x-protocol/src/output.rs:424-457 | emits the terminal event for the stop reason once and sets the flags, as the model does; TerminalEventSaysWhatWasAccepted says which status each reason has |
| OutputStream.OutputEmitter.Finish | crates/provider-x-protocol/src/output.rs:111-120 | drains everything emitted so far, closing a stream that has its stop reason |
| OutputStream.OutputEmitter.TakeOutcome | crates/provider-x-protocol/src/output.rs:123-150 | the assistant message handed to the session |
| OutputLaws.EveryRunIsLawful | crates/provider-x-protocol/src/output.rs:155-213 | after any events, refused ones included, the byte counter equals the summed lengths and is within the limit, at most 256 tools exist, text and reasoning are their emitted deltas joined, and there is at most one terminal event, last, with `completed` exactly when it says completed |
| OutputLaws.NothingSaturates | crates/provider-x-protocol/src/output.rs:338-349 | the saturating subtractions of the byte counter never saturate |
| OutputLaws.DeltasReachTheEnd | crates/provider-x-protocol/src/output.rs:459-475 | the joined text and reasoning deltas are what the terminal event and the outcome report |
| OutputLaws.ToolDeltasAreConserved | crates/provider-x-protocol/src/output.rs:285-323 | over any run a tool's arguments grow by exactly the deltas emitted for it |
| OutputLaws.ToolDeltasReachTheEnd | crates/provider-x-protocol/src/output.rs:123-150 | from a fresh emitter, the deltas emitted for a tool, joined, are its arguments in the terminal output array and in the outcome |
| OutputLaws.DefaultReasonIsNeverUsed | crates/provider-x-protocol/src/output.rs:424-431 | the unaccounted "stop" default is unreachable: only a stop event sets a reason |
| OutputLaws.TerminalIsFinal | crates/provider-x-protocol/src/output.rs:107-120 | after the terminal event nothing is accepted and nothing changes |
| OutputLifecycle.ItemsLiveAtTheirPosition | crates/provider-x-protocol/src/output.rs:215-252 | after an orderly stream the events with output index p are the whole life (added, deltas, one done) of the p-th item of the terminal output array, and no event has an index beyond it |
| OutputLifecycle.OwnerIsPosition | crates/provider-x-protocol/src/output.rs:502-508 | with tools numbered 0, 1, 2, ... index and array position are the same |
| OutputLifecycle.MessageIsPlacedIffReasoningComesFirst | crates/provider-x-protocol/src/output.rs:234-252 | the message is announced at its final index if and only if no reasoning starts after text |
| OutputPlacement.CallIsPlacedIffNothingStartsAfter | crates/provider-x-protocol/src/output.rs:255-324 | in any run the announced index of a tool is its final index if and only if neither reasoning nor text starts afterwards, and its place in the terminal output array if and only if as many start afterwards as lower tool indices stay unused |
| OutputPlacement.AnnouncedIndexIsShort | crates/provider-x-protocol/src/output.rs:502-508 | the announced and the final index differ by exactly the items that start in between |
| OutputPlacement.AnnouncedOnce | crates/provider-x-protocol/src/output.rs:285-323 | a tool is announced at most once |
| OutputPlacement.UnusedIndexCanHideALateStart | crates/provider-x-protocol/src/output.rs:506-508 | a run whose late start and unused index cancel |
| OutputPlacement.AnnouncedIffAdded | crates/provider-x-protocol/src/output.rs:285-311 | a run announces a call exactly when the call ends up added |
| OutputPlacement.ClosedCallWasAddedIff | crates/provider-x-protocol/src/output.rs:386-421 | every call known at the stop reason is reported done; it had been announced if and only if it had an id and a name at the same time |
| OutputPlacement.NamelessCallIsClosedUnadded | crates/provider-x-protocol/src/output.rs:386-421 | a call without a name that is reported done and was never added |
| OutputPlacement.AnnouncedNameIsFinalIff | crates/provider-x-protocol/src/output.rs:267-311 | the announced name is final if and only if no name part is accepted afterwards, the id if and only if the last accepted one is the same |
| OutputStop.DoneItemsAreFinalIff | crates/provider-x-protocol/src/output.rs:174-213 | the items reported done are the output array at the stop reason; they are the terminal event's if and only if no accepted content after it adds to an item or starts one and no call ends under another id or identity |
| OutputStop.OutputStaysIff | crates/provider-x-protocol/src/output.rs:459-490 | the output array stays the same over a run under exactly that condition |
| OutputStop.TextAfterStopIsNotReported | crates/provider-x-protocol/src/output.rs:174-184 | text after the stop reason: the message is reported done without it and the terminal event has it |
| OutputMeaning.TerminalEventSaysWhatWasAccepted | crates/provider-x-protocol/src/output.rs:424-457 | over every run: terminal exactly when a stop reason was accepted; the last event is then completed for "stop" and "tool_calls", incomplete for "length" and failed otherwise, with the first accepted id and the last accepted usage; the completed flag holds in the first case only; text and reasoning sent are those accepted |
| OutputMeaning.OutcomeIsExact | crates/provider-x-protocol/src/output.rs:123-150 | the session gets the flags as they are, the text unless there are only calls, the reasoning if any, and every call with id, name and arguments |
| OutputMeaning.OutputIsLiteral | crates/provider-x-protocol/src/output.rs:459-475 | the output array is the reasoning, then the message, each under the id drawn at the start, then one item for each call |
| OutputMeaning.CallItemsAreLiteral | crates/provider-x-protocol/src/output.rs:476-500 | a call's item has its id, arguments, and the declared identity of its wire name, or the name itself |
| OutputMeaning.RefusalsAreExact | crates/provider-x-protocol/src/output.rs:155-349 | in every lawful state, exactly which event is refused and how: after the end, a second reason, an end without one, the 257th tool, or the byte limit, a usage counting as its printed JSON |
| OutputMeaning.RunSaysArguments | crates/provider-x-protocol/src/output.rs:255-324 | a tool's arguments are the accepted parts for its index joined |
| OutputMeaning.NamingSays | crates/provider-x-protocol/src/output.rs:267-284 | a tool's id is the last accepted one and its name the accepted parts joined |
| SseFraming.NormalizeInPlace | crates/provider-x-protocol/src/anthropic_messages/bridge.rs:752-767 | the two-index in-place newline loop computes the normalisation of the old buffer |
| SseFraming.NormalizeCopying | crates/provider-x-protocol/src/responses/bridge.rs:596-614 | the copying newline loop computes the same normalisation |
| SseFraming.NormalizeConcat | crates/provider-x-protocol/src/chat_completions/bridge.rs:863-881 | normalising in parts is normalising the whole, if and only if no CR LF pair is cut |
| SseFraming.SplitIsConfluent | crates/provider-x-protocol/src/responses/bridge.rs:309-328 | draining at blank lines early or late cuts the same blocks |
| SseFraming.SplitKeepsBytes | crates/provider-x-protocol/src/responses/bridge.rs:309-328 | blocks and remainder joined are the bytes that were cut, and no blank line remains |
| SseFraming.ChunkingInvariance | crates/provider-x-protocol/src/responses/bridge.rs:309-336 | two chunkings of the same bytes that cut no pair and stay within the buffer bound give the same events and state, or the same failure |
| SseFraming.ShortStreamsDecodeAlike | crates/provider-x-protocol/src/responses/bridge.rs:309-336 | a stream no longer than the buffer bound decodes alike in all chunkings that cut no pair |
| SseFraming.FramesAgreeIffPairsAreKept | crates/provider-x-protocol/src/anthropic_messages/bridge.rs:428-443 | the pair hypothesis is necessary and sufficient for the framing |
| SseFraming.CutPairEndsABlock | crates/provider-x-protocol/src/anthropic_messages/bridge.rs:752-767 | a concrete cut pair that ends a block |
| SseFraming.DecodeIsWhole | crates/provider-x-protocol/src/chat_completions/bridge.rs:695-716 | any chunking within bounds decodes like its normalised bytes cut at once |
| SseFraming.DecodesIff | crates/provider-x-protocol/src/chat_completions/bridge.rs:695-716 | a chunking decodes exactly when every push fits, every framed block is accepted and the stream may end there; events and state are those of feeding the blocks and closing |
| SseFraming.SseStream.PushChunk | crates/provider-x-protocol/src/anthropic_messages/bridge.rs:428-443 | the buffered push: bound check, append, normalise (in place or copying, as the decoder does), drain and parse every complete block |
| SseFraming.SseStream.FinishStream | crates/provider-x-protocol/src/anthropic_messages/bridge.rs:446-456 | parses the remainder and closes |
| ChatStream.ChatStreamIsLawful | crates/provider-x-protocol/src/chat_completions/bridge.rs:695-795 | a decoded Chat stream, however chunked: the client saw the whole log, at most one terminal event, last, and it is there exactly when a stop reason was seen; what the log says of the chunks is ChatStreamSaysItsFields |
| ChatMeaning.ChatStreamSaysItsFields | crates/provider-x-protocol/src/chat_completions/bridge.rs:722-795 | for every chunking that decodes: the message text is the `content` fields joined, the reasoning the `reasoning_content` fields, a call's arguments and name the fields of its index, its id the last one; terminal exactly when a choice carried a finish reason, with that reason's status, the first chunk's id and the last usage, prompt as input and completion as output |
| ChatMeaning.ChatDecodesIff | crates/provider-x-protocol/src/chat_completions/bridge.rs:695-795 | a chunking decodes exactly when it fits the buffer, every block parses, every call has its index, and the emitter accepts all that is fed |
| ChatMeaning.BlockFailsAsRefused | crates/provider-x-protocol/src/chat_completions/bridge.rs:722-806 | a block fails with the state limit exactly when the first refused event was over it, and as invalid otherwise |
| AnthropicDecoding.AnthropicDecoder.ApplyEvent | crates/provider-x-protocol/src/anthropic_messages/bridge.rs:489-677 | one Messages event: blocks, signatures, partial JSON, tool numbering and emitter change exactly as the model's step, with its error cases; what a run leaves in a block is BlockKeepsWhatItWasSent |
| AnthropicDecoding.AnthropicDecoder.TakePending | crates/provider-x-protocol/src/anthropic_messages/bridge.rs:428-456 | what is handed to the client, after what it was already sent, is the emitter's whole log |
| AnthropicLaws.EveryRunIsNumbered | crates/provider-x-protocol/src/anthropic_messages/bridge.rs:489-677 | in every accepted run the content-to-tool numbering is a bijection onto 0, ..., n - 1 and the emitter laws hold |
| AnthropicLaws.RunNumbersAfter | crates/provider-x-protocol/src/anthropic_messages/bridge.rs:489-677 | the numbering is by first appearance: later tools get later numbers, given numbers stay |
| AnthropicLaws.AccumulatorsAgree | crates/provider-x-protocol/src/anthropic_messages/bridge.rs:728-743 | for sequential, well-typed blocks the raw blocks' text and thinking, joined, are the emitter's text and reasoning |
| AnthropicLaws.ToolArgumentsAreThePartials | crates/provider-x-protocol/src/anthropic_messages/bridge.rs:489-677 | a tool block started once has as arguments what its start brought and then its partial JSON joined; on its stop the raw input is the parse of the joined partials, so with an empty start, `{}` or none, both sides have the same |
| AnthropicMeaning.BlockKeepsWhatItWasSent | crates/provider-x-protocol/src/anthropic_messages/bridge.rs:509-611 | the raw block kept for replay, started once: its type, id and name are the start's; its text, its thinking and its signature are each what it started with followed by every delta sent to it; untouched, even absent, if none was; only a signature may start absent and be sent one |
| AnthropicMeaning.InputIsTheParsedPartials | crates/provider-x-protocol/src/anthropic_messages/bridge.rs:613-642 | after its stop a tool block's raw input is the parse of its joined partials, and stays it; with no partial it is what the block started with |
| AnthropicMeaning.CallKeepsIdAndName | crates/provider-x-protocol/src/anthropic_messages/bridge.rs:535-562 | the call the client is told of has the tool block's id and name |
| AnthropicMeaning.MessagesStreamSaysItsFields | crates/provider-x-protocol/src/anthropic_messages/bridge.rs:489-677 | for every chunking that decodes: text and thinking sent are those of the events; the terminal event is completed for "end_turn", "stop_sequence" and "tool_use", incomplete for "max_tokens", failed for any other reason; it has the message's id, the input tokens of its start and the last output tokens |
| AnthropicMeaning.MessagesDecodeIff | crates/provider-x-protocol/src/anthropic_messages/bridge.rs:428-456 | a chunking decodes exactly when it fits the buffer, its events are accepted and they end the stream |
| AnthropicMeaning.MessageIsAcceptedIff | crates/provider-x-protocol/src/anthropic_messages/bridge.rs:489-711 | exactly which event is accepted: a known place and shape, at most 256 blocks, within the bytes, and nothing the emitter refuses |
| AnthropicMeaning.MessageFailsAsRefused | crates/provider-x-protocol/src/anthropic_messages/bridge.rs:679-701 | a refused event is over a limit of the decoder, or of the emitter, or invalid, each with its error |
| AnthropicMeaning.RunIsCounted | crates/provider-x-protocol/src/anthropic_messages/bridge.rs:690-701 | every block and every part sent to one is counted once, and the count stays within the limit |
| AnthropicStream.MessagesStreamIsSound | crates/provider-x-protocol/src/anthropic_messages/bridge.rs:446-456 | a successful finish implies exactly one terminal event, in last place |
| AnthropicLifecycle.MessageItemsLiveAtTheirPosition | crates/provider-x-protocol/src/anthropic_messages/bridge.rs:489-688 | after an orderly Anthropic stream the events with output index p are the whole life of the p-th item of the terminal output array; the numbering of tools needs no hypothesis |
| AnthropicLifecycle.StepFeeds | crates/provider-x-protocol/src/anthropic_messages/bridge.rs:679-688 | the decoder's emitter is the emitter run on exactly the events each message event feeds, all accepted |
| Reasoning.ReasoningCompatibility.NormalizeEvent | crates/provider-x-protocol/src/responses/bridge.rs:425-507 | one event through the source table: forwarded, rewritten, dropped or refused as the model says |
| Reasoning.NormalizationIsIdempotent | crates/provider-x-protocol/src/responses/bridge.rs:616-694 | no raw reasoning event is forwarded, and a forwarded stream put through a fresh normaliser is unchanged and within its limits |
| Reasoning.SourcesNeverMix | crates/provider-x-protocol/src/responses/bridge.rs:425-500 | between an item's first reasoning event and its done event all forwarded reasoning has one source |
| Reasoning.ForwardedIffOwnSource | crates/provider-x-protocol/src/responses/bridge.rs:425-500 | an event is forwarded exactly when the recorded source, if any, is its own |
| Reasoning.RefusedIff | crates/provider-x-protocol/src/responses/bridge.rs:481-500 | refused is exactly a reasoning event of a new item beyond 256 items or the byte limit |
| Reasoning.ForwardedEvent | crates/provider-x-protocol/src/responses/bridge.rs:640-663 | a native event is forwarded as it came; a raw one as the summary event of its kind, its content index becoming the summary index, everything else kept |
| Reasoning.OtherEventsPass | crates/provider-x-protocol/src/responses/bridge.rs:452-479 | every other typed event is forwarded, changed in its items only, and exactly an item's done event makes the item forgotten |
| Reasoning.CarriedItemsAreSummarised | crates/provider-x-protocol/src/responses/bridge.rs:665-694 | an item carried by such an event is changed exactly if it is a reasoning item without a summary that has raw text: then that becomes the summary, and the content is emptied |
| Reasoning.SummaryIsInOrder | crates/provider-x-protocol/src/responses/bridge.rs:676-689 | that summary is the text of every raw part that has one, in order |
| Reasoning.RunKeepsBudget | crates/provider-x-protocol/src/responses/bridge.rs:481-507 | the tracked identifiers and their byte counter stay exact and within bounds |
| ResponsesStream.ResponsesStreamIsNormal | crates/provider-x-protocol/src/responses/bridge.rs:309-378 | for any bytes in any chunks the stream passed on has no raw reasoning event and a second router leaves it as it is |
| ResponsesStream.ResponsesStreamSaysItsEvents | crates/provider-x-protocol/src/responses/bridge.rs:309-378 | a chunking decodes exactly when it fits, is JSON and can be normalised; every event is passed on normalised, in order; terminal exactly after a completed, failed or incomplete response, completed exactly after a completed one, whose output, as it came, is committed |
| ToolNames.FlattenName | crates/provider-x-protocol/src/chat_completions/bridge.rs:578-589 | computes the flattened name, which only holds characters an upstream accepts |
| ToolNames.OneByteIsEscaped | crates/provider-x-protocol/src/chat_completions/bridge.rs:578-589 | letters, digits, underscore and dash are kept, any other byte is `_x`, its two hex digits and `_` |
| ToolNames.SafeNamesAreJoined | crates/provider-x-protocol/src/chat_completions/bridge.rs:578-589 | with nothing to escape the wire name is namespace, two underscores and name |
| ToolNames.FlatteningCollides | crates/provider-x-protocol/src/chat_completions/bridge.rs:578-589 | two identities with one flattened name |
| ToolNames.ConvertTools | crates/provider-x-protocol/src/anthropic_messages/input.rs:82-135 | the conversion loops of both dialects, with their errors |
| ToolNames.ConversionIsExact | crates/provider-x-protocol/src/chat_completions/bridge.rs:498-576 | conversion succeeds exactly when every declaration is well formed and no wire names collide, and then lists the tools in order with a one-to-one names map |
| ToolNames.SchemasAreKept | crates/provider-x-protocol/src/chat_completions/bridge.rs:541-576 | every converted tool has the schema it was declared with, in the order of the declarations |
| ToolNames.FaultIsReported | crates/provider-x-protocol/src/anthropic_messages/input.rs:82-135 | the first tool at fault decides the error, in either dialect: unsupported, malformed, or the duplicate wire name |
| ToolNames.DeclaredToolsComeBack | crates/provider-x-protocol/src/output.rs:492-500 | on output every declared tool is itself again, and nothing else comes out of the map |
| ToolNames.ChooseTool | crates/provider-x-protocol/src/chat_completions/bridge.rs:591-632 | a forced tool is found in the names map or refused only when no wire name has its identity |
| ToolNames.ChoicesResolve | crates/provider-x-protocol/src/anthropic_messages/input.rs:137-172 | in converted names a choice resolves exactly for a declared tool, to its one wire name |
| OverlapMerge.OverlapIsLongest | crates/provider-x-protocol/src/anthropic_messages/bridge.rs:137-145 | the overlap found is an overlap and no overlap is longer |
| OverlapMerge.MergeIsShortestCover | crates/provider-x-protocol/src/responses/bridge.rs:233-249 | the merge starts with the history, ends with the current items, and nothing shorter does |
| OverlapMerge.MergeIsIdempotent | crates/provider-x-protocol/src/chat_completions/bridge.rs:640-653 | merging the same items again adds nothing |
| OverlapMerge.ResendingIsIncremental | crates/provider-x-protocol/src/chat_completions/bridge.rs:640-653 | resending the history with new items merges to history and new items; sending the new ones only does so if and only if they do not overlap it |
| OverlapMerge.BoundedMergeIsExact | crates/provider-x-protocol/src/responses/bridge.rs:233-249 | history and new items beyond the longest overlap, refused exactly beyond 256 items or the byte limit |
| OverlapMerge.SameItemIsAnEquivalence | crates/provider-x-protocol/src/responses/bridge.rs:551-562 | item identity is reflexive, symmetric and transitive |
| OverlapMerge.SameItemIsExact | crates/provider-x-protocol/src/responses/bridge.rs:551-562 | two items with a type and an id, or a call id where there is no id, are the same by these; any others as a whole only |
| ChatSession.ResponsesChatBridgeSession.PrepareTurn | crates/provider-x-protocol/src/chat_completions/bridge.rs:145-188 | one turn: defaults, warmup, replay, merge, request and the tool names its decoder will use, with every refusal |
| ChatSession.ResponsesChatBridgeSession.CommitTurn | crates/provider-x-protocol/src/chat_completions/bridge.rs:190-199 | history becomes the request plus the reply, or stays when that is too large |
| ChatSession.ResponsesChatBridgeSession.Serve | crates/provider-x-egress/src/ws_http_runner.rs:69-118 | the session loop over the turns of a connection: route check of every later turn, request, answer, commit, and the restart when the service drains |
| ChatSession.SessionRefinesTranscript | crates/provider-x-protocol/src/chat_completions/bridge.rs:145-199 | after any fair conversation, with warmups and incomplete or failed turns in between, a client that resends everything and one that sends only what is new have caused the same requests and left the same session, and the history is the system message once and then the transcript |
| ChatSession.OnlyCompletedTurnsCommit | crates/provider-x-egress/src/ws_http_runner.rs:86-110 | failed and incomplete turns leave the history as it was |
| ChatSession.TurnIsPrepared | crates/provider-x-protocol/src/chat_completions/bridge.rs:145-188 | what a turn sends, case by case: given fields over kept ones, a warmup's own id, the history with what is new beyond the longest overlap if the turn continues it, the instructions once in front, and every refusal with its reason |
| ChatSession.TurnIsTaken | crates/provider-x-egress/src/ws_http_runner.rs:69-152 | what a turn does to the loop, case by case: the three route faults, the request sent, the history after each answer, and exactly when the loop ends and how |
| ChatSession.LaterRequestsKeepTheRoute | crates/provider-x-egress/src/ws_http_runner.rs:120-152 | a later request is sent only for an enabled model of the session's provider in the frozen routes |
| ChatSession.HistoryStaysBounded | crates/provider-x-protocol/src/chat_completions/bridge.rs:655-662 | the history never exceeds 256 items or the byte limit |
| ResponsesSession.WsHttpBridgeSession.PrepareTurn | crates/provider-x-protocol/src/responses/bridge.rs:126-178 | one turn of the Responses bridge, with warmup capture, replay and both refusals |
| ResponsesSession.WsHttpBridgeSession.CommitTurn | crates/provider-x-protocol/src/responses/bridge.rs:185-193 | history becomes input plus output, or stays when that is too large |
| ResponsesSession.WarmupStaysLocal | crates/provider-x-protocol/src/responses/bridge.rs:126-161 | a turn that refers to the warmup is sent without a previous response, under the warmup's fields where it gives none |
| ResponsesSession.PreviousIdIsSentIffForeign | crates/provider-x-protocol/src/responses/bridge.rs:148-161 | a previous response id is sent on if and only if it is not the warmup's and there is no history |
| ResponsesSession.TurnIsPrepared | crates/provider-x-protocol/src/responses/bridge.rs:126-250 | what a turn sends, case by case: fields, previous id, and the history with what is new beyond the longest overlap if the turn continues it, and both refusals |
| ResponsesSession.AnswerIsTaken | crates/provider-x-protocol/src/responses/bridge.rs:185-193 | only a completed answer within 256 items and the bytes moves the history, to input and output |
| ResponsesSession.SessionRefinesTranscript | crates/provider-x-protocol/src/responses/bridge.rs:126-250 | the Responses session refines the transcript too, warmups and incomplete turns included, for a resending client whose copies agree with the transcript by item identity only |
| ResponsesSession.ChangedCopyStillReplays | crates/provider-x-protocol/src/responses/bridge.rs:551-562 | a copy with the same type and id and another field changed is replayed as the history's own item |
| AtomicFile.NoUpdateIsLost | crates/provider-x-app/src/storage/atomic_file.rs:212-257 | however writers interleave, every accepted write had read the one accepted before it |
| AtomicFile.ManagedFile.WriteWithPolicy | crates/provider-x-app/src/storage/atomic_file.rs:212-333 | replaces exactly when both checks see the expected content, otherwise the file is as others left it; the answer is what is read back after the rename, the written bytes unless another program was faster; the backup holds what was replaced |
| AtomicFile.ManagedFile.RemoveExternal | crates/provider-x-app/src/storage/atomic_file.rs:175-190 | removes exactly the expected content |
| CodexConfig.RestoredIsOriginal | crates/provider-x-app/src/codex_config/mod.rs:382-388 | restoring items gives the original's managed items exactly; every other key keeps its item, its place among the others and all that is written around it |
| CodexConfig.ExposedIffInconsistent | crates/provider-x-app/src/codex_config/mod.rs:305-323 | in every reachable state the files validate if and only if the job is not in an exposed place |
| CodexConfigLaws.StoppingIsRecoverableIffNotExposed | crates/provider-x-app/src/codex_config/mod.rs:136-249 | wherever the editor stops, both operations are accepted again, except exactly in the exposed places, where both refuse |
| CodexConfigLaws.UrlChangeIsExposed | crates/provider-x-app/src/codex_config/mod.rs:154-192 | a second apply over any live receipt is exposed exactly when it moves the URL of a configuration that is not original |
| CodexConfigLaws.UrlChangeStrands | crates/provider-x-app/src/codex_config/mod.rs:136-205 | a run that applies one URL, then another, and stops after the second receipt: both operations refuse from then on |
| CodexConfigLaws.RestoreStrands | crates/provider-x-app/src/codex_config/mod.rs:212-249 | a run that applies, restores, and stops after the config write: both operations refuse from then on |
| CodexConfigLaws.EditStrands | crates/provider-x-app/src/codex_config/mod.rs:136-205 | runs in which another program's edit of unmanaged keys, while the URL moves, has the same effect with nothing stopping |
| CodexConfigLaws.EditBeforeWriteStrandsIffUrlMoves | crates/provider-x-app/src/codex_config/mod.rs:188-193 | an edit of unmanaged keys just before the config write leaves a refused configuration exactly when the URL was being moved and the file changed at all, an accepted one otherwise |
| CodexConfigLaws.EditBeforeReceiptStrandsIffUrlMoves | crates/provider-x-app/src/codex_config/mod.rs:185-193 | the same for an edit before the receipt is saved |
| CodexConfigLaws.RestoreIsExposed | crates/provider-x-app/src/codex_config/mod.rs:221-248 | a restore is exposed exactly when its receipt is active and the original does not look applied |
| CodexConfigLaws.ApplyRecoversFromCrashes | crates/provider-x-app/src/codex_config/mod.rs:136-205 | with one URL, after any crashes, retries and unmanaged edits, the managed keys are all original or all applied, both operations are accepted, and a recorded original stays |
| CodexConfigLaws.OriginalIsStable | crates/provider-x-app/src/codex_config/mod.rs:154-170 | over any calm run without a restore the recorded original does not change |
| CodexConfigLaws.OriginalCacheIsStable | crates/provider-x-app/src/codex_config/mod.rs:154-170 | nor does the recorded model cache of before the first apply |
| CodexConfigOutcome.ApplyIsExact | crates/provider-x-app/src/codex_config/mod.rs:136-205 | from any files: every refusal, with nothing written; else the URL, no catalog and provider "openai" in the configuration, all else kept, no model cache, and an active receipt with the original configuration and cache, those of a live receipt or the files found |
| CodexConfigOutcome.RestoreIsExact | crates/provider-x-app/src/codex_config/mod.rs:212-249 | from any files whose receipt records a readable original: every refusal, with nothing written; else the original values of the three keys, all else as it is, no model cache, and the receipt restored |
| CodexConfigLaws.RoundTrip | crates/provider-x-app/src/codex_config/mod.rs:136-249 | apply, any calm run, restore: the managed items are those of the first apply, every other key is as last edited, order and comments included, and the file is gone only if it did not exist and nothing else remains |
| CodexConfigLaws.ManagedEditIsDrift | crates/provider-x-app/src/codex_config/mod.rs:305-323 | under a live receipt an edit, removal included, is refused by both operations, files untouched, exactly when it leaves the managed values neither applied nor, under a prepared receipt, original |
| CodexConfigEditor.AmidIsARun | crates/provider-x-app/src/codex_config/mod.rs:136-205 | an operation amid other programs' edits is one of the runs the laws speak of |
| CodexConfigIdentity.QuietRoundTrip | crates/provider-x-app/src/codex_config/mod.rs:136-249 | the two operations left alone, one after the other, end with the identical file if and only if nothing is written around a managed key and the catalog key is the last of the root's values or absent |
| CodexConfigIdentity.RestoredIsMoved | crates/provider-x-app/src/codex_config/mod.rs:326-388 | the document after both: URL and provider in place without what was around them, the catalog key last, all else the same |
| CodexConfigIdentity.CatalogKeyMoves | crates/provider-x-app/src/codex_config/mod.rs:382-388 | a file that does not come back as it was |
| CodexConfigEditor.Editor.Apply | crates/provider-x-app/src/codex_config/mod.rs:136-205 | the apply as it runs, with whatever others do before each of its four writes |
| CodexConfigEditor.Editor.Restore | crates/provider-x-app/src/codex_config/mod.rs:212-249 | the restore as it runs, with whatever others do before each of its three writes |
| ProviderUpgradeLaws.UpgradeRecoversFromCrashes | crates/provider-x-app/src/storage/provider_upgrade.rs:59-195 | after any crashes and retries, the next prepare ends with default providers, empty cache, a complete receipt and a backup of the exact originals |
| ProviderUpgradeLaws.NothingIsLost | crates/provider-x-app/src/storage/provider_upgrade.rs:116-195 | with edits at any moment, every content the upgrade ever replaced is in a backup at the end |
| ProviderUpgradeLaws.StepKeepsContents | crates/provider-x-app/src/storage/provider_upgrade.rs:136-181 | the only contents ever replaced are the originals an incomplete receipt records |
| ProviderUpgradeLaws.ReceiptIsStable | crates/provider-x-app/src/storage/provider_upgrade.rs:83-114 | until acknowledged, a receipt keeps its originals and its backup holds them |
| ProviderUpgradeLaws.PrepareOutcome | crates/provider-x-app/src/storage/provider_upgrade.rs:59-81 | what an undisturbed prepare does: upgraded if and only if both files are original or replaced, refused untouched otherwise, nothing after completion |
| ProviderUpgradeLaws.OnlyIntactBackupsAreTrusted | crates/provider-x-app/src/storage/provider_upgrade.rs:136-162 | in any state at all, a receipt that cannot be read, or whose backup is not there with the recorded contents under a name the upgrade gives, makes the prepare fail and touch nothing |
| ProviderUpgradeLaws.AcknowledgementIsExact | crates/provider-x-app/src/storage/provider_upgrade.rs:42-48 | acknowledging removes exactly the receipt the notice was given for, and no other file changes |
| ProviderUpgradeLaws.UpgradeEnds | crates/provider-x-app/src/storage/provider_upgrade.rs:59-81 | after upgrade and acknowledgement the backup stays, a second acknowledgement finds nothing, and the next prepare has nothing to do |
| ProviderUpgrader.AmidIsARun | crates/provider-x-app/src/storage/provider_upgrade.rs:59-81 | an upgrade amid other programs' edits is one of the runs the laws speak of |
| ProviderUpgrader.Upgrader.PrepareUpgrade | crates/provider-x-app/src/storage/provider_upgrade.rs:59-81 | the upgrade as it runs, with whatever others do before each access |
| ProviderUpgrader.Upgrader.Begin | crates/provider-x-app/src/storage/provider_upgrade.rs:83-114 | both backups, then the receipt |
| ProviderUpgrader.Upgrader.FinishUpgrade | crates/provider-x-app/src/storage/provider_upgrade.rs:136-195 | backup check, then cache, providers and receipt |
| ProviderUpgrader.Upgrader.AcknowledgeNotice | crates/provider-x-app/src/storage/provider_upgrade.rs:42-48 | removes the receipt the notice was given for, and no other |
| ControlPlane.UpsertReplacesOne | crates/provider-x-app/src/control_plane.rs:347-360 | an upsert keeps identifiers unique and the list sorted and changes the one provider only |
| ControlPlane.OverlayListsTheRoutes | crates/provider-x-catalog/src/compiler.rs:31-56 | for a valid document the overlay never fails and lists exactly the routable names |
| ControlPlane.RuntimeIgnoresCache | crates/provider-x-egress/src/state.rs:189-206 | routes and overlay do not depend on what a valid cache holds |
| ControlPlane.MutationsKeepCoherence | crates/provider-x-app/src/control_plane.rs:231-336 | after every outcome of a mutation memory matches the files and the published runtime is the one memory builds |
| ControlPlane.RunsKeepCoherence | crates/provider-x-app/src/runtime.rs:373-396 | and so after any run of mutations, each with its own failures |
| ControlPlaneMutations.MutationsDoWhatTheySay | crates/provider-x-app/src/control_plane.rs:231-336 | in terms of old and new lists: remove takes out that provider and keeps the order of the rest, enable sets that one flag, save and refresh put that provider in its place or in order and change no other, a refresh with the models of its entry, and the cache changes at its id only; refused exactly for a foreign fingerprint, an unknown provider or an invalid outcome; done exactly when its files can be written, and then they hold what memory holds |
| ControlPlaneMutations.PublishedServesTheProviders | crates/provider-x-egress/src/state.rs:189-266 | the published runtime has a route and a catalog line for exactly the enabled models, under their provider's settings, and every provider under its id |
| ControlPlaneMutations.RefreshIsExact | crates/provider-x-app/src/runtime.rs:130-159 | for a provider that is gone, was changed, or has the credentials of the refresh: state and answer |
| ControlPlane.OnlyReadFilesAreReplaced | crates/provider-x-app/src/control_plane.rs:301-328 | in any state, a file written by another program since it was read is not overwritten |
| ControlPlane.NewerCredentialsWin | crates/provider-x-app/src/runtime.rs:130-159 | a credential refresh keeps coherence and changes the providers only if they hold the credentials it came from |
| ControlPlane.RefreshAnswersWhatIsSaved | crates/provider-x-app/src/runtime.rs:134-158 | the caller gets the saved provider when its credentials changed meanwhile, and otherwise the refreshed one, which then is saved |
| AppRuntime.UpsertProvider | crates/provider-x-app/src/control_plane.rs:347-360 | the in-place search and replacement, or the addition and sort |
| AppRuntime.BuildRuntime | crates/provider-x-egress/src/state.rs:189-206 | builds the runtime of exactly the valid documents |
| AppRuntime.BuildProviderMap | crates/provider-x-egress/src/state.rs:246-266 | with unique identifiers every provider is in the map under its own |
| AppRuntime.Application.CommitMutation | crates/provider-x-app/src/control_plane.rs:301-336 | cache first, then providers, with memory and hashes after each failure |
| AppRuntime.Application.ApplyProviderMutation | crates/provider-x-app/src/runtime.rs:373-396 | prepare, build, commit and publish as the model does, coherence kept; what each mutation does is MutationsDoWhatTheySay |
| AppRuntime.Application.PersistRefreshedProvider | crates/provider-x-app/src/runtime.rs:130-159 | the persist step of a credential refresh: state and answered provider, coherence kept |
| Routing.CatalogNameParses | crates/provider-x-core/src/model.rs:131-149 | a catalog name parses back to its parts, slashes in the model id included |
| Routing.ParsedNamesAreCatalogNames | crates/provider-x-core/src/model.rs:141-149 | only catalog names parse, and to themselves |
| Routing.CatalogNamesAreInjective | crates/provider-x-core/src/model.rs:132-134 | two pairs have one name only if they are the same pair |
| Routing.ParsingFailsAs | crates/provider-x-core/src/model.rs:141-149 | which error any other name gives: the provider's half is judged first, a name without a slash as a model |
| Routing.IdsAtTheirEdges | crates/provider-x-core/src/model.rs:19-30 | identifiers accepted and refused at the edges of their rules |
| Routing.RoutingIsExact | crates/provider-x-core/src/snapshot.rs:76-91 | a name routes to a provider's model exactly when both are enabled and it is their name; other names are unavailable with a slash, official without |
| Routing.EveryPairIsPublished | crates/provider-x-core/src/snapshot.rs:70-73 | in a valid document no route overwrites another: the count is the number of enabled pairs |
| Routing.Validate | crates/provider-x-core/src/config.rs:353-390 | accepts exactly the valid documents |
| Routing.ValidateModels | crates/provider-x-core/src/config.rs:265-283 | accepts exactly unique models under their own names |
| Routing.Build | crates/provider-x-core/src/snapshot.rs:25-68 | builds the routes of every valid document with a valid cache, and of no other |
| Relay.RelayMessages | crates/provider-x-egress/src/ws_proxy.rs:695-821 | the loop computes the model's run over any turns; what that run carries is EachPeerGetsWhatTheOtherSent |
| Relay.RelayIsSafe | crates/provider-x-egress/src/ws_proxy.rs:695-925 | between two forwarded requests a terminal event was forwarded, every forwarded text request is on the frozen route in the frozen snapshot and sent as it prescribes, and a request is forwarded only in a turn that saw the service running |
| RelayTraffic.EachPeerGetsWhatTheOtherSent | crates/provider-x-egress/src/ws_proxy.rs:751-800 | over any turns: the client is sent, in order, exactly what the upstream sent in the turns taken and delivered; the upstream the first message and then exactly what the client sent in them that may be forwarded |
| RelayTraffic.SessionGoesOnIff | crates/provider-x-egress/src/ws_proxy.rs:717-818 | exactly when a session is still open after a turn |
| RelayTraffic.EndIsExact | crates/provider-x-egress/src/ws_proxy.rs:717-818 | what a turn that ends a session ends it with: closed, restarted, or which error |
| RelayTraffic.RequestsAreObserved | crates/provider-x-egress/src/ws_proxy.rs:875-905 | every text request that names a model and comes alone is reported once, whether its route holds or not, and nothing else is |
| RelayTraffic.FirstMessageIsExact | crates/provider-x-egress/src/ws_proxy.rs:600-692 | exactly which first message opens a session, on which route and with what sent, and which error any other gets |
| Relay.PayloadRequestSkipsTheRoute | crates/provider-x-egress/src/ws_proxy.rs:823-886 | a frame that is no text but reads as a request is forwarded unchanged and unobserved |
| Relay.StartIsLawful | crates/provider-x-egress/src/ws_proxy.rs:600-692 | the first message fixes route and snapshot, and is itself on that route |
| Relay.DrainingNeverCutsAResponse | crates/provider-x-egress/src/ws_proxy.rs:1003-1018 | draining alone ends a session only when every forwarded request has had its terminal event |
| Relay.RestartCutsIffForcedOrLost | crates/provider-x-egress/src/ws_proxy.rs:1003-1018 | a turn ends a session as a restart with its request unanswered exactly under force or without a shutdown sender |
| Relay.LostSenderCutsAResponse | crates/provider-x-egress/src/ws_proxy.rs:1014-1016 | a session with a request in flight that loses the shutdown sender is ended unanswered |
| Relay.SessionsRunOnTheirOwn | crates/provider-x-egress/src/state.rs:209-211 | among any sessions and published configurations an open session is the run of its own turns on its own snapshot |
| Relay.SessionKeepsItsSnapshot | crates/provider-x-egress/src/ws_proxy.rs:600-692 | a session lives, safely, on the configuration that was published when its first message came |
| RelayTraffic.OpensIff | crates/provider-x-egress/src/ws_proxy.rs:600-692 | a first message opens one session exactly when it prepares a socket on the configuration published last, and changes nothing otherwise |
| Relay.RequestsNameEnabledModels | crates/provider-x-egress/src/ws_proxy.rs:907-924 | on a provider's route every forwarded text request named an enabled model of that provider |

## Left out

- JSON, TOML, YAML and UTF-8 parsing and printing, SHA-256, random identifiers and clocks: parameters, or contents standing for their digests.
- TOML beyond the root's values in order, what is written around each key, and the tables at places of their own. When an apply turns two managed tables into values, their order in between is the order of the assignments.
- CodexConfigIdentity.QuietRoundTrip: asks for documents without a key given twice, which is all a TOML reader returns.
- POSIX permissions, symbolic and hard links, fsync and the temporary file: a write is one check and one replacement. The race with programs that do not take part, between the recheck and the rename (crates/provider-x-app/src/storage/atomic_file.rs:301-302), is not excluded by anything here. Nor is a write by another program between the rename and the reading back, whose content the writer then takes for its own (crates/provider-x-app/src/storage/atomic_file.rs:256): `WriteWithPolicy` shows it, the file protocols assume it away.
- Sockets, TLS, proxies, header copying, compression and timers: a timeout or a failed send is an outcome a turn may have.
- `input_to_messages` and the rest of the request bodies: a turn carries its converted messages, and a body is its size.
- The Anthropic adapter's own `prepare_action` and `commit_outcome`: its search is `OverlapMerge`, its session is not modelled.
- The HTTP bridges' waiting for the next message (pings, closing, draining while idle): `Serve` models the turns that arrive.
- Catalog rendering, presets, discovery, registry enrichment, OAuth login, the Claude Code process, the desktop shell and its views: merges and I/O that would add easy members.
- The checks of a provider's credentials, endpoints and transports: one `fault` field stands for the first that fails.
- The loop of `RuntimeSnapshot::build` repeats the duplicate and name checks of `validate`; the model has them once, where they can fail.
- OutputLifecycle.ItemsLiveAtTheirPosition: holds for orderly streams with densely numbered tools only; without the hypotheses positions can be wrong, exactly as MessageIsPlacedIffReasoningComesFirst and CallIsPlacedIffNothingStartsAfter say.
- OutputPlacement.CallIsPlacedIffNothingStartsAfter: indices are unbounded; a Chat upstream may send any 64-bit tool index (crates/provider-x-protocol/src/chat_completions/bridge.rs:779-782), and within two of the top the sum at crates/provider-x-protocol/src/output.rs:506-508 overflows, which the model does not show. Densely numbered tools stay below 258.
- AnthropicLaws.AccumulatorsAgree: needs blocks that start once, in increasing order, with deltas for the latest block, and blocks that carry text and thinking of their own kind only (`WellTyped`), because the raw blocks are kept by index and the emitter's text by arrival.
- CodexConfigLaws.ApplyRecoversFromCrashes: one URL and no restore, the exact price of leaving them free being StoppingIsRecoverableIffNotExposed.
- ControlPlane.MutationsKeepCoherence: assumes no other writer and that a failed save leaves its file unchanged; OnlyReadFilesAreReplaced needs neither.
- Machine widths: byte counters are unbounded, as the buffer bound keeps them far below the source's word size; token totals and the request sequence saturate at 64 bits as in the source.
