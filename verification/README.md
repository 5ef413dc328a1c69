# Verification of the proxy's translation and scheduling core

This project models the part of `plugins/fcc-proxy` that translates model streams and conversations between
the Anthropic and the OpenAI formats, the message trees and their queues, and the limiters, schema cleaner and
transcript renderer beside them, and proves what they promise.

`dafny verify dfyconfig.toml` checks everything.

How the models are built: where the program updates an object, there is a class with the same fields whose
methods are proved against functions on the object's state (`State()`), with the same loops. What the program
promises is then proved of those functions over whole runs, of any length. One event, one chunk piece or one
region under a lock is one step.

| file | models |
|---|---|
| `Prelude.dfy`, `Strings.dfy` | shared vocabulary, string operations |
| `StreamContract.dfy` | events, the executable stream contract and its meaning |
| `NativeSseBlockPolicy.dfy`, `RemapSafety.dfy`, `RemapPayload.dfy`, `RemapTheorems.dfy` | the native block remapper |
| `SseFraming.dfy`, `EmittedSseTracker.dfy`, `NativeStream.dfy` | framing, the tracker of emitted events, repair of broken streams, the native response |
| `ThinkTags.dfy` | the chunked parser of think tags |
| `SseBuilder.dfy`, `OpenAICompat.dfy`, `OpenAIContract.dfy`, `OpenAIText.dfy`, `OpenAITextTools.dfy`, `OpenAIToolArgs.dfy`, `OpenAIToolCalls.dfy` | the translator of OpenAI chat streams |
| `Conversion.dfy`, `ConversionTheorems.dfy` | conversion of conversations, with deferral of content after tool uses |
| `RateLimit.dfy`, `MessagingLimiter.dfy` | the sliding window and the compacting queue |
| `NimSchema.dfy`, `Transcript.dfy` | the schema cleaner and the bounded renderer |
| `SnapshotQueue.dfy`, `MessageTree.dfy`, `TreeQueue.dfy` | message trees, their queues and the scheduler |

Server-sent events are framed as in sections 9.2.5 and 9.2.6 of the WHATWG HTML Living Standard, except that the
program strips all white space after a field's colon and not one space. Boolean schemas are those of section
4.3.2 of JSON Schema Core, draft 2020-12.

## Where the code falls short of the wish

Each of these is a statement with its exact condition and, where it helps, a concrete case.

- The remapper does not always equal "drop and renumber": a kept block starting while another kept block is open
  makes the difference (`RemapTheorems.RemapIsDropAndRenumber`, `RemapTheorems.NestedBlocksDiffer`), and it can leave
  a stream without any block (`RemapTheorems.RemapMeetsContract`, `RemapTheorems.OnlyThinkingIsLost`).
- The repair of a broken stream needs the message start to have gone out (`EmittedSseTracker.RepairMeetsContract`,
  `NativeStream.FailedResponseMeetsContract`, `NativeStream.BlockBeforeMessageIsLost`).
- A native tool block is announced under what was known of its name when it first was not blank, though names may
  come in pieces (`OpenAIToolCalls.ShownNameIsWhole`, `OpenAIToolCalls.NameInPiecesIsCut`).
- Arguments that arrive while a longer name is exactly Task are held back and can get lost
  (`OpenAIToolCalls.ArgumentsArriveIffIntact`, `OpenAIToolCalls.GrownTaskLosesArguments`).
- Deferred assistant content is repeated after every tool result that follows the last awaited one in a user turn
  (`ConversionTheorems.DeferredExactlyOnce`, `ConversionTheorems.LateResultRepeats`).
- The index of the snapshot queue forgets an item that was put twice (`SnapshotQueue.SecondCopyCannotBeRemoved`).
- Cancelling a task before it begins, or requesting a node that is not in the tree, leaves the tree busy for
  good (`TreeQueue.StepKeepsInv`, `TreeQueue.CancelBeforeBeginSticks`).
- The docstring of the error tail (emitted_sse_tracker.py:85) says that it closes dangling blocks; the code leaves
  that to `iter_close_unclosed_blocks`, and the model follows the code.

## Model

| member | source | states |
|---|---|---|
| StreamContract.AssertAnthropicStreamContract | plugins/fcc-proxy/core/anthropic/stream_contracts.py:97-162 | The checker's loop passes exactly the streams of the predicate Contract: a message start somewhere, message stop last, no error event unless allowed, and the block rules over all events. |
| StreamContract.ScanIsLawful | plugins/fcc-proxy/core/anthropic/stream_contracts.py:111-159 | The checker's two variables accept a stream exactly when every event is lawful for the history before it, and then they name exactly the started and the open blocks. |
| StreamContract.ContractMeaning | plugins/fcc-proxy/core/anthropic/stream_contracts.py:97-162 | The contract holds if and only if: starts use indices never used before, deltas and stops go to blocks that are open, deltas suit the block, every block is closed, at least one exists, and the message events frame the stream. |
| StreamContract.ContractNeverReuses | plugins/fcc-proxy/core/anthropic/stream_contracts.py:117-159 | In a stream meeting the contract no index is started twice and none is stopped twice. |
| NativeSseBlockPolicy.CloseOthersMeaning | plugins/fcc-proxy/core/anthropic/native_sse_block_policy.py:129-150 | Interrupting closes exactly the open blocks other than the current one, owes exactly their stops, and changes nothing else. |
| NativeSseBlockPolicy.NativeSseBlockPolicyState.SyntheticCloseOtherOpenBlocks | plugins/fcc-proxy/core/anthropic/native_sse_block_policy.py:129-150 | The in-place loop over the dictionary has the effect and the stops of the specification, in dictionary order. |
| NativeSseBlockPolicy.NativeSseBlockPolicyState.AllocateNewSegment | plugins/fcc-proxy/core/anthropic/native_sse_block_policy.py:153-169 | The next downstream index is handed out once and the upstream block now lives there. |
| NativeSseBlockPolicy.NativeSseBlockPolicyState.TransformNativeSseBlockEvent | plugins/fcc-proxy/core/anthropic/native_sse_block_policy.py:172-313 | One upstream event moves the object to the specified state and sends the specified events, for every branch, deltas without a string type included. |
| RemapSafety.LawfulIsLenient | plugins/fcc-proxy/core/anthropic/native_sse_block_policy.py:235-309 | An upstream that obeys the block rules is one of the upstreams the remapper puts up with. |
| RemapSafety.RemapLinked | plugins/fcc-proxy/core/anthropic/native_sse_block_policy.py:129-311 | For every upstream run it puts up with, overlapping in any way, with thinking on or off, every prefix of the output obeys the block rules, and open segments, closed segments and owed stops stay linked to the upstream blocks. |
| RemapSafety.RemapCloses | plugins/fcc-proxy/core/anthropic/native_sse_block_policy.py:291-311 | Once every upstream block has been stopped, no downstream block is open and no stop is owed. |
| RemapPayload.RemapConserves | plugins/fcc-proxy/core/anthropic/native_sse_block_policy.py:213-289 | Mapped back through the owners of the downstream indices, the deltas sent are exactly the deltas of the kept upstream blocks, in their overall order, however often a block was reopened; message events pass unchanged. |
| RemapTheorems.RemapMeetsContract | plugins/fcc-proxy/core/anthropic/native_sse_block_policy.py:172-313 | An upstream meeting the contract comes out meeting it if and only if the thinking policy keeps at least one block. |
| RemapTheorems.RemapKeepsIdentity | plugins/fcc-proxy/core/anthropic/native_sse_block_policy.py:188-287 | Every block start sent is the upstream start of the block owning the index, or a stand-in of the same kind for a reopened one. |
| RemapTheorems.RemapIsDropAndRenumber | plugins/fcc-proxy/core/anthropic/native_sse_block_policy.py:121-126 | The remapper equals dropping the hidden blocks and numbering the rest 0, 1, 2, ... if and only if no kept block starts while another kept block is open. |
| RemapTheorems.NestedBlocksDiffer | plugins/fcc-proxy/core/anthropic/native_sse_block_policy.py:129-150 | Two nested text blocks obey the contract, and the remapper does not give what dropping and renumbering gives. |
| RemapTheorems.OnlyThinkingIsLost | plugins/fcc-proxy/core/anthropic/native_sse_block_policy.py:188-198 | A message whose only block is thinking obeys the contract, and with thinking off nothing that obeys it comes out. |
| RemapTheorems.RemapIsIdentity | plugins/fcc-proxy/core/anthropic/native_sse_block_policy.py:188-311 | A stream already numbered 0, 1, 2, ... whose blocks neither overlap nor are hidden passes unchanged. |
| RemapTheorems.RemapNumbersStarts | plugins/fcc-proxy/core/anthropic/native_sse_block_policy.py:153-169 | Whatever the upstream sends, blocks start downstream with the indices 0, 1, 2, ... |
| SseFraming.ParseSseLines | plugins/fcc-proxy/core/anthropic/stream_contracts.py:51-94 | The line loop recovers exactly the events of the specification: event and data lines, joined data, an event at each blank line and at the end. |
| SseFraming.ParsePrinted | plugins/fcc-proxy/core/anthropic/sse.py:45-47 | A printed event parses back to itself when its name and data are trimmed single lines. |
| SseFraming.PrintedRoundTrip | plugins/fcc-proxy/core/anthropic/emitted_sse_tracker.py:24-36 | Printing any list of such events and cutting the text at blank lines gives the list back, in order, with nothing left over. |
| SseFraming.FramesConcat | plugins/fcc-proxy/core/anthropic/emitted_sse_tracker.py:24-36 | Cutting a text in two pieces at any place and carrying the residue over gives the frames of the whole text. |
| EmittedSseTracker.EmittedNativeSseTracker.Observe | plugins/fcc-proxy/core/anthropic/emitted_sse_tracker.py:38-61 | Start pushes and raises the maximum, stop pops the top or removes the first occurrence; a start or stop without an index fails. |
| EmittedSseTracker.EmittedNativeSseTracker.Feed | plugins/fcc-proxy/core/anthropic/emitted_sse_tracker.py:24-36 | Feeding a chunk observes the events of exactly the frames it completes and keeps the residue. |
| EmittedSseTracker.EmittedNativeSseTracker.CloseUnclosedBlocks | plugins/fcc-proxy/core/anthropic/emitted_sse_tracker.py:68-75 | The popping loop sends one stop for each open block, innermost first, and empties the stack. |
| EmittedSseTracker.EmittedNativeSseTracker.MidstreamErrorTail | plugins/fcc-proxy/core/anthropic/emitted_sse_tracker.py:77-97 | The tail is an error text block on an index above all used ones, a message delta and a message stop. |
| EmittedSseTracker.FeedChunks | plugins/fcc-proxy/core/anthropic/emitted_sse_tracker.py:24-36 | From any state with an empty buffer, feeding any chunking of a text observes exactly the events of the whole text, up to the first that cannot be observed; when the text is a list of printed events, it observes exactly those, in order, and the buffer ends empty. |
| EmittedSseTracker.TracksOpenBlocks | plugins/fcc-proxy/core/anthropic/emitted_sse_tracker.py:38-61 | After any stream obeying the block rules the stack holds exactly the open blocks, once each. |
| EmittedSseTracker.ClosesExactlyOpen | plugins/fcc-proxy/core/anthropic/emitted_sse_tracker.py:68-75 | The closing stops are the stack, each once, in reverse order of opening. |
| EmittedSseTracker.RepairMeetsContract | plugins/fcc-proxy/core/anthropic/emitted_sse_tracker.py:68-97 | A stream obeying the block rules that breaks off anywhere is completed by the repair to one meeting the full contract if and only if its message start had gone out; the closed blocks are the open ones and the error block's index was never used. |
| NativeStream.TextCarriesEvents | plugins/fcc-proxy/core/anthropic/sse.py:45-47 | A reader of the printed text gets back exactly the events sent, with nothing left over. |
| NativeStream.SendEvent | plugins/fcc-proxy/providers/anthropic_messages.py:376-383 | The text of one event, fed to the tracker and sent in any pieces, leaves the tracker with the event observed and an empty buffer; when it cannot be observed, the pieces before the failing one have gone out. |
| NativeStream.StreamResponse | plugins/fcc-proxy/providers/anthropic_messages.py:376-417 | For every upstream: the loop that remaps, prints, feeds the tracker and sends, with its switch to the error tail, sends the text of the specified response if and only if every event sent can be observed; otherwise it breaks off inside the first that cannot and is repaired. |
| NativeStream.TrackableMeans | plugins/fcc-proxy/providers/anthropic_messages.py:376-383 | Every event sent can be observed exactly when the upstream has no start or stop without an index. |
| NativeStream.LenientIsTrackable | plugins/fcc-proxy/core/anthropic/native_sse_block_policy.py:172-313 | Every upstream that the remapper puts up with has its events observed to the end, so its response is never broken off by the tracker. |
| NativeStream.SilentMeans | plugins/fcc-proxy/core/anthropic/native_sse_block_policy.py:172-313 | Nothing is sent exactly when the upstream had no message event, no kept block and no delta of a block that is kept. |
| NativeStream.FreshErrorMeetsContract | plugins/fcc-proxy/core/anthropic/provider_stream_error.py:12-34 | The message sent when nothing had gone out before the failure meets the contract on its own, with no error event. |
| NativeStream.FailedResponseMeetsContract | plugins/fcc-proxy/providers/anthropic_messages.py:385-417 | Wherever the transport fails and however the blocks overlapped until then, the response meets the contract if and only if the upstream had begun its message or had given nothing to pass on. |
| NativeStream.CompleteResponseMeetsContract | plugins/fcc-proxy/providers/anthropic_messages.py:376-383 | A complete upstream meeting the contract gives a response meeting it if and only if some block is kept. |
| NativeStream.BlockBeforeMessageIsLost | plugins/fcc-proxy/providers/anthropic_messages.py:385-417 | A transport that fails after one block start and no message start leaves a response that misses the contract. |
| ThinkTags.ThinkTagParser.Feed | plugins/fcc-proxy/core/anthropic/thinking.py:42-56 | Terminates, and whatever text follows later: the reference reading of what was held plus the chunk is what was emitted followed by the reading of what is held now. |
| ThinkTags.ThinkTagParser.ParseOutsideThink | plugins/fcc-proxy/core/anthropic/thinking.py:58-99 | One step outside a tag emits text that no continuation can turn into a tag, and consumes an opening or orphan closing tag exactly. |
| ThinkTags.ThinkTagParser.ParseInsideThink | plugins/fcc-proxy/core/anthropic/thinking.py:101-129 | One step inside a tag, likewise for the closing tag. |
| ThinkTags.ThinkTagParser.Flush | plugins/fcc-proxy/core/anthropic/thinking.py:131-140 | What was held back is emitted as plain content, which is its reference reading. |
| ThinkTags.ParseChunks | plugins/fcc-proxy/core/anthropic/thinking.py:23-140 | For every text and every way of cutting it into chunks, feeding and flushing gives the labelled characters of one left-to-right pass over the whole text. |
| ThinkTags.ReferenceAccountsForAll | plugins/fcc-proxy/core/anthropic/thinking.py:42-140 | Output characters and recognised tags together spell the input. |
| ThinkTags.TagFound | plugins/fcc-proxy/core/anthropic/thinking.py:64-92 | The first tag in the buffer stays the first tag whatever follows, and what precedes it is plain. |
| ThinkTags.NoTagFound | plugins/fcc-proxy/core/anthropic/thinking.py:64-99 | Without a tag in the buffer, everything before a possible beginning of one may go out whatever follows. |
| ThinkTags.HeldIsPlain | plugins/fcc-proxy/core/anthropic/thinking.py:131-140 | Held-back text contains no whole tag. |
| SseBuilder.SSEBuilder.RegisterToolName | plugins/fcc-proxy/core/anthropic/sse.py:93-109 | Name fragments extend, repeat or are ignored, and a new tool goes last in dictionary order. |
| SseBuilder.SSEBuilder.EmitTaskArgs | plugins/fcc-proxy/core/anthropic/sse.py:111-126 | Task arguments are buffered until they parse as an object, then emitted once; a parsed non-object raises. |
| SseBuilder.SSEBuilder.FlushTaskArgBuffers | plugins/fcc-proxy/core/anthropic/sse.py:132-158 | The loop over the tools emits what is left of unfinished Task arguments, the empty object when it does not parse. |
| SseBuilder.SSEBuilder.CloseAllBlocks | plugins/fcc-proxy/core/anthropic/sse.py:350-360 | Closes the content blocks and then every started tool block, in dictionary order. |
| OpenAICompat.DoHeuristicTools | plugins/fcc-proxy/providers/openai_compat.py:35-56 | Each tool found in text closes the content blocks and gets a block of its own. |
| OpenAICompat.DoProcessToolCall | plugins/fcc-proxy/providers/openai_compat.py:164-207 | Identification, start of a named block with the arguments received before, and the fragment's arguments, in that order. |
| OpenAICompat.StreamResponse | plugins/fcc-proxy/providers/openai_compat.py:229-437 | The chunk loop with its exception handler and its normal end sends exactly the specified transcript. |
| OpenAICompat.RunConcat | plugins/fcc-proxy/providers/openai_compat.py:269-339 | Running two stretches of input one after the other is running them together, stopping at the first exception. |
| OpenAIContract.RunGood | plugins/fcc-proxy/providers/openai_compat.py:269-339 | After any inputs in any order the stream so far obeys the block rules and mirrors the builder's own view of open blocks, used indices and recorded tool contents. |
| OpenAIContract.FlushGood | plugins/fcc-proxy/providers/openai_compat.py:209-212 | Flushing Task arguments keeps all that and never raises. |
| OpenAIContract.FailMeetsContract | plugins/fcc-proxy/providers/openai_compat.py:343-369 | The ending after an exception meets the contract, with an error event exactly when a native tool block was started. |
| OpenAIContract.FinishMeetsContract | plugins/fcc-proxy/providers/openai_compat.py:371-437 | The normal ending raises nothing and meets the contract without an error event. |
| OpenAIContract.TranscriptMeetsContract | plugins/fcc-proxy/providers/openai_compat.py:229-437 | For every sequence of inputs, ended normally or by an exception at any point: nothing escapes, the stream meets the contract, and it carries an error event exactly when the failure came after a native tool block was started. |
| OpenAIToolArgs.PayloadsTellTheStory | plugins/fcc-proxy/providers/openai_compat.py:148-212 | For every run and ending, each tool whose name became known has a block, and the payloads on it are what its own fragments tell: raw arguments before and beyond the name Task, one object for those under it, the empty object at a normal end if they spelled none. |
| OpenAIToolCalls.StoryIsReceived | plugins/fcc-proxy/providers/openai_compat.py:164-207 | What the fragments tell leaves out, adds and reorders none of the arguments received, up to a text that is no object. |
| OpenAIToolCalls.ArgumentsArriveIffIntact | plugins/fcc-proxy/providers/openai_compat.py:148-212 | In every finished stream the payloads of a named tool concatenate to the fragments received if and only if no argument was buffered under the name Task, or the buffered text is sent in the form in which it came. |
| OpenAIToolCalls.GrownTaskLosesArguments | plugins/fcc-proxy/providers/openai_compat.py:157-162 | A name that passes through Task on its way to TaskOutput: for the arguments { and } the client gets } and {}. |
| OpenAIToolCalls.ToolArgumentsArriveComplete | plugins/fcc-proxy/providers/openai_compat.py:148-207 | For a tool whose name arrives and never equals Task, the payloads on its block concatenate to exactly the argument fragments received, those before the name included, however the stream ends. |
| OpenAIToolCalls.TaskArgumentsArriveOnce | plugins/fcc-proxy/providers/openai_compat.py:148-212 | A tool whose name is Task as soon as it is known gets, on normal completion, one delta if any argument text arrived and none otherwise: the first object the text spelled, or the empty object. |
| OpenAIToolCalls.ToolsAreIntroduced | plugins/fcc-proxy/providers/openai_compat.py:180-191 | For every run and ending, each tool whose name became known is announced with the last identifier received by then, or a fresh one, and with the name as it was when it first was not blank. |
| OpenAIToolCalls.ShownNameIsWhole | plugins/fcc-proxy/core/anthropic/sse.py:93-109 | The announced name is the whole name if and only if later fragments add nothing but white space; they add nothing at all if and only if each repeats a beginning of the name. |
| OpenAIToolCalls.NameInPiecesIsCut | plugins/fcc-proxy/providers/openai_compat.py:186-191 | A name that arrives as Ba and then sh: the block is announced as Ba. |
| OpenAIText.RunSays | plugins/fcc-proxy/providers/openai_compat.py:285-323 | No text or thinking is lost, doubled, reordered or relabelled; thinking counts only when enabled. |
| OpenAIText.TranscriptSays | plugins/fcc-proxy/providers/openai_compat.py:229-437 | The text and thinking of the whole stream are those of the inputs up to the end or first exception, then held text and blank padding, or the error message unless a native tool block was started. |
| OpenAIText.TranscriptIsNumbered | plugins/fcc-proxy/core/anthropic/sse.py:75-78 | The stream opens with its message start and its blocks are started with the indices 0, 1, 2, ... |
| OpenAITextTools.TextToolsArrive | plugins/fcc-proxy/providers/openai_compat.py:35-56 | In the finished stream of every run and ending, each tool found in handled text, and each still held at a normal end, has a block of its own, in order, with its id, its name and exactly its input, stopped again. |
| Conversion.ConvertAssistantMessage | plugins/fcc-proxy/core/anthropic/conversion.py:339-396 | The block loop gives the specified message, or fails exactly on an image or server tool block. |
| Conversion.ConvertAssistantMessageWithSplit | plugins/fcc-proxy/core/anthropic/conversion.py:282-336 | The message up to the first tool use with all calls, and the later content pending on the calls' usable ids. |
| Conversion.ConvertUserMessage | plugins/fcc-proxy/core/anthropic/conversion.py:470-503 | Texts are joined between tool results; fails exactly on an image. |
| Conversion.ConvertUserMessageWithInjection | plugins/fcc-proxy/core/anthropic/conversion.py:411-467 | The loop places the deferred content after each tool result that leaves nothing awaited, and reports what is still awaited. |
| Conversion.ConvertMessage | plugins/fcc-proxy/core/anthropic/conversion.py:173-272 | One message is converted as specified, with the deferral outstanding before it, or refused. |
| Conversion.ConvertMessages | plugins/fcc-proxy/core/anthropic/conversion.py:165-279 | Succeeds exactly when no message holds a refused block, and then gives the specified conversion. |
| ConversionTheorems.OnlyDeferredIsInserted | plugins/fcc-proxy/core/anthropic/conversion.py:165-279 | Without its deferred messages the output is each input message converted on its own, in order. |
| ConversionTheorems.DeferredExactlyOnce | plugins/fcc-proxy/core/anthropic/conversion.py:453-462 | Deferred messages are emitted once each in order if and only if no tool result follows, within a user turn, the one answering the last awaited id; in general there is one more for each such result. |
| ConversionTheorems.DeferredHoldsPostToolContent | plugins/fcc-proxy/core/anthropic/conversion.py:134-141 | Every deferred message is the conversion of all content after the first tool use of its message, without the tool uses. |
| ConversionTheorems.DeferredFollowsAnswer | plugins/fcc-proxy/core/anthropic/conversion.py:411-467 | In the converted conversation, when a user message answers the last awaited id, the deferred message of the last message that deferred content comes directly after that result. |
| ConversionTheorems.TextFollowsDeferred | plugins/fcc-proxy/core/anthropic/conversion.py:463-467 | If no further result follows in that message, its remaining text comes directly after the deferred message, and nothing else. |
| ConversionTheorems.LateResultRepeats | plugins/fcc-proxy/core/anthropic/conversion.py:453-462 | Two results for one call, with one message deferring: the deferred message comes out twice. |
| ConversionTheorems.InjectUnanswered | plugins/fcc-proxy/core/anthropic/conversion.py:430-464 | While ids are still awaited the user message is converted as on its own and nothing is inserted. |
| ConversionTheorems.ToolsAreKept | plugins/fcc-proxy/core/anthropic/conversion.py:114-131 | The output's calls and tool results are exactly the assistant's tool uses and the user's tool results, in order: deferral moves, drops and copies none. |
| RateLimit.NewLimiter | plugins/fcc-proxy/core/rate_limit.py:22-31 | A limiter exists exactly for a positive limit and window and remembers nothing at first. |
| RateLimit.StrictSlidingWindowLimiter.TryAcquire | plugins/fcc-proxy/core/rate_limit.py:36-48 | One locked region forgets expired grants and grants or gives the time to wait. |
| RateLimit.StrictSlidingWindowLimiter.Acquire | plugins/fcc-proxy/core/rate_limit.py:33-53 | The retry loop ends at the first attempt that is granted. |
| RateLimit.AtMostLimitPerWindow | plugins/fcc-proxy/core/rate_limit.py:33-53 | With a clock that never runs backwards, any half-open interval of one window holds at most the limit of grants, over every interleaving of callers; grant i + limit comes at least a window after grant i. |
| RateLimit.WaitsOnlyWhenFull | plugins/fcc-proxy/core/rate_limit.py:43-48 | A caller is made to wait only when the limit of grants really lies within the last window. |
| RateLimit.WaitIsEnough | plugins/fcc-proxy/core/rate_limit.py:47-53 | A caller that returns after the time it was told, with no grant in between, is let through. |
| MessagingLimiter.MessagingRateLimiter.EnqueueInternalMulti | plugins/fcc-proxy/messaging/limiter.py:217-233 | A waiting key keeps its place, gets the new function and keeps all futures, older first; a new key goes last, or first on request. |
| MessagingLimiter.MessagingRateLimiter.ServeNext | plugins/fcc-proxy/messaging/limiter.py:98-121 | The first entry is taken and its outcome goes to those of its futures that are not done. |
| MessagingLimiter.RunSound | plugins/fcc-proxy/messaging/limiter.py:85-121 | At any time, for each key, what was executed and what waits is a compaction of what was enqueued: consecutive batches, each with the last function and all futures. |
| MessagingLimiter.CompactsFutures | plugins/fcc-proxy/messaging/limiter.py:217-225 | Compaction loses, doubles and reorders no future. |
| MessagingLimiter.DrainedRunsLatest | plugins/fcc-proxy/messaging/limiter.py:217-233 | After draining, every future of a key was handed to one execution, in order, and the last function run for the key is the last one enqueued. |
| MessagingLimiter.EachFutureOneHome | plugins/fcc-proxy/messaging/limiter.py:217-233 | With distinct futures, each is in one execution or one waiting entry, of its own key only. |
| MessagingLimiter.ResolveMeans | plugins/fcc-proxy/messaging/limiter.py:113-121 | Resolving gives the outcome to exactly the futures not done before. |
| MessagingLimiter.DoneMeans | plugins/fcc-proxy/messaging/limiter.py:111-121 | Over a run a future is resolved exactly when an execution held it, and with the outcome of such an execution. |
| MessagingLimiter.NeverResolvedByOlder | plugins/fcc-proxy/messaging/limiter.py:217-225 | A future is never resolved by an update older than its own, nor by another key's. |
| MessagingLimiter.DrainedResolvesAll | plugins/fcc-proxy/messaging/limiter.py:85-121 | After draining, every enqueued future is resolved. |
| MessagingLimiter.ServedInOrder | plugins/fcc-proxy/messaging/limiter.py:226-233 | Without the front option, executions come in the order in which their keys entered the list. |
| NimSchema.SanitizeNimSchemaNode | plugins/fcc-proxy/providers/nvidia_nim/request.py:87-123 | The recursive walk terminates and gives the specified cleaned value, or drops a boolean. |
| NimSchema.ResultIsNormal | plugins/fcc-proxy/providers/nvidia_nim/request.py:87-123 | Only booleans are dropped, and a cleaned value has no boolean at any visited schema position and no empty combinator list. |
| NimSchema.UnchangedIffNormal | plugins/fcc-proxy/providers/nvidia_nim/request.py:87-123 | Cleaning is the identity exactly on values in that normal form. |
| NimSchema.Idempotent | plugins/fcc-proxy/providers/nvidia_nim/request.py:87-123 | Cleaning twice is cleaning once. |
| NimSchema.FactsAreKept | plugins/fcc-proxy/providers/nvidia_nim/request.py:91-123 | Apart from the booleans every fact of the document stays, with the keys leading to it and in order. |
| NimSchema.SanitizeNimToolSchemas | plugins/fcc-proxy/providers/nvidia_nim/request.py:126-149 | The tool list is cleaned tool by tool, in place; other fields of the body, and bodies without a tool list, stay. |
| NimSchema.ToolKeepsTheRest | plugins/fcc-proxy/providers/nvidia_nim/request.py:137-147 | Of a tool only its parameter schema changes, and it becomes normal. |
| NimSchema.FunctionKeepsTheRest | plugins/fcc-proxy/providers/nvidia_nim/request.py:138-145 | The other fields of the function stay. |
| Transcript.RenderSegments | plugins/fcc-proxy/messaging/transcript.py:528-537 | Texts of the segments in order; failing and empty ones are left out. |
| Transcript.DropOldest | plugins/fcc-proxy/messaging/transcript.py:556-566 | The dropping loop returns the longest marked suffix that fits, and nothing exactly when none fits. |
| Transcript.Fallback | plugins/fcc-proxy/messaging/transcript.py:568-581 | The end of the last segment cut to fill the limit exactly, or the marker with the status, or the status. |
| Transcript.Render | plugins/fcc-proxy/messaging/transcript.py:526-581 | Each case of the rendering, and: the result fits the limit if and only if the status does, or a dropped transcript leaves room for marker and status. |
| Transcript.LongestExists | plugins/fcc-proxy/messaging/transcript.py:559-566 | When some suffix fits there is a longest one. |
| Transcript.FewerPartsFit | plugins/fcc-proxy/messaging/transcript.py:559-566 | When a suffix fits so does every shorter one, so dropping from the front keeps as many segments as possible. |
| SnapshotQueue.SnapshotQueue.PutNowait | plugins/fcc-proxy/messaging/trees/data.py:30-32 | Appends and indexes the item. |
| SnapshotQueue.SnapshotQueue.GetNowait | plugins/fcc-proxy/messaging/trees/data.py:34-39 | Takes the head and discards it from the index; nothing exactly when empty. |
| SnapshotQueue.SnapshotQueue.RemoveIfPresent | plugins/fcc-proxy/messaging/trees/data.py:48-54 | Removes all copies of an indexed item and says whether it was indexed. |
| SnapshotQueue.StepExact | plugins/fcc-proxy/messaging/trees/data.py:19-54 | With distinct items the index stays exact, and items stay distinct exactly as long as no waiting item is put again. |
| SnapshotQueue.GetKeepsIndex | plugins/fcc-proxy/messaging/trees/data.py:34-39 | Taking the head breaks the index exactly when another copy of it waits. |
| SnapshotQueue.SecondCopyCannotBeRemoved | plugins/fcc-proxy/messaging/trees/data.py:48-54 | An item put twice and taken once waits and cannot be removed: the concrete case in which the index fails. |
| MessageTree.AddKeepsWellFormed | plugins/fcc-proxy/messaging/trees/data.py:187-223 | Adding keeps a tree well-formed if and only if neither the node id nor the status id was used. |
| MessageTree.NoCycle | plugins/fcc-proxy/messaging/trees/data.py:221 | In a well-formed tree no node lies below itself. |
| MessageTree.RootReachesAll | plugins/fcc-proxy/messaging/trees/data.py:187-223 | In a well-formed tree every node is reached from the root by child links. |
| MessageTree.MessageTree.constructor | plugins/fcc-proxy/messaging/trees/data.py:158-177 | A tree of one root is well-formed. |
| MessageTree.MessageTree.AddNode | plugins/fcc-proxy/messaging/trees/data.py:187-223 | Fails exactly on an unknown parent; otherwise links and indexes the node, keeping the tree well-formed if and only if both ids are fresh. |
| MessageTree.MessageTree.GetDescendants | plugins/fcc-proxy/messaging/trees/data.py:435-452 | The stack loop terminates and lists exactly the nodes reached from the node, once each, itself first. |
| MessageTree.WalkStep | plugins/fcc-proxy/messaging/trees/data.py:446-452 | Listing the top of the stack and pushing its children keeps the walk free of repeats and closed under children. |
| MessageTree.MessageTree.GetPendingChildren | plugins/fcc-proxy/messaging/trees/queue_manager.py:100-125 | The stack loop terminates and lists exactly the nodes below with a pending chain of ancestors up to the node, once each. |
| MessageTree.MessageTree.RemoveBranch | plugins/fcc-proxy/messaging/trees/data.py:454-482 | Deletes exactly the branch's nodes and their status entries, returns those nodes once each, unlinks the branch, and leaves a well-formed tree if and only if the branch is not the root's and the parent's id is not empty. |
| MessageTree.RemoveKeepsWellFormed | plugins/fcc-proxy/messaging/trees/data.py:454-482 | The same condition for every pruned tree; an empty parent id counts as none, so its link dangles. |
| TreeQueue.TreeQueueProcessor.EnqueueAndStart | plugins/fcc-proxy/messaging/trees/queue_manager.py:304-330 | A busy tree queues the request, a free one starts it; the answer says which. |
| TreeQueue.TreeQueueProcessor.ProcessNode | plugins/fcc-proxy/messaging/trees/queue_manager.py:240-255 | A task begins its node's processor, or skips a node in error. |
| TreeQueue.TreeQueueProcessor.FinishNode | plugins/fcc-proxy/messaging/trees/queue_manager.py:254-274 | However the processor ends, the current node is cleared; a failure marks the node. |
| TreeQueue.TreeQueueProcessor.ProcessNext | plugins/fcc-proxy/messaging/trees/queue_manager.py:276-302 | Starts the next entry or frees the tree; an empty id reads as an empty queue. |
| TreeQueue.TreeQueueProcessor.CancelNode | plugins/fcc-proxy/messaging/trees/queue_manager.py:579-610 | Nothing for an unknown or finished node; otherwise cancels, unqueues and marks it. |
| TreeQueue.StepKeepsInv | plugins/fcc-proxy/messaging/trees/queue_manager.py:240-610 | A step keeps the scheduler's invariant if and only if it is good: requests name nodes of the tree, queued ones not the empty id, and a cancellation does not hit a task that has not begun. |
| TreeQueue.TreeIsSafe | plugins/fcc-proxy/messaging/trees/queue_manager.py:240-330 | After every run of good steps in any interleaving: at most one task, an empty queue when free, turns in order of request, and no entry that had its turn is waiting or was removed. |
| TreeQueue.CancelledNeverRuns | plugins/fcc-proxy/messaging/trees/queue_manager.py:579-610 | An entry taken out of the queue by a cancellation never gets a turn. |
| TreeQueue.QueueSteps | plugins/fcc-proxy/messaging/trees/data.py:19-54 | The scheduler's queue moves as the snapshot queue of node ids does. |
| TreeQueue.BadStepSticks | plugins/fcc-proxy/messaging/trees/queue_manager.py:304-330 | A step that is not good leaves a busy tree without a task exactly when it is a cancellation or finds the tree free. |
| TreeQueue.StuckForever | plugins/fcc-proxy/messaging/trees/queue_manager.py:276-330 | In a stuck tree nothing ever starts again. |
| TreeQueue.CancelBeforeBeginSticks | plugins/fcc-proxy/messaging/trees/queue_manager.py:598-599 | Two good steps lead to a state in which a cancellation sticks the tree. |
| TreeQueue.TreeDrains | plugins/fcc-proxy/messaging/trees/queue_manager.py:240-302 | From every state the invariant holds in, at most three steps for each waiting entry and the one at hand free the tree. |

## Left out

- HTTP, sockets, asyncio, disk, chat platforms and speech: an await or lock region is one atomic step.
- JSON text: encoding and decoding are opaque functions, faithful to each other in the native stream; upstream events arrive decoded, with a case for bodies without an integer index or a usable shape.
- Identifiers, token counts, logging and wall-clock stamps: parameters or nothing.
- The parser of tool calls written in text (core/anthropic/tools.py): an arbitrary producer of text and tool calls.
- Cancellation of a client stream (CancelledError, GeneratorExit), which cuts the output at any event.
- Which pieces an event's text is sent in, its lines or the whole (line mode): any cutting; the grouping of upstream lines, the OpenRouter filter for its end marker, and the parse and print functions of native events around the remapper.
- The repeated start of an upstream block, and thinking deltas without a start while thinking is on: the remapper passes them on, and its theorems exclude them.
- Serialisation of tool results and tool inputs, system prompts, tool definitions and tool choice of the conversion: serialised text is given.
- MessageTree.MessageTree.RemoveBranch: node records are values of the map, so that a caller holding a removed node object would see later updates of it is not captured.
- Node fields that only carry data: incoming message, session id, context, times and error messages.
- cancel_tree, cancel_branch and queue runs that remove branches: the former resets the processing flag before the cancelled task has ended, and neither exclusion nor progress is invariant there.
- TreeQueue.TreeIsSafe: mark_node_error is its state updates, each a step of its own; callbacks after a turn are not steps.
- MessagingLimiter.MessagingRateLimiter.ServeNext: taking, running and resolving are one step, since an entry taken is out of reach of later enqueueing; futures cancelled from outside meanwhile, the pause after a flood error, shutdown and retries of fire-and-forget are not modelled.
- RateLimit.StrictSlidingWindowLimiter.Acquire: the readings of the clock are given, and time is real rather than floating point.
- Reactive blocking after a 429 in the global limiter, which has no clean guarantee.
- Transcript segments themselves: rendering starts from what each segment's own rendering returns.
- Settings, routing, request detection, registries, the command line client and skills: configuration and string matching.
