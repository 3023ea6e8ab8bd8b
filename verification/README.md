# Verified models of the chat pipeline and the agent loop

The project models, in Dafny, the parts of the repository in which text and state go through the most steps, and proves
what each part is for. Every model follows its source function by function: loops and objects that change in place are
methods and classes, each proved equal to a specification function, and the theorems are about those functions. What the
program reads from outside (model replies, tools, hooks, HTTP answers, clocks, JSON) is an arbitrary argument.

- `text.dfy`, `fences.dfy`, `chunker.dfy`: the fence-aware Markdown chunker of the Feishu channel. `Fences` holds an
  independent definition of what a reader of Markdown sees, a character automaton (`Run`, `FenceAfter`), against which the
  parser's spans are proved; `Chunker` holds the cuts (`NextCut`, `Cuts`) and the program. `fencelines.dfy` and
  `chunkcuts.dfy` say of the characters alone which lines are fences, which spans there are, and where every text is cut.
- `chunkprops.dfy`, `chunkbounds.dfy`, `tidy.dfy`, `balance.dfy`, `chunkends.dfy`, `chunklimits.dfy`, `parenlimits.dfy`:
  what the chunks keep. `FencesBalance` is the main result: every chunk of a tame text is within the limit and is a
  Markdown text whose fences close. `AllWithinLimit` gives the length bound for texts that need not be tidy, and
  `chunkends.dfy` the exact condition for the fences of any chunk of any text. `chunklimits.dfy` and `parenlimits.dfy`
  give texts for which the promises fail, at every limit.
- `agenttypes.dfy`, `agentspec.dfy`: the agent's messages and events, the reducer, the grammar of the events (`Advance`),
  and the agent loop as a function of its environment (`RunLoop`). A script of turns stands for the environment: each turn
  holds one model reply with its stream, what hooks and tools do to its calls, and the messages that arrive before each poll
  of the queues. When the script is used up the model call throws.
- `agentphases.dfy`, `agentruns.dfy`, `agenttools.dfy`, `agentconversation.dfy`, `agentqueues.dfy`, `agentbounds.dfy`,
  `agentorder.dfy`, `agentoutcomes.dfy`, `agentwhole.dfy`, `agentrequests.dfy`: theorems over all runs of the loop.
  `agentsession.dfy`, `agentpolls.dfy`, `agentendings.dfy`: theorems over all sequences of prompts, continuations and
  queued messages, how much each poll takes, and how runs end. `agenthooks.dfy`: what a throwing hook does. `agent.dfy`:
  the classes (`PendingMessageQueue`, `Agent`, `LoopRun`), proved equal to the functions of `agentspec.dfy` and
  `agentsession.dfy`.
- `merge.dfy`, `updater.dfy`, `throttle.dfy`, `card.dfy`: the streaming merge, the throttled updater on top of it, when
  it sends, and the numbered card session that it feeds.
- `jsonc.dfy`, `jsoncpieces.dfy`: the JSONC comment stripper, and the lexical grammar that says what it leaves of a text.
- `dedupe.dfy`: the duplicate filter. `proxy.dfy`, `proxyblocks.dfy`, `proxytexts.dfy`: the proxy stream decoder, and
  what it makes of lines, deltas and ends.

## Assumptions and findings

- A model reply ends in an assistant message, and its stream starts at most once before it finishes, as
  `packages/ai/src/types.ts` asks of streams (`AgentRuns.TurnOk`). `AgentPhases.ReplyAddsFinal` shows that this is needed: the
  transcript and the event grammar break exactly when a stream starts twice.
- Prompts and queued messages are neither tool results nor messages with tool calls (`AgentConversation.PlainMessage`);
  only the conversation theorem needs this.
- The comment at `packages/agent/src/types.ts:33` and `packages/agent/README.md` promise parallel tool results in source
  order. The code gives that order exactly when no call that is answered while preparing (unknown tool, invalid arguments,
  blocked) follows one that is executed (`AgentOrder.InOrderIffStraight`).
- A steering message that arrives between the last steering poll and the last follow-up poll of a run stays queued
  (`AgentQueues.RunCompletes`).
- A reply that fails or is aborted with tool calls in it leaves them unanswered in the transcript
  (`AgentConversation.RunTalk`, `AgentConversation.FailedCallBreaks`), and so does a hook after a tool call that throws
  (`AgentHooks.ThrowingHookBreaks`).
- With two running calls of the same id the agent's set of pending calls forgets both when the first one ends
  (`AgentTypes.SameIdForgotten`).
- A chunk can be longer than the limit, and its fences can stay open, when the limit leaves no room for a fence line
  (`ChunkLimits.LongOpeningExceeds`, `ChunkLimits.PromisesNeedRoom`) or an open parenthesis hides the line ends (`ParenthesisLimits.ParenthesisBreaksPromises`,
  which covers the limit of 1800 that the caller at `packages/feishu/src/openapi.ts:121` passes);
  `ChunkProperties.ChunkLength` gives the exact condition on the length, and `ChunkEnds.ChunkClosesIff` the one on the
  fences.
- A card text that coincides with the placeholder is taken for it and dropped, unless the next text repeats it
  (`CardSessions.UpdateKeepsShownIff`).
- The duplicate filter keeps old keys when the clock runs backwards, namely those with a fresh entry before them
  (`DuplicateFiltering.StaleIffFreshBefore`), and exceeds its cap when its oldest key is empty; message keys never are
  (`DuplicateFiltering.MessageKey`).
- Lines end with a newline only; the caller normalises other line ends at `packages/feishu/src/openapi.ts:665-670`.

## Model

| member | source | states |
|---|---|---|
| Fences.ParseFenceSpans | packages/feishu/src/text-chunk.ts:13-77 | the parser's loop gives the spans that `FenceLines.SpansAreBlocks` describes line by line and `ParsedSpansOk` relates to the automaton |
| FenceLines.FenceLineIff | packages/feishu/src/text-chunk.ts:32-37 | a line is a fence line if and only if it is at most three spaces, three or more backticks or three or more tildes, and then nothing that stops a dot, said of its characters alone |
| FenceLines.FenceMarkIff | packages/feishu/src/text-chunk.ts:32-37 | its indent is exactly those spaces, and its marker the whole run of fence characters |
| FenceLines.SpansAreBlocks | packages/feishu/src/text-chunk.ts:13-77 | which spans there are, line by line and for every text: each opens at the start of a fence line, just its last line closes it (same character, at least as long) or the text ends first, and every fence line that starts inside none of them starts one |
| Fences.ParsedSpansOk | packages/feishu/src/text-chunk.ts:13-77 | the spans are sorted and disjoint, each is a fenced block as the automaton sees it (opened by its first line, fenced throughout, closed at its end or by the end of the text), and every position outside them is ordinary text |
| Fences.OpenAtEndIs | packages/feishu/src/text-chunk.ts:66-74 | the parser runs out of text inside a fence exactly when the automaton ends in that fence |
| Fences.AtWithinLine | packages/feishu/src/text-chunk.ts:27-30 | within a line the automaton only collects characters, so fences change at line ends only |
| Fences.SpanAtIs | packages/feishu/src/text-chunk.ts:79-101 | in sorted spans the span that strictly contains an index is the one found |
| Fences.FindFenceSpanAt | packages/feishu/src/text-chunk.ts:79-101 | the binary search gives exactly the span strictly containing the index, or nothing when there is none |
| Chunker.ResolveChunkEarlyReturn | packages/feishu/src/text-chunk.ts:107-118 | empty texts, non-positive limits and texts that fit return early |
| Chunker.ScanParenAwareBreakpoints | packages/feishu/src/text-chunk.ts:244-278 | the last newline and the last other whitespace outside fences at parenthesis depth zero |
| Chunker.PickSafeBreakIndex | packages/feishu/src/text-chunk.ts:225-242 | the break of the specification, a newline after the start before other whitespace after it, which `ChunkCuts.CutsAreRight` describes |
| Chunker.SkipLeadingNewlines | packages/feishu/src/text-chunk.ts:217-223 | skips just the newlines |
| Chunker.PickNewline | packages/feishu/src/text-chunk.ts:163-177 | the backward search ends, although lastIndexOf clamps a negative position to 0, and picks the latest newline that leaves the break inside the same fence and makes progress |
| Chunker.FenceBreakStaysInside | packages/feishu/src/text-chunk.ts:149-191 | whatever branch is taken, a break that starts inside a fence ends strictly inside the same fence |
| Chunker.PickFenceBreak | packages/feishu/src/text-chunk.ts:149-191 | the break inside a fence, with its room for the closing line, its newline and its two fallbacks |
| Chunker.PickBreak | packages/feishu/src/text-chunk.ts:142-191 | the break of a window and the fence it splits |
| Chunker.RenderChunk | packages/feishu/src/text-chunk.ts:193-207 | the chunk: reopened line, source slice, and closing line on a line of its own |
| Chunker.ResumeAt | packages/feishu/src/text-chunk.ts:199-212 | where the next slice starts |
| Chunker.TakeChunk | packages/feishu/src/text-chunk.ts:131-213 | one round of the outer loop gives the next cut, rendered, and strictly advances |
| Chunker.ChunkMarkdownText | packages/feishu/src/text-chunk.ts:120-215 | the whole program ends and returns the rendered cuts, one chunk a cut, which `ChunkCuts.ChunksAreRight` describes |
| ChunkCuts.DepthIs | packages/feishu/src/text-chunk.ts:244-278 | the parenthesis depth at a position is the most that any stretch of the slice up to there leaves open, so it is zero exactly when no parenthesis is still open |
| ChunkCuts.CutsAreRight | packages/feishu/src/text-chunk.ts:131-242 | every cut, of characters and fences alone: the window leaves room for the reopened line; the cut stops at the last newline strictly inside the window and outside fences and parentheses, else at the last other such whitespace, else at the end of the window or inside the fence there, after the last newline that leaves room for the closing line; and the next slice starts after one separator and, outside fences, the newlines |
| ChunkCuts.ChunksAreRight | packages/feishu/src/text-chunk.ts:120-215 | the chunks of every text that does not fit are, in order, those of such cuts from its start to its end, each with the opening line it reopens and the indented closing line it needs |
| ChunkProperties.CutsChained | packages/feishu/src/text-chunk.ts:131-213 | each cut is the next cut after the one before it, from the start of the text to its end |
| ChunkProperties.CutsPartition | packages/feishu/src/text-chunk.ts:131-213 | the source slices are non-empty, ordered and disjoint, and only whitespace lies between them and after the last |
| ChunkProperties.Conservation | packages/feishu/src/text-chunk.ts:120-215 | without the added lines the slices hold the whole text up to whitespace |
| ChunkProperties.ClosingPairsReopening | packages/feishu/src/text-chunk.ts:142-212 | a chunk that is not the last of its text gets a closing line exactly when its break is strictly inside a fence, that of this fence, and the next chunk reopens the same fence |
| ChunkProperties.ChunkLength | packages/feishu/src/text-chunk.ts:131-213 | a chunk is within the limit if and only if the reopened line leaves room for content and the split leaves room for the closing line; with room for content it exceeds the limit by at most the closing line and a newline, and not at all without a closing line |
| ChunkProperties.AllChunksWithinLimit | packages/feishu/src/text-chunk.ts:120-215 | all chunks are within the limit if and only if every cut meets that condition |
| ChunkBounds.ShortOpeningsBound | packages/feishu/src/text-chunk.ts:131-213 | when every opening line is shorter than the limit less one, every chunk is at most its closing line and a newline longer than the limit, and a chunk without a closing line is within it |
| ChunkBounds.AllWithinLimit | packages/feishu/src/text-chunk.ts:120-215 | when no parenthesis opens outside fences and every opening line has at most L characters with 3L + 5 within the limit, every chunk is within the limit, whatever else the text holds |
| Tidy.Rejoin | packages/feishu/src/text-chunk.ts:193-207 | a reader that starts afresh in the right state at a splittable position reads the rest as a reader of the whole text does |
| Tidy.CuttableSplits | packages/feishu/src/text-chunk.ts:32-58 | the positions of tidy texts that are safe to cut: at line starts, in lines that change no fence, and in the indent of a fence line |
| FenceBalance.WindowHasRoom | packages/feishu/src/text-chunk.ts:142-188 | in a tame text a window without a soft break leaves room in the fence for a slice, a newline and the closing line |
| FenceBalance.RoundKeepsHead | packages/feishu/src/text-chunk.ts:131-213 | every round starts the next slice at a good head: right place, right fence, safe to cut |
| FenceBalance.ChunkReads | packages/feishu/src/text-chunk.ts:132-198 | a reader of a chunk is in the reader's state of the whole text at each of its source characters |
| FenceBalance.ChunkBalanced | packages/feishu/src/text-chunk.ts:193-213 | a chunk read on its own closes its fences, or ends the text in the state that the text ends in |
| FenceBalance.FencesBalance | packages/feishu/src/text-chunk.ts:120-215 | for tame texts (no parenthesis opens outside fences, long runs of fence characters are markers, fence lines of at most L characters with 2L + 4 within the limit): every chunk is within the limit, re-parsing any chunk but the last leaves no fence open, and the last one leaves one open exactly when the text does |
| FenceBalance.CodeStaysCode | packages/feishu/src/text-chunk.ts:120-215 | at every source character of every chunk a reader of the chunk alone is in the same fence as a reader of the whole text |
| ChunkEnds.ChunkClosesIff | packages/feishu/src/text-chunk.ts:193-207 | for any chunk of any text: re-parsing it leaves no fence open if and only if its closing line, if it has one, answers the fence that its reopened line and source characters leave open, or else they leave none open |
| ChunkEnds.ChunksCloseIff | packages/feishu/src/text-chunk.ts:120-215 | the same for every chunk of every chunking, with the condition on its cut |
| ChunkEnds.BalanceIff | packages/feishu/src/text-chunk.ts:120-215 | the fence balance of a whole chunking, for any text and limit, holds if and only if it holds of the cuts |
| ChunkEnds.TidyChunkClosesIff | packages/feishu/src/text-chunk.ts:131-213 | in a tidy text, whatever the parentheses and the limit, the condition is on the fence that a reader of the whole text is in at the break |
| ChunkLimits.PromisesNeedRoom | packages/feishu/src/text-chunk.ts:151-190 | an empty fenced block cut at limit 4: a chunk of 7 characters, and a last chunk that leaves open a fence that the text closes |
| ChunkLimits.LongOpeningExceeds | packages/feishu/src/text-chunk.ts:151-190 | at every limit an opening line of at least that length makes the first chunk 4 characters longer than the limit |
| ParenthesisLimits.ParenthesisBreaksPromises | packages/feishu/src/text-chunk.ts:259-269 | at every limit from 7 on, an open parenthesis, any words and an empty fenced block: a first chunk 4 characters beyond the limit, and a last chunk that leaves open a fence that the text closes |
| ParenthesisLimits.OnlyTheParenthesis | packages/feishu/src/text-chunk.ts:259-269 | from a limit of 10 on those texts are tame but for the parenthesis |
| AgentTypes.ReducedMessages | packages/agent/src/agent.ts:491-529 | the reduced transcript is the one before and the messages ended since |
| AgentTypes.ReducerTracksGrammar | packages/agent/src/agent.ts:491-529 | on events of the grammar the agent has a streaming message exactly while a message is open, and its pending calls are among those running |
| AgentTypes.PendingIsRunning | packages/agent/src/agent.ts:506-518 | as long as no call is started while one of its id is running, the pending calls are exactly those running |
| AgentEndings.LastPartialStreams | packages/agent/src/agent.ts:491-529 | the streaming message is the partial told last, until a message or the run ends |
| AgentEndings.LastErrorStays | packages/agent/src/agent.ts:520-524 | the agent's error is that of the last turn that had one |
| AgentTypes.SameIdForgotten | packages/agent/src/agent.ts:506-518 | two running calls of one id are both forgotten when the first one ends |
| AgentTypes.TurnEndIsQuiet | packages/agent/src/agent.ts:506-518 | no tool call is pending and no message is streaming at any turn end |
| AgentPhases.AnnounceInner | packages/agent/src/agent-loop.ts:180-188 | announced messages start and end one after another |
| AgentPhases.StreamShape | packages/agent/src/agent-loop.ts:272-303 | each start of a stream adds one partial message, the last message is the partial sent last, and nothing before them changes |
| AgentPhases.ReplyAddsFinal | packages/agent/src/agent-loop.ts:238-331 | a reply adds just its final message, with one start and one end, if its stream starts at most once, and leaves stale partial messages and breaks the grammar if it starts again |
| AgentPhases.ReportInner | packages/agent/src/agent-loop.ts:604-631 | a report ends the call and announces its result, with no message nested in it, while other calls send updates |
| AgentPhases.SequentialInner | packages/agent/src/agent-loop.ts:350-388 | the events of sequential execution keep to the grammar, leave no call running, and announce exactly its results |
| AgentPhases.SequentialResults | packages/agent/src/agent-loop.ts:350-388 | sequential results carry the call ids in source order |
| AgentPhases.PrepareInner | packages/agent/src/agent-loop.ts:401-417 | after preparing, exactly the prepared calls are running and the results answer exactly the other calls |
| AgentPhases.FinishInner | packages/agent/src/agent-loop.ts:419-437 | awaiting ends the running calls one by one, in order |
| AgentPhases.ToolPhaseInner | packages/agent/src/agent-loop.ts:336-438 | in both modes the events keep to the grammar, no call is left running, and every call is answered exactly once |
| AgentRuns.TurnAdds | packages/agent/src/agent-loop.ts:190-214 | a turn adds its reply and its results, in this order, to both message lists |
| AgentRuns.RunGrammar | packages/agent/src/agent-loop.ts:155-232 | from any point between turns the rest of a run keeps to the grammar |
| AgentRuns.RunTranscript | packages/agent/src/agent-loop.ts:155-232 | at every turn end the loop's context is the starting one and the new messages, and these are the messages ended so far |
| AgentRequests.RunAsks | packages/agent/src/agent-loop.ts:172-231 | each model request of every run is the transcript at the last turn end and the messages injected since, and the transcript at each turn end is its request, the reply and the reply's results |
| AgentRequests.WholeAsks | packages/agent/src/agent-loop.ts:95-232 | the same of whole runs, from the starting transcript and the prompts on |
| AgentEndings.RunEndsSo | packages/agent/src/agent-loop.ts:167-231 | a run fails if and only if a reply failed or was aborted, right after that reply and with no results; it throws only when it needs one more reply than there are; and it tells its new messages at the end |
| AgentEndings.ReplyTells | packages/agent/src/agent-loop.ts:272-330 | for every stream: nothing is told before the message starts; from there up to the first terminal event each partial is told, and then the final message, which is started then if nothing was |
| AgentEndings.CallsOfParts | packages/agent/src/agent-loop.ts:343-343 | the calls of a reply are those of its content, in order |
| AgentToolEvents.EachCallStartsAndEnds | packages/agent/src/agent-loop.ts:336-438 | in both modes the calls are started once each, in source order, and ended once each, in the order of their results, which answer the same calls |
| AgentToolEvents.EndsFollowStarts | packages/agent/src/agent-loop.ts:350-438 | at no point of a trace has a turn ended more calls of an id than it started, so every end comes after a start of its own |
| AgentToolEvents.RunTooled | packages/agent/src/agent-loop.ts:155-232 | at every turn end of every run, since the turn's start the calls of its reply were started once each in source order and ended once each in the order of its results, and none were if the reply failed |
| AgentWholeRuns.RunsStart | packages/agent/src/agent-loop.ts:95-143 | prompts and continuations start the loop in the first turn of the grammar, with the prompts in both lists |
| AgentWholeRuns.WholeGrammar | packages/agent/src/agent-loop.ts:95-232 | every run is an agent start, turns that start and end alternately, and one agent end at the very end; messages never nest, and no call runs between turns |
| AgentWholeRuns.WholeTools | packages/agent/src/agent-loop.ts:95-232 | over a whole run each call of each reply has one start and one later end in its turn, the starts in source order and the ends in the order of the results |
| AgentWholeRuns.TranscriptsAgree | packages/agent/src/agent.ts:491-529 | at every turn end the agent's transcript, built from message ends alone, is the loop's context, which is the starting one and the new messages; no call is pending |
| AgentWholeRuns.FinalTranscriptsAgree | packages/agent/src/agent.ts:371-397 | the same at the end of the run |
| AgentConversation.OweResults | packages/agent/src/agent-loop.ts:208-211 | results that carry owed ids, in any order, pay off exactly those |
| AgentConversation.EachCallAnswered | packages/agent/src/agent-loop.ts:172-217 | what well-formed means: each assistant message is followed by just as many tool results as it has calls, their ids a permutation of its call ids, and then by a message that is no tool result |
| AgentConversation.TurnTalk | packages/agent/src/agent-loop.ts:190-214 | a turn leaves a well-formed conversation if and only if its reply did not fail or has no calls |
| AgentConversation.RunTalk | packages/agent/src/agent-loop.ts:155-232 | from a well-formed context every model request of every run is well-formed; the run leaves a well-formed context unless it failed with calls in its last reply, and then it does not |
| AgentConversation.FailedCallBreaks | packages/agent/src/agent-loop.ts:194-198 | a failed reply with a call in it breaks any well-formed conversation |
| AgentWholeRuns.WholeTalk | packages/agent/src/agent-loop.ts:95-232 | the same from prompts and from the transcript |
| AgentQueues.DrainSplits | packages/agent/src/agent.ts:125-138 | draining takes from the front, loses nothing, and takes nothing only from an empty queue |
| AgentPolls.DrainTakes | packages/agent/src/agent.ts:125-138 | draining takes all messages, or in the other mode one if there is any, from the front, and leaves the rest |
| AgentPolls.RunPolls | packages/agent/src/agent.ts:421-430 | every poll of every run takes from its queue what the mode of that queue says, so it is empty afterwards or was taken from one at a time, and the messages on record are those taken |
| AgentPolls.SessionInjectsOneByOne | packages/agent/src/agent.ts:323-350 | over any operations nothing but one message at a time is injected from a queue that works one at a time, continuations included |
| AgentQueues.RunConserves | packages/agent/src/agent-loop.ts:163-231 | in every run, however it ends and in both modes, what was drained from a queue is injected, in order and each once, and what was drained and what is queued is what was enqueued |
| AgentQueues.RunCompletes | packages/agent/src/agent-loop.ts:216-231 | a run that completes has just polled both queues in vain after a reply without calls; only steering that came between the two polls can be queued |
| AgentQueues.RunWeaves | packages/agent/src/agent-loop.ts:163-231 | the new messages are, turn by turn, what was injected, the reply and its results |
| AgentWholeRuns.WholeConserves | packages/agent/src/agent-loop.ts:95-232 | over a whole run what was injected from a queue and what is left in it is what it held and what arrived |
| AgentWholeRuns.WholeCompletes | packages/agent/src/agent-loop.ts:216-231 | the completion theorem for whole runs, for the turn that was the last |
| AgentWholeRuns.LateSteeringStays | packages/agent/src/agent-loop.ts:216-231 | a run of one reply that completes and leaves a late steering message queued |
| AgentWholeRuns.WholeWeave | packages/agent/src/agent-loop.ts:95-232 | the same weaving from the prompts on |
| AgentBounds.RunIsBounded | packages/agent/src/agent-loop.ts:163-231 | the turns started are at most one more than the replies with tool calls and the messages drained |
| AgentBounds.RunEnds | packages/agent/src/agent-loop.ts:163-231 | replies with calls and messages to drain measure the rest of a run, each further turn uses some up, and with one reply more than the measure the run ends of itself |
| AgentWholeRuns.WholeBound | packages/agent/src/agent-loop.ts:95-232 | the turn bound for whole runs |
| AgentWholeRuns.WholeEnds | packages/agent/src/agent-loop.ts:95-232 | termination for whole runs |
| AgentOrder.SequentialOrder | packages/agent/src/agent-loop.ts:358-387 | sequential results are the answers in source order |
| AgentOrder.ParallelOrder | packages/agent/src/agent-loop.ts:390-438 | parallel results are the answers of the immediate outcomes and then of the prepared calls, each in source order |
| AgentOutcomes.EachCallComesTo | packages/agent/src/agent-loop.ts:336-595 | in both modes each call has one result: what its tool did, with the hook's overrides field by field, if and only if the tool is known, the arguments are valid and the hook does not block it, and else an error with the reason that comes first; in source order, or in parallel execution with the calls that do not run before those that do |
| AgentOutcomes.EventsTellResults | packages/agent/src/agent-loop.ts:336-631 | in both modes the tool ends tell of exactly the results, in their order, and updates come only from calls that may run |
| AgentOutcomes.RefusedIsSilent | packages/agent/src/agent-loop.ts:472-559 | a call that is unknown, invalid or blocked, and shares its id with no other that runs, makes no update |
| AgentOutcomes.SequentialTold | packages/agent/src/agent-loop.ts:350-388 | sequential execution emits, call by call in source order, a start, one update for each that the tool makes, the end, and the result as a message |
| AgentOrder.OrderIsPermutation | packages/agent/src/agent-loop.ts:390-438 | the parallel order is a permutation of the calls |
| AgentOrder.InOrderIffStraight | packages/agent/src/types.ts:31-34 | the promised source order holds if and only if no immediate outcome follows a prepared call |
| AgentOrder.UnknownToolComesFirst | packages/agent/src/agent-loop.ts:401-437 | a call of a known tool followed by one of an unknown tool: the results come in the other order |
| AgentOrder.ModesAgreeIffStraight | packages/agent/src/agent-loop.ts:350-438 | with distinct ids both modes give the same results if and only if no immediate outcome follows a prepared call |
| AgentSessions.SettleLosesNothing | packages/agent/src/agent.ts:407-432 | a run keeps the session's balance of enqueued, queued and injected messages |
| AgentSessions.ContinueLosesNothing | packages/agent/src/agent.ts:323-350 | continuing keeps it, although it drains a queue itself and skips the first steering poll |
| AgentSessions.SessionLosesNothing | packages/agent/src/agent.ts:112-143 | over any prompts, continuations and queued messages, in both modes, what was injected from a queue and what is queued is what was enqueued: in order, each once |
| AgentSessions.TranscriptAfterRun | packages/agent/src/agent.ts:434-482 | after a run the agent is idle, and its transcript is the one before, the run's new messages and the failure message if the model call threw |
| AgentEndings.ErrorAfterRun | packages/agent/src/agent.ts:436-457 | after a run that did not throw the agent has the error of its last turn that had one and never that of an earlier run, and its listeners heard the run's events |
| AgentEndings.FailureIsTold | packages/agent/src/agent.ts:459-474 | a model call that throws leaves a last message that is aborted if and only if the run was, with the error, which is the agent's and the last that listeners hear |
| AgentEndings.ContinueContinuesSo | packages/agent/src/agent.ts:323-350 | how a session continues: after an assistant message with the front of the steering queue and without a further steering poll before the reply, else with the front of the follow-ups, else not at all; otherwise from the transcript |
| AgentSessions.ConversationAfterRun | packages/agent/src/agent.ts:434-482 | a well-formed transcript stays well-formed over a run, also when the model call throws, unless the last reply failed with calls in it |
| AgentSessions.OperateTalks | packages/agent/src/agent.ts:309-350 | a plain operation sends only well-formed requests, and leaves a well-formed transcript if and only if its run does not fail with calls in its last reply |
| AgentSessions.SessionTalks | packages/agent/src/agent.ts:309-397 | over any plain prompts, continuations and queued messages, as long as no run fails so, every request of every run is well-formed and so is the transcript |
| AgentHooks.CutTranscript | packages/agent/src/agent-loop.ts:573-595 | when a hook after a call throws, the agent's transcript ends with the reply, the results given until then and the failure message |
| AgentHooks.ThrowingHookBreaks | packages/agent/src/agent-loop.ts:573-595 | such a hook always leaves an ill-formed conversation, in both modes; the requests until then are well-formed |
| Agents.PendingMessageQueue.Enqueue | packages/agent/src/agent.ts:117-119 | adds at the end |
| Agents.PendingMessageQueue.HasItems | packages/agent/src/agent.ts:121-123 | whether anything is queued |
| Agents.PendingMessageQueue.Drain | packages/agent/src/agent.ts:125-138 | drains all messages or the first one, as the mode says (`AgentPolls.DrainTakes`) |
| Agents.PendingMessageQueue.Clear | packages/agent/src/agent.ts:140-142 | empties the queue |
| Agents.Agent.Steer | packages/agent/src/agent.ts:249-251 | enqueues steering and changes nothing else |
| Agents.Agent.FollowUp | packages/agent/src/agent.ts:254-256 | enqueues a follow-up and changes nothing else |
| Agents.Agent.ProcessEvents | packages/agent/src/agent.ts:491-538 | reduces the state in place, and delivers the event just in an active run |
| Agents.Agent.HandleRunFailure | packages/agent/src/agent.ts:459-474 | adds the failure message and announces the agent end |
| Agents.Agent.FinishRun | packages/agent/src/agent.ts:476-482 | clears what belongs to the run |
| Agents.Agent.RunWithLifecycle | packages/agent/src/agent.ts:371-457 | the agent, its queues and its listeners after a run are those of the specified run and its settlement |
| Agents.Agent.Prompt | packages/agent/src/agent.ts:312-320 | refused without effect in an active run, else the specified run |
| Agents.Agent.Continue | packages/agent/src/agent.ts:323-350 | refused while busy, without messages, or after an assistant message with empty queues; else the specified run, from steering, follow-ups or the transcript |
| Agents.LoopRun.GetSteeringMessages | packages/agent/src/agent.ts:423-429 | the steering poll, whose first call may be skipped |
| Agents.LoopRun.GetFollowUpMessages | packages/agent/src/agent.ts:430-430 | the follow-up poll |
| Agents.LoopRun.StreamAssistantResponse | packages/agent/src/agent-loop.ts:238-331 | the context and the events after a streamed reply are those of its specification, for every stream |
| Agents.LoopRun.PrepareToolCall | packages/agent/src/agent-loop.ts:472-522 | unknown tools, invalid arguments and blocked calls give their error outcomes, in this order of precedence, and only other calls are prepared; `AgentOutcomes.EachCallComesTo` tells this of results |
| Agents.LoopRun.ExecutePreparedToolCall | packages/agent/src/agent-loop.ts:524-559 | updates while the tool runs, and its outcome, an error when it throws |
| Agents.LoopRun.FinalizeExecutedToolCall | packages/agent/src/agent-loop.ts:561-595 | the hook after a call overrides content, details and error flag each on its own |
| Agents.LoopRun.EmitToolCallOutcome | packages/agent/src/agent-loop.ts:604-631 | the events and the result of an outcome |
| Agents.LoopRun.ExecuteToolCallsSequential | packages/agent/src/agent-loop.ts:350-388 | the loop gives the specified events and results |
| Agents.LoopRun.ExecuteToolCallsParallel | packages/agent/src/agent-loop.ts:390-438 | both loops give the specified events and results |
| Agents.LoopRun.InjectPendingMessages | packages/agent/src/agent-loop.ts:179-188 | pending messages are announced and enter both lists |
| Agents.LoopRun.RunTurn | packages/agent/src/agent-loop.ts:173-214 | one turn of the inner loop |
| Agents.LoopRun.RunRounds | packages/agent/src/agent-loop.ts:167-231 | the nested loops end, and with the specified run |
| Agents.LoopRun.RunLoop | packages/agent/src/agent-loop.ts:155-232 | the whole loop is the specified run, for every environment |
| Agents.LoopRun.RunAgentLoop | packages/agent/src/agent-loop.ts:95-118 | a run from prompts |
| Agents.LoopRun.RunAgentLoopContinue | packages/agent/src/agent-loop.ts:120-143 | a run from the transcript; throws without effect when there is none or it ends with an assistant message |
| StreamingMerge.MergeStreamingText | packages/feishu/src/stream-updater.ts:115-144 | the search for the overlap gives the merge |
| StreamingMerge.MergeContainsBoth | packages/feishu/src/stream-updater.ts:115-144 | the merge contains both texts contiguously |
| StreamingMerge.MergeIsEitherIff | packages/feishu/src/stream-updater.ts:118-135 | the merge is the next text if and only if that contains the previous one anywhere, and the previous one if and only if it contains the next |
| StreamingMerge.MergeIsShortest | packages/feishu/src/stream-updater.ts:137-143 | when neither text contains the other, the merge is the shortest text that starts with the first and ends with the second, and the only one of its length |
| StreamingMerge.MergeAbsorbs | packages/feishu/src/openapi.ts:745-773 | merging the result again with either text changes nothing |
| StreamingMerge.MergeGrowth | packages/feishu/src/stream-updater.ts:124-126 | a text that extends the previous one replaces it |
| StreamUpdating.EndsWithNaturalBoundary | packages/feishu/src/stream-updater.ts:146-178 | true exactly when the trimmed text ends with a sentence boundary, up to closing quotes and brackets |
| StreamUpdating.StreamUpdater.ShouldSendNow | packages/feishu/src/stream-updater.ts:53-77 | the throttle's decision, for every clock |
| StreamUpdating.StreamUpdater.Push | packages/feishu/src/stream-updater.ts:80-100 | the whole new state after a push |
| StreamUpdating.StreamUpdater.Flush | packages/feishu/src/stream-updater.ts:101-108 | the whole new state after a flush |
| StreamUpdating.UpdaterRefinesFold | packages/feishu/src/stream-updater.ts:31-112 | for every history and clock, what is pending or sent last is the left fold of the merge, each sent text properly contains the one before it, and there are never more than allowed |
| Throttling.PushSendsIff | packages/feishu/src/stream-updater.ts:53-100 | over every history and clock a push sends the merge of all that was pushed if and only if it adds something, the cap is not reached, the first delay and the interval since the last text sent are over, and the text is not an extension of that one or extends it by enough and, if boundaries are preferred, to a boundary or by so much that it does not matter |
| Throttling.FlushSendsIff | packages/feishu/src/stream-updater.ts:101-108 | a flush sends all that was pushed if and only if that was not sent last and the cap is not reached |
| Throttling.TrimEndIff | packages/feishu/src/stream-updater.ts:146-150 | trimming takes all whitespace at the end and nothing else |
| StreamUpdating.FlushCompletes | packages/feishu/src/stream-updater.ts:101-108 | a final flush sends the whole fold if and only if nothing was pending or the cap was not reached |
| StreamUpdating.FoldContainsEverySnapshot | packages/feishu/src/stream-updater.ts:80-100 | the fold contains every pushed text |
| StreamUpdating.GrowingSnapshots | packages/feishu/src/stream-updater.ts:80-100 | when each snapshot extends the one before, the fold is the last one |
| CardSessions.CardSession.UpdateCardKitSession | packages/feishu/src/openapi.ts:266-297 | the whole new state after an update that the remote side accepts or not |
| CardSessions.CardSession.CloseCardKitSession | packages/feishu/src/openapi.ts:299-325 | the whole new state after a close, however it ends, the session taken out of its map included |
| CardSessions.SessionAgreesWithCard | packages/feishu/src/openapi.ts:247-325 | for every serial history and pattern of failures the session's text is what the card shows, and each request carries the next number and keeps the shown text unless that is the placeholder |
| CardSessions.AcceptedAreConsecutive | packages/feishu/src/openapi.ts:280-283 | accepted requests are numbered 2, 3, 4, ... without gap or repeat |
| CardSessions.SuccessfulUpdateShows | packages/feishu/src/openapi.ts:266-297 | an update that reports success leaves its text on the card |
| CardSessions.UpdateSendsIff | packages/feishu/src/openapi.ts:266-297 | an update sends the merge if and only if the card does not contain the text and the merge is not the shown placeholder, and fails if and only if that request is rejected |
| CardSessions.CloseShows | packages/feishu/src/openapi.ts:299-325 | a close that reports success leaves the final text on the card, merged and sanitised, and has announced it in the settings; otherwise its last request was rejected, and the card shows that or what it showed before |
| CardSessions.ShownGrows | packages/feishu/src/openapi.ts:266-297 | nothing the card has shown is lost, as long as no text coincides with the placeholder |
| CardSessions.UpdateKeepsShownIff | packages/feishu/src/openapi.ts:266-285 | an accepted update that sends a text keeps what the card shows if and only if that is not the placeholder or the new text repeats it |
| CardSessions.NothingLostIff | packages/feishu/src/openapi.ts:247-325 | over any serial history nothing that replaced the initial placeholder is ever lost if and only if every text that changes a card showing the placeholder again repeats it |
| CardSessions.PlaceholderCoincidence | packages/feishu/src/openapi.ts:741-743 | a history in which a text coincides with the placeholder and is lost |
| JsonComments.StripJsonComments | packages/feishu/src/config.ts:322-400 | the index loop gives the stripped text, which `JsonPieces.StripLeavesPieces` describes |
| JsonPieces.LiteralSurvives | packages/feishu/src/config.ts:331-351 | a string literal (a quote, characters that are neither quote nor backslash or pairs of a backslash and any character, a quote) survives verbatim, and the text after it is read as code |
| JsonPieces.LineCommentEnds | packages/feishu/src/config.ts:353-372 | a line comment is dropped up to the first line end, or to the end of the text |
| JsonPieces.BlockCommentGoesOn | packages/feishu/src/config.ts:374-394 | a block comment goes on up to its first closing mark and keeps just its line ends |
| JsonPieces.PiecesStripped | packages/feishu/src/config.ts:322-400 | of a text made of literals, comments and other characters stripping leaves the literals, the line ends of comments and the other characters |
| JsonPieces.StripLeavesPieces | packages/feishu/src/config.ts:322-400 | every text is made of such pieces, so this says what stripping leaves of every text |
| JsonComments.StripKeepsNewlines | packages/feishu/src/config.ts:322-400 | the output has exactly the line ends of the input |
| JsonComments.StripKeepsMarked | packages/feishu/src/config.ts:322-400 | every character outside comments survives with its role, literals as `JsonPieces.LiteralSurvives` has them, and no comment opens in the output |
| JsonComments.StripIdentity | packages/feishu/src/config.ts:322-400 | stripping changes nothing if and only if no comment opens outside strings |
| JsonComments.StripIdempotent | packages/feishu/src/config.ts:322-400 | the output has no comment opener outside strings, and stripping again changes nothing |
| DuplicateFiltering.DuplicateFilter.PruneProcessedMessages | packages/feishu/src/feishu.ts:122-129 | drops entries from the oldest on, up to the first fresh one |
| DuplicateFiltering.DuplicateFilter.MarkIfDuplicate | packages/feishu/src/feishu.ts:105-120 | the entries and the answer after a mark |
| DuplicateFiltering.StoredIsWindow | packages/feishu/src/feishu.ts:105-129 | the stored map is always the accepted entries that are among the last 5000 and, as of the last prune, not too old |
| DuplicateFiltering.DuplicateIffInWindow | packages/feishu/src/feishu.ts:105-129 | a key is a duplicate if and only if one of the last 5000 accepted entries has it and is not too old, although pruning stops early |
| DuplicateFiltering.DuplicateIffStandsFresh | packages/feishu/src/feishu.ts:105-129 | for any entries and any clock, a key is a duplicate if and only if it stands at or after a fresh entry |
| DuplicateFiltering.StoredAreDistinct | packages/feishu/src/feishu.ts:105-129 | after any history no key stands twice |
| DuplicateFiltering.StaleIffFreshBefore | packages/feishu/src/feishu.ts:122-129 | after any history, with any clock, a stored key past its time is a duplicate if and only if a fresh entry stands before it |
| DuplicateFiltering.CapUnlessOldestIsEmpty | packages/feishu/src/feishu.ts:113-118 | the cap holds if and only if the oldest key to evict is not empty |
| DuplicateFiltering.BackwardClockKeepsOldKeys | packages/feishu/src/feishu.ts:122-129 | a history that shows it: the clock goes back, and an old key still counts |
| DuplicateFiltering.MessageKey | packages/feishu/src/feishu.ts:49-50 | message keys are never empty |
| DuplicateFiltering.MessageKeysDiffer | packages/feishu/src/feishu.ts:49-50 | different messages have different keys, as long as their ids hold no colon |
| ProxyStreams.LinesOfConcat | packages/agent/src/proxy.ts:164-166 | a read completes lines only with what was left in the buffer |
| ProxyStreams.ReadsDoNotMatter | packages/agent/src/proxy.ts:154-180 | the lines taken and the buffer depend only on the whole text, not on how it was split into reads |
| ProxyTexts.SplitIff | packages/agent/src/proxy.ts:165-166 | splitting at newlines is the inverse of joining lines |
| ProxyTexts.PayloadIff | packages/agent/src/proxy.ts:168-171 | a line carries a text if and only if it is the data prefix and then that text, not empty and up to whitespace around it |
| ProxyStreams.ProxyDecoder.ProcessProxyEvent | packages/agent/src/proxy.ts:211-340 | the in-place update by an event and the stream event that answers it, or a throw that changes nothing |
| ProxyStreams.ProxyDecoder.ProcessRead | packages/agent/src/proxy.ts:164-179 | one read processes the lines it completes, up to a throw |
| ProxyStreams.ProxyDecoder.DecodeStream | packages/agent/src/proxy.ts:154-180 | the read loop gives the message of the lines of the whole text |
| ProxyStreams.RestOfReads | packages/agent/src/proxy.ts:154-187 | after a throw the reads to come make no difference |
| ProxyBlocks.BlockIsItsFold | packages/agent/src/proxy.ts:211-340 | the block at an index is the fold of the events for that index |
| ProxyBlocks.ThrowsIffSomeBlockDoes | packages/agent/src/proxy.ts:211-340 | the rebuild throws if and only if the fold of some index does |
| ProxyBlocks.OtherIndicesDoNotMatter | packages/agent/src/proxy.ts:211-340 | events for other indices make no difference to a block |
| ProxyBlocks.OnlySinceStart | packages/agent/src/proxy.ts:219-291 | only the events since the last start for an index matter |
| ProxyBlocks.LinesAreEvents | packages/agent/src/proxy.ts:168-179 | the decoder throws if and only if a line is no event or an event does not fit, and otherwise holds the message of the events and has pushed their answers |
| ProxyBlocks.DecodedBlocks | packages/agent/src/proxy.ts:154-180 | however a stream is split into reads, a decoder that does not throw leaves at each index the fold of the events for that index |
| ProxyBlocks.EndRepeatsDeltas | packages/agent/src/proxy.ts:223-281 | the answer to a text or thinking end repeats all that the block's deltas have carried since its start, whatever other events are interleaved |
| ProxyTexts.AnswersCarryDeltas | packages/agent/src/proxy.ts:211-340 | the answers to a stream of events pass on all the text that the deltas for an index carry, in order |
| ProxyTexts.CallIsItsDeltas | packages/agent/src/proxy.ts:283-307 | from its start to its end a tool call has the arguments that its deltas so far make up, an empty object when nothing can be read off them |
| ProxyTexts.EndRepeatsCall | packages/agent/src/proxy.ts:283-321 | the answer to a tool call's end is the call with the arguments that all its deltas make up, whatever other events are interleaved |
| ProxyTexts.LastEndSigns | packages/agent/src/proxy.ts:223-281 | a text or thinking block has the signature of its last end, and none before |
| ProxyTexts.LastEndCounts | packages/agent/src/proxy.ts:323-332 | stop reason and usage are those of the last done or error event, and the error message that of the last error event |
| ProxyTexts.ThrowsIffMisfit | packages/agent/src/proxy.ts:211-340 | the rebuild throws if and only if a delta, or an end but a tool call's, comes for an index at which the last start before it started no block of its kind |

## Left out

- FenceBalance.FencesBalance: one direction only, from conditions on the text; the exact conditions are on the cuts, in ChunkEnds.BalanceIff for the fences and ChunkProperties.AllChunksWithinLimit for the length.
- AgentConversation.RunTalk: asks for plain prompts and queued messages; a caller that queues tool results or assistant messages with calls can break the conversation by itself.
- AgentRuns.RunGrammar: a model call that throws is modelled where the request is made; a stream that throws half-way and listeners that throw are not.
- Agents.LoopRun.FinalizeExecutedToolCall: a hook that throws is modelled in the functions of AgentHooks and not in the classes; the queues after it are not.
- DuplicateFiltering.StoredIsWindow: for clocks that do not run backwards; DuplicateIffStandsFresh covers every clock.
- Surrogate pairs: characters stand for UTF-16 code units, and none of the modelled code treats pairs.
- The guard at text-chunk.ts:194-196, which never holds because every slice is non-empty.
- Concurrent calls into one card session, and the reset of its queue after a failure; the updater's chain makes calls serial.
- What sanitizeMarkdownForFeishuCard, parseAssistantOutput and truncateSummary do to texts; they are arbitrary functions or leave no trace in the model.
- The updater without a replacer, which does nothing, and the failures of the replacer, which are only logged.
- Timestamps, usage, thinking levels, model and key selection, transformContext and convertToLlm: they do not steer the loop.
- Tool argument contents beyond valid or not, and the arguments in update events.
- The abort signal other than through its effects: aborted replies and aborted failures.
- Clearing queues, changing their modes and resetting the agent while it is in use; the queue's own clear is modelled.
- The order in which updates of concurrent tools come is arbitrary, but they come while a call that was started earlier is awaited or reported.
- The proxy decoder's abort handling, what its catch block adds after a throw, and the decoding of bytes to text; its stream events carry the message itself too, which changes as it grows.
- JSON parsing and the parsing of partial JSON, which are arbitrary functions.
- EventStream, the conversation queues, session maps, and the providers' streams.
