# EffChat: budgets, histories and streams, verified

A Dafny model of the parts of the EffChat server whose correctness is hardest
to see from reading one function: state machines shared by concurrent callers
and text transformations that must not lose anything.

* `ToolBudget`, `ToolRuns`, `ToolGovernance`: the token budget that parallel
  tool calls of one run share. The operations are methods on the budget's
  fields; the run is a step machine over all interleavings; the middleware is
  proved to be a walk of that machine, with any steps of other calls between its
  own. `ResultShortening` cuts results to their
  grants, `Json` has the sizes of encoded texts.
* `ThinkSplit`, `StreamOutput`, `RunOutput`: splitting an inline think block out
  of a stream, what is streamed against what is stored, and the reset that takes
  back a failed attempt.
* `ToolHistory`, `UserMerge`: histories in the form providers accept.
* `WebEvidence`, `EvidenceRender`: the index of pages mentioned by earlier web
  results, and its rendering under two ceilings.
* `Compaction`: the checkpoint body and its window of recent messages.
* `RunForwarding`, `RunLog`: forwarding a run's events over a lossy channel.
* `Refinement`: two provider slots and one breaker for any number of callers.
* `AuthLimiter`, `AuthRuns`: the table of failed logins, and what it guarantees
  over any sequence of operations.
* `MarkdownTable`, `SoftWrap`: the GFM table codec (GitHub Flavored Markdown Spec, sections 4.10, 6.1 and 6.2), and
  the merging of soft-wrapped lines.
* `Text` and `Sequences` hold what several of these share.

Code that updates fields or loops is a class or a method proved against a
specification function; the lemmas are about that function, or about runs of a
step machine that such methods are proved to walk. Where callers run in parallel,
such a method calls `Others` between its operations, which takes any number of any
steps that are not the call's own. Times are integers.
Where Go calls into code that is no part of this model (the JSON decoder, URL
parsing, SHA-256, Unicode tables, the quota service, the tools themselves) the
model takes the answer as a parameter and the results hold for every answer.

Where the code does less than it says, the model follows the code:

* The hub drops events from the start of its log and marks the output as
  truncated only if one of them was an output event
  (`backend/internal/service/run_hub.go:680-685`), and the handler announces a
  gap only for truncated output (`backend/internal/handler/run_handler.go:127-130`).
  A client behind a trimmed part without output events is led past a hole
  without notice: `RunLog.SilentTrimLeavesAHole` is such a run, and
  `RunLog.HolesAreSkips` says exactly when it happens.
* By the same rule the log can be emptied, and a client that closes on it has
  missed events without any gap. `RunLog.DrainedExactly` says that this is the
  only way a closed channel leaves a client behind, and
  `RunLog.EmptiedLogTellsNothing` is such a run.
* `backend/internal/agent/eino_summary.go:327-329` says the summary can never
  evict the whole recent window. It does when it takes all available tokens;
  `Compaction.BuildCompactionSummaryBody` has the exact condition and
  `Compaction.SummaryEvictsTheWindow` an instance.
* An empty think block is cut from the stream but stays in the stored text
  (`backend/internal/agent/eino_stream.go:149-152`); `StreamOutput.StreamedContentIsStored`
  has the exact condition.
* A context that is done when a chunk has arrived ends the stream before the chunk
  is handed out, but the chunk is kept (`backend/internal/modelstream/collect.go:267-275`):
  the store has content the client has not seen. `StreamOutput.StreamedContentIsStored`
  says exactly when the two still agree, `StreamOutput.CanceledStreamDiffers` is an
  instance.
* A source that was blocked under the overflow entry is let in as soon as the table
  has shrunk (`backend/internal/handler/auth_rate_limiter.go:156-162`):
  `AuthRuns.OverflowRefusesWhileFull`, `AuthRuns.OverflowForgets`. A failure that is
  recorded after the window but before the end of the block starts a new window
  without a block (`backend/internal/handler/auth_rate_limiter.go:82-84`):
  `AuthRuns.LiftedExactly`.
* A settled text exceeds its grant where the tool's name is so long that neither
  notice fits (`backend/internal/agent/tool_budget.go:328-333`).
  `ResultShortening.SettlesExactly` says that every text fits exactly for tool
  names that take at most 1399 bytes, as any of up to 233 characters does
  (`ResultShortening.ShortNamesSettle`); `ResultShortening.LongNameOverruns` is a
  name one byte too long, and the results about runs are for the shorter names.
* Ordinary calls in flight block skills for the rest of a run that has used no token
  for one: what a skill could be granted counts what others have reserved, but the
  check for reservations looks at those of skills alone
  (`backend/internal/agent/tool_budget.go:222-236`). The notice then says the skill
  budget is exhausted. `ToolRuns.SkillsBlockedOnlyWhenSpent` says when it can happen,
  `ToolRuns.ParallelCallsBlockSkills` is an instance.
* The recent window can exceed its budget: the share of a part is at least one
  token even where the labels leave none
  (`backend/internal/agent/eino_summary.go:415-419`). `Compaction.WindowIsFair` says
  exactly when, `Compaction.WindowOverflows` is an instance.
* Merging user messages empties the text of a message that has parts as well
  (`backend/internal/agent/eino_messages.go:347-351`), so a text beside a picture is
  lost. `UserMerge.MergeKeepsAtoms` says exactly when nothing is, and
  `UserMerge.MergeErasesTextBesidePictures` is an instance. Attaching images or web
  context empties the text itself (`backend/internal/agent/eino_messages.go:237-296`,
  `backend/internal/agent/web_tool_context.go:61-72`), so only a stored message that
  already carries both can lose it.

`dafny verify dfyconfig.toml` checks the project.

## Model

| member | source | states |
|---|---|---|
| ToolBudget.NewLimitsFit | backend/internal/agent/tool_budget.go:129-172 | For every context window the tool budget is at most a quarter of it, the skill and result limits stay inside it, and a fresh run can start a tool exactly if the window is at least 2728 tokens. |
| ToolBudget.TerminalReserve | backend/internal/agent/tool_budget.go:287-296 | The reserve lies between 0 and the maximum, and is all of it whenever what would remain could not hold one 512-token grant. |
| ToolBudget.PerNotice | backend/internal/agent/tool_budget.go:279-282 | One share of the reserve is never less than 8 tokens. |
| ToolBudget.BoundTerminalToolResult | backend/internal/agent/tool_budget.go:298-322 | A notice always ends up inside a positive limit: unchanged if it fits, else cut to its digest, a bare failure, or an empty object; nothing of it only if the limit is not positive. |
| ToolBudget.RunBudget.PrepareToolCall | backend/internal/agent/tool_budget.go:201-250 | Reserves for a call exactly what the specification grants, with its paging arguments bounded by the grant, or refuses it for the specified reason and leaves them alone; with the whole new state. |
| ToolBudget.BoundPaged | backend/internal/agent/tool_budget.go:352-388 | A paged tool is asked for at least one and no more than its grant allows: a number in that range stays, any other becomes the most, and nothing else in the arguments changes. |
| ToolBudget.RunBudget.CancelToolGrant | backend/internal/agent/tool_budget.go:252-265 | Gives a grant back; a call that never reached its tool is uncounted as well; an empty grant changes nothing. |
| ToolBudget.RunBudget.ReleaseActualCall | backend/internal/agent/tool_governance.go:101-104 | A call refused by the quota service is uncounted by itself, in a step of its own. |
| ToolBudget.RunBudget.FinishToolResult | backend/internal/agent/tool_budget.go:324-350 | Settles a grant: the text is the bounded result if that fits the grant, else the too-large notice, and its true size is charged. It forces the final answer, where that was not forced before, exactly if nothing is reserved then and less than 512 tokens are left. |
| ToolBudget.RunBudget.AccountUnreservedResult | backend/internal/agent/tool_budget.go:267-285 | A notice without a grant is charged what it takes, never more than one share of the reserve; a blank text or an exhausted budget changes nothing. |
| ToolBudget.RunBudget.BeforeModelRewriteState | backend/internal/agent/tool_budget.go:174-195 | Before a model turn, counting from where the run started, the final answer is forced exactly if a round or call limit is reached or it was forced before, and the notice that says so is added once in a run. |
| ToolBudget.CountGeneratedToolUse | backend/internal/agent/tool_budget.go:569-584 | Counts the assistant messages with calls, and their calls, from the baseline on. |
| ToolRuns.NextInv | backend/internal/agent/tool_budget.go:201-350 | Every atomic step of every parallel call keeps the invariant: reserved counters equal to the outstanding grants, all limits kept, grants out of the reserve. |
| ToolRuns.RunsKeepBudget | backend/internal/agent/tool_budget.go:201-350 | Over every interleaving of any number of calls the invariant holds and all texts ever handed to the model total at most the context budget. |
| ToolRuns.WalksKeepInv | backend/internal/agent/tool_budget.go:201-350 | A walk from anywhere keeps the invariant, the limits and the context budget. |
| ToolRuns.WalksAreRuns | backend/internal/agent/tool_budget.go:201-350 | Every walk from the start is a run, so what holds over runs holds for calls that go on from each other. |
| ToolRuns.QuietRunsAreSettled | backend/internal/agent/tool_governance.go:64-175 | With no call in flight nothing is reserved, and the counted calls are exactly those that reached their tool, at most the call limit. |
| ToolRuns.ClampsNeverBite | backend/internal/agent/tool_budget.go:252-265 | The subtractions behind the clamps to zero never go below zero for a grant that is outstanding. |
| ToolRuns.NoGrantAfterForceFinal | backend/internal/agent/tool_budget.go:203-207 | Once the final answer is forced it stays forced, and every later call of the run is refused without changing the budget. |
| ToolRuns.ForcedExactly | backend/internal/agent/tool_budget.go:174-350 | For every step from a good state, exactly when it forces the final answer: a start that finds the counted calls at their limit or nothing reserved and less than a grant left; a model turn at a round or call limit; a settling that leaves nothing reserved and less than 512 tokens. |
| ToolRuns.ForcedOnlyWhenSpent | backend/internal/agent/tool_budget.go:174-350 | Over every run, the final answer is forced only if some state had its calls at the limit, or had nothing reserved and less than a grant left beside the reserve, or a model turn was at a limit. |
| ToolRuns.UnspentRunsGoOn | backend/internal/agent/tool_budget.go:215-250 | In every other state with nothing reserved, an ordinary call is granted the most a result may take or all that is left, whichever is less, and that is at least 512 tokens. |
| ToolRuns.GrantIs | backend/internal/agent/tool_budget.go:201-250 | A call is granted exactly if nothing blocks it and the least of its three limits is at least 512 tokens, and then it is granted that least. |
| ToolRuns.UsedIsCharged | backend/internal/agent/tool_budget.go:252-350 | Over every run the tokens used are the sum of those charged by its settlings and notices, and the tokens used for skills the sum of those charged to skill grants. |
| ToolRuns.SkillsBlockedOnlyWhenSpent | backend/internal/agent/tool_budget.go:220-235 | Over every run skills are blocked only if some state had nothing reserved for one and less than 512 tokens one could be granted. |
| ToolRuns.ParallelCallsBlockSkills | backend/internal/agent/tool_budget.go:231-236 | Four ordinary calls in flight are enough for that: a concrete run blocks skills for good without a token used or reserved for one. |
| ToolRuns.ReserveFeedsNotices | backend/internal/agent/tool_budget.go:267-296 | As long as fewer notices were accounted than shares fit the reserve, the next notice still gets a whole share. |
| ToolGovernance.InvokeTool | backend/internal/agent/tool_governance.go:64-175 | Among any other calls that act between its operations, one call is a walk of the step machine: it starts, its own steps are the specified ones, which charge what it returns, and it ends settled; an error is returned exactly where the parent was canceled, else the specified text. Where nobody else acts, reservations are as before and the call is counted exactly if its tool was reached. |
| ToolGovernance.AloneSettles | backend/internal/agent/tool_governance.go:64-175 | A call whose walk has no steps but its own leaves reservations as they were, and hands over and counts just its own. |
| ToolGovernance.AfterGrant | backend/internal/agent/tool_governance.go:87-116 | From the quota check on, a held grant is settled by exactly the specified steps: canceled, denied and finished, or handed to the tool. |
| ToolGovernance.AfterRefusal | backend/internal/agent/tool_governance.go:77-85 | A refused call takes exactly one more step of its own: dropped if its parent was canceled, else told why, and charged for that. |
| ToolGovernance.AfterTool | backend/internal/agent/tool_governance.go:112-175 | After the tool, cancellation, an error, a missing result and a blank result each settle the running call by exactly the specified steps. |
| ToolGovernance.FittingAnswersAreHandedOver | backend/internal/agent/tool_governance.go:90-152 | What fits its grant is returned as it is: the quota answer, the report of a failed tool, the cleaned result; a missing or blank result is replaced by its notice or what is left of that. |
| ToolGovernance.FinishCall | backend/internal/agent/tool_governance.go:101-104 | Settling a grant is one step of the machine, charges the returned text, and that text is within the grant. |
| ToolGovernance.AccountNotice | backend/internal/agent/tool_governance.go:147-152 | Accounting a notice is one step of the machine and charges the returned text, which is empty exactly if the budget has nothing left for it. |
| ToolGovernance.CodeNoticesOk | backend/internal/agent/tool_budget.go:330-333 | With the texts the code writes, results are settled within their grants and notices survive their cutting exactly for tool names whose encoding takes at most 1399 bytes. |
| ToolGovernance.NoticesAreObjects | backend/internal/agent/tool_budget.go:201-244 | What a refused call is told, for each of the five reasons, and what stands for an empty result are never blank, so each is accounted. |
| ResultShortening.SettledExactly | backend/internal/agent/tool_budget.go:324-350 | A settled text is within its grant exactly if the result is, or three times the grant covers the encoded tool name and 137 bytes: the shorter of the two notices decides, as the longer one is only asked for where that one fails. |
| ResultShortening.SettlesExactly | backend/internal/agent/tool_budget.go:324-350 | Every settled text is within its grant, whatever the result and the grant, exactly for tool names whose encoding takes at most 1399 bytes. |
| ResultShortening.LongNameOverruns | backend/internal/agent/tool_budget.go:330-333 | A name of 1400 letters and a result of 1537 overrun the smallest grant. |
| ResultShortening.SettlingNoticeBytes | backend/internal/agent/tool_budget.go:550-563 | The two notices that can settle a result take 156 and 137 bytes beside the encoded tool name. |
| ResultShortening.TruncatePagedToolResult | backend/internal/agent/tool_budget.go:407-438 | A page is cut to the longest prefix of its content whose encoding fits, its offset right behind that prefix; nothing is returned exactly if not even the empty page fits. |
| ResultShortening.PageBytesMonotone | backend/internal/agent/tool_budget.go:418-436 | More content never encodes to fewer bytes, even where a negative offset loses its sign or a digit, so bisection finds the longest prefix. |
| ResultShortening.TruncateToolResultForContext | backend/internal/agent/tool_budget.go:503-548 | The text carries the longest prefix of the trimmed result with which it fits, the result's true size and its own verdict; a limit below one grant or an excerpt that cannot fit gives the corresponding notice. |
| ResultShortening.BoundToolResultToTokens | backend/internal/agent/tool_budget.go:390-405 | A result that fits is passed on; a decoded page or skill list is cut, anything else becomes the excerpt of its text; what comes out fits the limit or is one of the two notices. |
| ResultShortening.PagesAreCut | backend/internal/agent/tool_budget.go:394-398 | A result too large for its limit becomes the longest fitting prefix of its page, if it is one of a paging tool and its empty page fits. |
| ResultShortening.ListsAreShrunk | backend/internal/agent/tool_budget.go:399-403 | A skill list that is too large becomes the first fitting page of its shrink chain, if one fits. |
| ResultShortening.OthersAreExcerpted | backend/internal/agent/tool_budget.go:404 | A result of any other tool that is too large becomes the longest fitting excerpt of its trimmed text, if an empty one fits. |
| ResultShortening.ShrinkDecreases | backend/internal/agent/tool_budget.go:454-491 | Each turn of the skill list loop decreases skills, then files, then metadata fields, lexicographically. |
| ResultShortening.ShrinkContinues | backend/internal/agent/tool_budget.go:454-491 | Every page the loop offers is a prefix of the page it started from, with each offset at the start plus what was kept. |
| ResultShortening.ShrinkTakesOne | backend/internal/agent/tool_budget.go:454-491 | A turn of the list loop takes exactly one thing: a skill while there are several, else a file, else the description, else the name; it stops exactly when none of these is left. |
| ResultShortening.TruncateSkillListToolResult | backend/internal/agent/tool_budget.go:440-501 | The first page of the shrink chain that fits is returned; if none does, the empty page asks for a retry at the same offset. |
| Json.DecimalNatExact | backend/internal/agent/web_tool_context.go:333-345 | A decimal numeral has no leading zero and denotes its number. |
| Json.StringReadsBack | backend/internal/agent/tool_budget.go:550-563 | Reading the written string gives every text back, whatever characters it holds. |
| Json.StringIsEscaped | backend/internal/agent/tool_budget.go:550-563 | Every quote is written behind a backslash, and no control character as it is. |
| Json.DecimalGrows | backend/internal/agent/tool_budget.go:420 | The next offset never takes more than one character less than the one before. |
| ThinkSplit.PartialTagSuffix | backend/internal/agent/think_split.go:108-119 | Finds the longest proper prefix of the tag that ends the text. |
| ThinkSplit.HeldBackIsEnough | backend/internal/agent/think_split.go:60-72 | What is held back suffices: no close tag can start in text already given out, whatever text comes next. |
| ThinkSplit.ThinkSplitter.Feed | backend/internal/agent/think_split.go:32-79 | After every chunk, state and output are a function of the text read so far, however it was cut. |
| ThinkSplit.ThinkSplitter.Flush | backend/internal/agent/think_split.go:81-91 | At the end all output is the split of the whole text. |
| ThinkSplit.ConsumedIsStreamed | backend/internal/agent/think_split.go:32-79 | What has been given out of a text that may go on is fixed: nothing while it may still open with the tag, all but a partial close tag while the block is open, else the whole split; each part a prefix of the text's split. |
| ThinkSplit.SplitChunks | backend/internal/agent/think_split.go:32-91 | Chunk invariance: for every text and every way to cut it, feeding the chunks and flushing gives the split of the whole text. |
| ThinkSplit.SplitThinkContent | backend/internal/agent/think_split.go:94-100 | The one-shot form gives the same split. |
| ThinkSplit.SplitBlock | backend/internal/agent/think_split.go:94-100 | Blanks, an open tag, thinking without a close tag, a close tag and content split into exactly that content and that thinking. |
| ThinkSplit.SplitOther | backend/internal/agent/think_split.go:32-79 | Text that does not open with the tag, an unclosed block and a closed block each lose nothing but tags and leading blanks. |
| StreamOutput.AssistantMessage.StripInlineThink | backend/internal/agent/eino_stream.go:145-159 | The stored message still has all of the text: unchanged, or without a block that opened it, whose thinking is behind the reasoning; an empty block changes nothing. |
| StreamOutput.StripStoresAll | backend/internal/agent/eino_stream.go:145-159 | For every text and reasoning, what is stored is the text as it was, or its content with exactly the block before it moved to the end of the reasoning. |
| StreamOutput.Consume | backend/internal/modelstream/collect.go:241-305 | Reading a stream hands out the chunks before the first that finds the context done; that one is kept with them, and the message is joined from all that is kept. Chunks that do not join are reported before a context that is done, and that before the error of the stream. |
| StreamOutput.ConsumeStream | backend/internal/agent/eino_stream.go:18-140 | What was streamed is the split of the chunks handed out, the two kinds of thinking interleaved; a retried attempt has emitted what that much of the text fixes and ends in a reset that takes back exactly that; otherwise the message joined from the kept chunks, if they join, is stripped and kept, and its content is what was streamed exactly under the condition below. The stored message has all of the text kept, but for the tags and the blanks before them, in content and thinking. With nothing unseen, as much thinking is stored as was streamed, and the same where there is one kind of it. |
| StreamOutput.Attempt.EmitDelta | backend/internal/agent/eino_stream.go:24-35 | The two counters are always the runes emitted on the two channels. |
| StreamOutput.Attempt.FlushContent | backend/internal/agent/eino_stream.go:64-77 | After the flush the streamed content is the content part of the whole text. |
| StreamOutput.StreamedContentIsStored | backend/internal/agent/eino_stream.go:145-159 | Client and store hold the same content if and only if either nothing is unseen and the text does not open with an empty block, or all that is unseen went into a block that was open or could still open, and what follows that block is what had been taken for content. |
| StreamOutput.EmptyBlockDiffers | backend/internal/agent/eino_stream.go:149-152 | For an empty block they differ: the tags are cut from the stream but stored. |
| StreamOutput.CanceledStreamDiffers | backend/internal/modelstream/collect.go:267-275 | A context that is done when the second of two chunks is looked at: the client has the first, the store both. |
| StreamOutput.StreamedThinkingIsStored | backend/internal/agent/eino_stream.go:145-159 | With nothing unseen, client and store hold the same thinking where there is one kind of it, and equally much where there are both. |
| StreamOutput.ThinkingIsKept | backend/internal/agent/eino_stream.go:145-159 | Any interleaving of the reasoning with the thinking of the text is as long as the stored thinking, and equal to it if one of the two is empty. |
| StreamOutput.RetryLeavesNoTrace | backend/internal/agent/eino_stream.go:36-44 | A reset carrying the emitted counts restores the live output of the run. |
| RunOutput.TrimRunSegments | backend/internal/service/run_hub.go:615-642 | Takes runes off the text segments from the newest down and drops the segments that become empty. |
| RunOutput.ResetUndoesAttempt | backend/internal/service/run_hub.go:504-522 | After any run of deltas, a reset with their counts restores text, thinking and segments exactly. |
| RunOutput.OutputsAreTidy | backend/internal/service/run_hub.go:562-588 | No event ever leaves an empty text segment, so the reset always restores. |
| RunOutput.DeltasSpell | backend/internal/service/run_hub.go:504-588 | For any deltas the segments spell the streamed answer and thinking, each in order, and no two neighbours are of the same kind. |
| ToolHistory.CanonicalIsAdjacent | backend/internal/agent/eino_messages.go:62-72 | The normal form says exactly that each result directly follows an assistant message holding just its call, and each calling message directly precedes its result. |
| ToolHistory.PairToolResultsByCalls | backend/internal/agent/eino_messages.go:120-147 | Pairs each call that has an id with the first result of that id, in the order of the calls. |
| ToolHistory.NormalizeToolReplayHistory | backend/internal/agent/eino_messages.go:73-113 | The index-jumping loop computes each message's own image: others unchanged, stray results dropped, calls split into pairs. Each text and media field of a message that stays is said once, in order. |
| ToolHistory.CanonicalizeProducedMessagesWithPartial | backend/internal/agent/eino_messages.go:484-536 | The second implementation computes the same images, keeping call indices and, for a cut-off turn, unanswered text. Each text and media field of a message that stays is said once, in order. |
| ToolHistory.CanonicalizePartialProducedMessages | backend/internal/agent/eino_messages.go:463-482 | For a cut-off turn, assistant messages without text, calls or reasoning are dropped as well. |
| ToolHistory.NormalizeCanonical | backend/internal/agent/eino_messages.go:73-113 | Whatever the history, its normal form is one that providers accept. |
| ToolHistory.NormalizeIdempotent | backend/internal/agent/eino_messages.go:73-113 | Normalising twice is normalising once. |
| ToolHistory.NormalizeConcat | backend/internal/agent/eino_messages.go:73-113 | Normalising distributes over concatenation when the second history does not start with a result. |
| ToolHistory.OthersStay | backend/internal/agent/eino_messages.go:73-113 | All messages outside the tool exchange are kept, in order, and none is added. |
| ToolHistory.PartialTextsStay | backend/internal/agent/eino_messages.go:511-520 | A cut-off turn keeps, beside those, exactly the meaningful texts of calls that were never answered, in their places. |
| ToolHistory.AnsweredCallsStay | backend/internal/agent/eino_messages.go:86-110 | No answered call is lost: it comes out directly before its first result. |
| ToolHistory.SplitInOrder | backend/internal/agent/eino_messages.go:86-110 | In any history a message with answered calls becomes one stretch: for each answered call, in the order of the calls, a message with just that call and then its first result; the first of them alone has the text and the media. |
| ToolHistory.SpokenOnce | backend/internal/agent/eino_messages.go:73-113 | Conservation over every history: the contents and media of the result, blanks and tool results aside, are those of the other messages and of the calling messages with an answered call, each once and in order; a cut-off turn adds the meaningful texts of unanswered ones. |
| ToolHistory.OnlyBlankAnswersGo | backend/internal/agent/eino_messages.go:463-482 | From a cut-off turn exactly the assistant messages without calls go whose text and reasoning are blank. |
| ToolHistory.StoredHistoriesReplayAsTheyAre | backend/internal/agent/eino_messages.go:454-482 | Canonicalised before it is stored, complete or cut off, a history passes replay normalisation unchanged but for cleared call indices. |
| ToolHistory.CanonicalFixed | backend/internal/agent/eino_messages.go:73-113 | Any history in normal form is left as it is, up to call indices. |
| UserMerge.PartsSayWholeMessages | backend/internal/agent/eino_messages.go:365-377 | The parts a user message is turned into say all of it exactly if it says nothing beside the one field they are taken from; they never say more. |
| UserMerge.LegacyChatPartsToUserInputParts | backend/internal/agent/eino_messages.go:380-412 | Old parts are converted one by one in order; unknown ones are dropped. |
| UserMerge.ConvertSaysAll | backend/internal/agent/eino_messages.go:379-412 | Converting old parts keeps every visible character and every picture, in order. |
| UserMerge.ConvertedPicture | backend/internal/agent/eino_messages.go:386-407 | An old picture keeps place, media type and detail; its source is its URI if it has one, else its URL. |
| UserMerge.DataPicture | backend/internal/agent/eino_messages.go:396-427 | A picture in a data URL becomes its payload, with the media type from there if the part names none. |
| UserMerge.JoinInto | backend/internal/agent/eino_messages.go:336-352 | The earlier of two messages is overwritten with the joined one. |
| UserMerge.MergeConsecutiveUserMessages | backend/internal/agent/eino_messages.go:327-357 | Merging in place gives the fold of the join over the history; the result holds the same objects in order and the merged-away ones are untouched. |
| UserMerge.MergeSettles | backend/internal/agent/eino_messages.go:316-326 | No two call-free user messages are left next to each other. |
| UserMerge.MergeIdempotent | backend/internal/agent/eino_messages.go:327-357 | Merging twice is merging once. |
| UserMerge.MergeConcat | backend/internal/agent/eino_messages.go:327-357 | Each run of user messages is merged by itself. |
| UserMerge.TextRunJoins | backend/internal/agent/eino_messages.go:338-345 | A text-only run becomes its non-empty texts separated by blank lines. |
| UserMerge.MergeKeepsAtoms | backend/internal/agent/eino_messages.go:347-352 | Counting every text and part field of every message: all pictures and visible characters survive, in order, exactly if no joined message has visible text beside the parts it is joined by; otherwise some are gone. |
| UserMerge.MergeErasesTextBesidePictures | backend/internal/agent/eino_messages.go:347-352 | A message with a text beside its picture, followed by a text, loses its own text. |
| UserMerge.MergeCanonical | backend/internal/agent/eino_messages.go:327-357 | Merging keeps each result next to its call. |
| UserMerge.BuildHistory | backend/internal/agent/eino_messages.go:51-52 | The pipeline of normalising and merging. |
| UserMerge.PreparedHistories | backend/internal/agent/eino_messages.go:51-52 | What the model is given is in normal form, has no two plain user messages in a row, and is unchanged by preparing it again. |
| WebEvidence.ReflectsUniquely | backend/internal/agent/web_tool_context.go:74-147 | The specification (one item per page, latest extract else latest search, ordered by last mention, map of true positions) leaves exactly one list and one map. |
| WebEvidence.MoveWebEvidenceToEnd | backend/internal/agent/web_tool_context.go:236-245 | Takes one item out, puts its replacement at the end, and rebuilds the map to the true positions. |
| WebEvidence.AddCitations | backend/internal/agent/web_tool_context.go:89-119 | A search result updates every page it mentions: a held extract stays, a held search is replaced, and the page moves to the end. |
| WebEvidence.AddExtract | backend/internal/agent/web_tool_context.go:121-139 | An extract replaces whatever is held for its page and moves it to the end. |
| WebEvidence.GatherWebEvidence | backend/internal/agent/web_tool_context.go:74-140 | For every history the loop's list and map meet the specification for all mentions, repeated results counted once. |
| WebEvidence.PagesAreMentioned | backend/internal/agent/web_tool_context.go:74-140 | For every history, a page is held exactly if some result that is no repetition found or read it, and as an extract exactly if one read it. |
| WebEvidence.LatestReadingIsHeld | backend/internal/agent/web_tool_context.go:121-139 | A page that was read is held with the title, address, detail and cut content of its latest reading. |
| WebEvidence.LatestCitationIsHeld | backend/internal/agent/web_tool_context.go:89-119 | A page that was never read is held with the query, title, address and cut snippet of its latest citation. |
| WebEvidence.RepeatsAddNothing | backend/internal/agent/web_tool_context.go:82-88 | A web result with a call id that is in the history already adds nothing; a message of another tool or without a call id is never taken for a repetition. |
| EvidenceRender.IntString | backend/internal/agent/web_tool_context.go:333-345 | Twenty digits are enough for every Go int, and the result is its exact decimal numeral (empty for a negative number). |
| EvidenceRender.FormatWebEvidenceItem | backend/internal/agent/web_tool_context.go:197-226 | One line with its number, query, title, URL and excerpt. |
| EvidenceRender.LineShows | backend/internal/agent/web_tool_context.go:197-226 | A line has the kind, the number, the query and title if there are any, the address, and the excerpt under the name for its kind and detail. |
| EvidenceRender.RenumberingKeepsSize | backend/internal/agent/web_tool_context.go:168-188 | Numbering the kept lines from the other end changes neither the characters nor the tokens of the text. |
| EvidenceRender.RenderingFits | backend/internal/agent/web_tool_context.go:166-195 | Every rendering is within 8000 characters and 2400 tokens, and the room left by the items always holds the note. |
| EvidenceRender.RenderWebEvidence | backend/internal/agent/web_tool_context.go:166-195 | From the newest item down whatever fits is kept, shown oldest first, and all that was left out is counted in the note. |
| EvidenceRender.EverythingFits | backend/internal/agent/web_tool_context.go:170-178 | Items that fit together are all shown. |
| EvidenceRender.LeftOutExactly | backend/internal/agent/web_tool_context.go:170-178 | An item is left out exactly if it does not fit beside the newer ones that are shown. |
| EvidenceRender.NewerItemsStay | backend/internal/agent/web_tool_context.go:170-178 | Older items never push out newer ones: whatever comes before them, the same newer items are shown. |
| EvidenceRender.RenderingShows | backend/internal/agent/web_tool_context.go:179-195 | The text is the header, the kept items numbered from one, and the number of all others in the note; nothing if none is kept. |
| EvidenceRender.BuildRecentWebToolContext | backend/internal/agent/web_tool_context.go:74-147 | The text is the rendering of the twelve pages mentioned last and keeps both ceilings. |
| EvidenceRender.LatestTwelve | backend/internal/agent/web_tool_context.go:141-146 | Of more than twelve pages the last twelve are tried. |
| Text.TokensSubadditive | backend/internal/agent/eino_summary.go:248-257 | The rounded-up estimate of a whole is at most the sum of the estimates of its parts and at least each of them. |
| Text.TrimSpaceCutsEnds | backend/internal/agent/eino_summary.go:392 | Trimming takes spaces off the two ends and nothing else. |
| Compaction.TruncateTextToTokens | backend/internal/agent/eino_summary.go:457-478 | Bisection finds the specified cut. |
| Compaction.TruncateFits | backend/internal/agent/eino_summary.go:454-478 | The cut is within the budget and never empties a text. |
| Compaction.TruncateIsLongest | backend/internal/agent/eino_summary.go:467-478 | A text that is cut is cut at the longest prefix that leaves a token for the mark. |
| Compaction.TruncateMonotone | backend/internal/agent/eino_summary.go:457-478 | A larger budget never gives a shorter text. |
| Compaction.SearchAllocation | backend/internal/agent/eino_summary.go:432-446 | The inner bisection finds the largest allocation in its range with which the window still fits. |
| Compaction.SearchAllocations | backend/internal/agent/eino_summary.go:416-448 | Newest to oldest, every part ends with the largest allocation that fits beside the newer ones and the older ones' equal shares. |
| Compaction.EqualFits | backend/internal/agent/eino_summary.go:405-419 | With room for the labels and a token for each part the equal shares fit. |
| Compaction.SharesFitExactly | backend/internal/agent/eino_summary.go:405-419 | The equal shares fit exactly if three times the budget covers the labels, the gaps and up to three bytes of each content. |
| Compaction.WindowFits | backend/internal/agent/eino_summary.go:371-452 | The searched window fits the budget exactly if the equal shares do. |
| Compaction.WindowIsFair | backend/internal/agent/eino_summary.go:364-370 | Every selected message keeps some of its text; the window is within its budget exactly if three times the budget covers the labels, the gaps and up to three bytes of each content, so always if it covers the labels and a token for each. |
| Compaction.WindowOverflows | backend/internal/agent/eino_summary.go:415-419 | No allocation fits one short user message into a budget of one token. |
| Compaction.RenderRecentVerbatimWithinTokenBudget | backend/internal/agent/eino_summary.go:371-452 | The window of the last n messages that decode and say something, rendered with the searched allocations; empty without budget or messages. |
| Compaction.RecentIsTheEnd | backend/internal/agent/eino_summary.go:375-381 | Whatever came before the last n messages is never in the window. |
| Compaction.RecentShows | backend/internal/agent/eino_summary.go:380-404 | Of no more than n messages exactly those that decode to a text that is not blank are selected, one by one, in order. |
| Compaction.NewestIsShownLast | backend/internal/agent/eino_summary.go:375-404 | A newest message with a text is the window's last part, with that text trimmed and the name of its role. |
| Compaction.RenderedInFull | backend/internal/agent/eino_summary.go:406-431 | With allocations that cover them, the window is the parts in full, oldest first, each behind its speaker. |
| Compaction.DraftFits | backend/internal/agent/eino_summary.go:322-346 | Before any guard the body is within 8000 tokens unless the window alone takes all the room. |
| Compaction.GuardBody | backend/internal/agent/eino_summary.go:343-361 | The guards keep the body within both ceilings and leave one that fits untouched; in any other the summary is a token, the window is cut to what is left, and some of it stays. The character guard never changes anything. |
| Compaction.BuildCompactionSummaryBody | backend/internal/agent/eino_summary.go:313-363 | For every summary and history the body is within 8000 tokens and 24000 characters and shows some of the summary; it shows some of the window exactly if the history has one and the summary leaves it a token, and shows all of it unless the labels alone leave no room. |
| Compaction.WindowLeavesRoom | backend/internal/agent/eino_summary.go:330-346 | The window leaves room for the summary exactly if its labels, its gaps and up to three bytes of each content do. |
| Compaction.WrittenRolesLeaveRoom | backend/internal/agent/eino_summary.go:395-404 | With the roles user, assistant, tool and system that is always so, and the guards never fire. |
| Compaction.NothingIsCut | backend/internal/agent/eino_summary.go:330-346 | When summary and window fit together, both are there in full. |
| Compaction.LongSummaryLeavesNoWindow | backend/internal/agent/eino_summary.go:327-331 | A summary of 24000 characters leaves no window, whatever the history. |
| Compaction.SummaryEvictsTheWindow | backend/internal/agent/eino_summary.go:327-331 | So the summary can push out the whole window, against the comment there. |
| RunForwarding.WriteRunEvents | backend/internal/handler/run_handler.go:193-204 | Writes the events past the cursor, each only if it is past the one before; a client that goes away has a prefix. |
| RunForwarding.WriteMissedRunEvents | backend/internal/handler/run_handler.go:175-191 | Fills in from the log, or announces a gap with a snapshot; fails if the run is gone. |
| RunForwarding.HandleSignal | backend/internal/handler/run_handler.go:149-172 | One turn of the loop: a heartbeat writes a ping, the event that is next is written, one the client has changes nothing, one ahead is filled in from the log; the loop ends only by a canceled request, a closed channel or a forgotten run. |
| RunForwarding.ForwardRunEvents | backend/internal/handler/run_handler.go:137-173 | The client gets exactly the specified writes, or the prefix of them that was written before it went away. A client that stays, woken in order, is sent every event and every ping. |
| RunForwarding.InOrderIsWritten | backend/internal/handler/run_handler.go:149-172 | Any signals that are pings and events in order are written one by one, all of them, and the loop goes on. |
| RunForwarding.ResumeRun | backend/internal/handler/run_handler.go:114-123 | Resuming announces a gap first where one is reported and goes on behind its snapshot. |
| RunLog.LookIsWholeExactlyUnlessSilent | backend/internal/handler/run_handler.go:127-135 | One look at the log leaves the client contiguous and caught up if and only if its cursor is not behind a trimmed part without any output event. |
| RunLog.RunsKeepInv | backend/internal/handler/run_handler.go:137-204 | Over every run, whatever the channel loses or reorders, the written cursors rise strictly and every event written is the recorded one. |
| RunLog.TakenSignals | backend/internal/handler/run_handler.go:149-172 | What one signal does to a live subscriber of any reachable state, in terms of the log: the next event is sent at once, one that is ahead or the closing of the channel brings all that is owed, one it has changes nothing, a ping is a ping; only cancellation, a closed channel or a forgotten run end it. |
| RunLog.DeliveriesArrive | backend/internal/handler/run_handler.go:149-191 | Over every run, a client is past any event the channel delivered to it from then on, unless the run was forgotten or its look found a silently emptied log. |
| RunLog.NothingIsMissing | backend/internal/handler/run_handler.go:137-204 | Over every run in which no look skipped, the client was sent every event from where it started up to its cursor, or a gap and a snapshot that cover it. |
| RunLog.HolesAreSkips | backend/internal/handler/run_handler.go:99-204 | A client is led past an unannounced hole exactly if some look at the log was silent with events still held. |
| RunLog.AnnouncedRunsAreWhole | backend/internal/handler/run_handler.go:99-204 | Where the hub admits to every loss, cursors are contiguous but for announced gaps with their snapshots, and on channel close without an error the client has caught up. |
| RunLog.DrainedExactly | backend/internal/handler/run_handler.go:99-204 | A client that saw the channel close without an error has caught up, then and ever after, exactly unless its closing look found a log trimmed past its cursor that holds nothing and admits to no loss. |
| RunLog.EmptiedLogTellsNothing | backend/internal/service/run_hub.go:666-700 | By the hub's own rule one event that is no output can empty the log: a concrete run in which the client gets nothing and no gap. |
| RunLog.RunsAreServed | backend/internal/handler/run_handler.go:99-173 | In every run, what the subscriber was sent is what resuming writes for its look on opening and the signals that woke it since, and it listens on exactly if that loop would. |
| RunLog.ServeRun | backend/internal/handler/run_handler.go:99-204 | The handler serving the subscriber of any run: a client gets recorded events with strictly rising cursors, no unannounced hole unless a look skipped, and all that the run sent unless it goes away. Without a skip, one that stays was sent every event up to its cursor or told of the gap, and it is past every event that was delivered. |
| RunLog.TrimLocked | backend/internal/service/run_hub.go:666-700 | Drops the events the byte rule asks for; what stays is nothing, at most half the limit in stored events, or within the limit with the rebuilt output. Nothing is dropped within the limit, and the last event dropped had to go by one of the two rules. |
| RunLog.TrimsNoMore | backend/internal/service/run_hub.go:666-700 | The byte rule drops an event only from a cache over its limit, and only while the stored events are over a third of it or the cache is still over it. |
| RunLog.SilentTrimLeavesAHole | backend/internal/service/run_hub.go:666-700 | By that rule the first of two events that are no output is dropped, and a client at the start is led straight to the second: a concrete run. |
| RunLog.LookEvents | backend/internal/service/run_hub.go:452-472 | What the log returns past a cursor is the contiguous tail of the history it still holds. |
| Refinement.NextInv | backend/internal/agent/extract_summarizer.go:59-190 | Every step of every caller keeps the invariant: slots equal to their holders, breaker and failures in step. |
| Refinement.RunsKeepInv | backend/internal/agent/extract_summarizer.go:59-190 | For any number of concurrent callers at most two hold a slot, and at most two uncanceled failures are reported over the life of a summarizer. |
| Refinement.SlotsAreReleasedOnce | backend/internal/agent/extract_summarizer.go:66-76 | A caller that has left released exactly what it took, and only slots in use are released. |
| Refinement.DownStopsLaterCallers | backend/internal/agent/extract_summarizer.go:80-88 | Once the breaker is marked it stays so, and a caller that has not passed it by then never reaches the provider. |
| Refinement.Summarizer.Summarize | backend/internal/agent/extract_summarizer.go:59-157 | Among any other callers that act while it waits, while it holds its slot and while it is at the provider, one call is a walk of that machine with the specified steps of its own: it leaves with its slot given back, reaches the provider exactly if nothing stopped it, and marks the breaker exactly by an uncanceled failure. |
| Refinement.CalledExactly | backend/internal/agent/extract_summarizer.go:59-157 | The provider is called exactly by a call that gets a slot and finds neither its context done, nor the breaker down, nor a cooldown, and just once; a failure is reported and then marked. |
| Refinement.Summarizer.HoldSlot | backend/internal/agent/extract_summarizer.go:62-76 | The early release and the deferred one add up to exactly one on every path. |
| Refinement.Summarizer.AcquireRefinement | backend/internal/agent/extract_summarizer.go:159-169 | Waits through any turns of the others until a slot is free and takes exactly one, unless the caller is canceled first. |
| Refinement.Summarizer.WithSlot | backend/internal/agent/extract_summarizer.go:77-149 | With the slot held, the breaker, as the others have left it by then, is checked before the provider is reached. |
| Refinement.Summarizer.MarkRefinementUnavailable | backend/internal/agent/extract_summarizer.go:181-190 | A canceled caller does not mark the breaker; any other failure does. |
| AuthLimiter.RecordTells | backend/internal/handler/auth_rate_limiter.go:70-96 | Recording adds one failure, of the named account or of none, to what an entry stands for; an expired window starts it anew; the block is set exactly from the limit on. |
| AuthLimiter.RemoveTells | backend/internal/handler/auth_rate_limiter.go:126-145 | A reset takes exactly the account's share out of an entry, keeps every other, and the entry goes with its last failure. |
| AuthLimiter.BoundedSize | backend/internal/handler/auth_rate_limiter.go:13-17 | At most 2048 entries, and that many only with the overflow entry. |
| AuthLimiter.RecordedSound | backend/internal/handler/auth_rate_limiter.go:156-162 | Recording keeps the table sound and bounded, under the source's own key or, when full, the overflow key. |
| AuthLimiter.AuthRateLimiter.CleanupExpired | backend/internal/handler/auth_rate_limiter.go:164-176 | Removes exactly the entries past both window and block, at most once a minute unless forced. |
| AuthLimiter.AuthRateLimiter.Allow | backend/internal/handler/auth_rate_limiter.go:49-68 | Refuses exactly while the entry is blocked, with the time left; otherwise drops an entry whose window is over; the table stays sound. |
| AuthLimiter.AuthRateLimiter.RecordFailure | backend/internal/handler/auth_rate_limiter.go:70-96 | Adds exactly one failure of the account to one entry of the swept table; the table stays sound. |
| AuthLimiter.AuthRateLimiter.Reset | backend/internal/handler/auth_rate_limiter.go:98-109 | Takes the account's failures out of the source's own entry and nothing else. |
| AuthLimiter.AuthRateLimiter.RemoveAccountFailures | backend/internal/handler/auth_rate_limiter.go:126-145 | The shared removal step, with the whole new table. |
| AuthLimiter.AuthRateLimiter.ResetAccount | backend/internal/handler/auth_rate_limiter.go:111-124 | Takes the account's failures out of every entry, overflow included, and nothing else. |
| AuthRuns.RunsStayGood | backend/internal/handler/auth_rate_limiter.go:49-176 | Over any sequence of checks, failures and resets the table has at most 2048 entries, each with a failure and a window, and blocked exactly from the limit on. |
| AuthRuns.FailuresAreBounded | backend/internal/handler/auth_rate_limiter.go:70-96 | In any stretch of one window's length without a reset of the source, at most twice the limit less three of its failures go by before one blocks it. |
| AuthRuns.BoundIsReached | backend/internal/handler/auth_rate_limiter.go:82-84 | That many do go by, across the end of a window. |
| AuthRuns.LiftedExactly | backend/internal/handler/auth_rate_limiter.go:70-145 | Before its end a block is lifted exactly by a reset that takes enough of its failures, or by a failure that comes once the window is over. |
| AuthRuns.BlocksHold | backend/internal/handler/auth_rate_limiter.go:49-68 | A blocked source is refused by every check until its block ends, unless one of those lifts it. |
| AuthRuns.OverflowRefusesWhileFull | backend/internal/handler/auth_rate_limiter.go:156-162 | A source without an entry is refused exactly while the table is full and the overflow entry is blocked. |
| AuthRuns.OverflowForgets | backend/internal/handler/auth_rate_limiter.go:156-162 | So it is let in once the table shrinks, with the overflow entry still blocked: a concrete run. |
| MarkdownTable.EscapeIsPerCharacter | py-extractor/app/markdown_table.py:24-31 | The chained replacements are one substitution for each character: none of them rewrites what an earlier one wrote. |
| MarkdownTable.EncodeCellIs | py-extractor/app/markdown_table.py:24-31 | A cell is encoded as its stripped, newline-normalised text, character by character. |
| MarkdownTable.RowReadsBack | py-extractor/app/markdown_table.py:16-20 | Splitting a row line at unescaped pipes, trimming, undoing backslashes and entities gives back the row's texts. |
| MarkdownTable.InlineAll | py-extractor/app/markdown_table.py:28-31 | Undoing backslash escapes and entities inverts the encoding of every text. |
| MarkdownTable.SplitAll | py-extractor/app/markdown_table.py:28-31 | No character of an encoded text ends its cell. |
| MarkdownTable.WidthIsReached | py-extractor/app/markdown_table.py:12 | The common width is that of the longest row. |
| MarkdownTable.RoundTrip | py-extractor/app/markdown_table.py:6-21 | Reading a serialised table gives exactly the non-blank rows padded to one width (and a blank body row for a lone one), for all rows and all texts. |
| SoftWrap.MergeSoftWrappedProse | backend/internal/extractor/extract_impl.go:177-223 | The loop over lines, paragraph and fence computes the fold that the lemmas are about. |
| SoftWrap.ParagraphsBecomeLines | backend/internal/extractor/extract_impl.go:177-223 | For every text the result is its layout: each paragraph a line, fenced and structured lines as they are, blank lines between, trimmed and with no more than one blank line in a row. |
| SoftWrap.CollapseLeavesNoTriple | backend/internal/extractor/extract_impl.go:220-222 | Afterwards there are never three newlines in a row. |
| SoftWrap.CollapseKeepsTheRest | backend/internal/extractor/extract_impl.go:220-222 | A text without three newlines in a row is left as it is. |
| SoftWrap.JoinProseLines | backend/internal/extractor/extract_impl.go:281-290 | Joins a paragraph line by line. |
| SoftWrap.LinesMeet | backend/internal/extractor/extract_impl.go:292-318 | Two lines meet without their hyphen in a broken word, without a blank between CJK characters, before a closing and behind an opening mark, and with one blank else. |
| SoftWrap.JoinKeeps | backend/internal/extractor/extract_impl.go:292-318 | Joining two lines keeps all visible characters but the hyphen of a word broken between them. |
| SoftWrap.ParagraphKeeps | backend/internal/extractor/extract_impl.go:281-318 | So does joining a paragraph, where only the ends of its own lines matter. |
| SoftWrap.OnlyHyphensGo | backend/internal/extractor/extract_impl.go:307-309 | A line loses its final hyphen or nothing. |
| SoftWrap.OnlyBrokenWordsChange | backend/internal/extractor/extract_impl.go:177-223 | The visible characters of the result are those of the text minus exactly the line-end hyphens between ASCII letters of adjacent lines of one paragraph. |

## Left out

- ToolGovernance.InvokeTool: the sanitising of a structured tool failure and the texts of quota and tool errors are parameters; the usage rows and the log lines are left out, and so is a run without a budget, where the answer is passed on.
- ResultShortening.TruncateSkillListToolResult: takes the JSON encoder of a page as a parameter and the entries as decoded; entries that are no objects are not modelled.
- ResultShortening.BoundToolResultToTokens: what a result decodes to is a parameter.
- ToolBudget.RunBudget.BeforeModelRewriteState: the notice is its numbers, not its wording; the second entry point for agentic messages is the same operation.
- ToolBudget.BoundPaged: the arguments are decoded fields; decoding and encoding them is left out.
- StreamOutput.ConsumeStream: does not model failing emits (the chat run ignores them, `backend/internal/agent/eino_agent.go:562-565`), nor the message that arrives whole, which is the case of one chunk. Whether chunks join is a parameter.
- ToolHistory.CanonicalizeProducedMessagesWithPartial: stored messages are decoded records, so fields of an unexpected type are not told apart from absent ones.
- UserMerge.MergeConsecutiveUserMessages: messages are separate objects, as the callers build them; the backing arrays that appended part lists may share in Go are not modelled.
- UserMerge.BuildHistory: decoding the stored messages, attaching images, and dropping empty assistant messages happen before it and are left out.
- WebEvidence.GatherWebEvidence: the digest, the URL normaliser and the JSON decoders are parameters.
- EvidenceRender.BuildRecentWebToolContext: requires fewer than 2^63 mentions, as any history in memory has; appending the text to the latest user message is left out.
- Compaction.BuildCompactionSummaryBody: the extraction of the summary section from the model's output is a parameter.
- Compaction.RenderRecentVerbatimWithinTokenBudget: invalid UTF-8 is not modelled; texts are sequences of Unicode scalar values throughout.
- RunOutput.ResetUndoesAttempt: tool call events and the rebuilding of the cached output after a trim are left out.
- Refinement.Summarizer.Summarize: the prompt, the provider's stream and the durable cooldown lookup are observations of the caller; recording the outcome is left out. A wait that has not ended is the outcome StillWaiting.
- RunLog.TrimLocked: the encoded sizes of an event and of the rebuilt output are functions of the events, as parameters.
- AuthLimiter.AuthRateLimiter.Allow: trimming and lower-casing of the account is a parameter; a disabled limiter, which allows everything, is left out.
- MarkdownTable.RoundTrip: only the entities the writer uses are read, and inline constructs beyond backslash escapes and entities (code spans, emphasis, links) are not.
- SoftWrap.OnlyBrokenWordsChange: assumes the CJK class does not contain the ASCII hyphen, as in Unicode.
- HTTP and SSE plumbing, SQL repositories, the model bank, OCR leases, image processing, thinking-format tables, error-code mapping, prompts and the frontend.
- `removeMarkdownSection`: an immediately following section of the same title is kept by the code.
