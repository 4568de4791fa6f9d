# Gage, verified

Gage runs language-model agents: a loop asks a provider for an answer, runs the
tools the answer calls for, and feeds the results back until the model is done. A
run may pause for a person's approval, be stored as a checkpoint and be resumed
later; the conversation may be compacted; providers speak different wire formats
and may fail over to one another. This project models that machinery in Dafny and
proves what it is meant to guarantee.

`dafny verify dfyconfig.toml` checks the whole project.

## How the model is laid out

- **The agent run.** `Gage`, `Accumulate`, `ToolCalls`, `RunLog`, `Goroutines` and
  `AgentLoop` describe a run as a function of the outside world. A run is a log of its
  interactions: provider calls, accepted streams, issued and worked-on tool calls with
  the input they were executed on, deliveries that reached the consumer or were lost.
  Every reply of the world (provider, tools, hooks, approver, compactor, context,
  consumer) is an arbitrary function of the moment, the length of the log, so it may
  depend on the whole past in any way; a theorem that needs determinism says so. A
  turn's calls run one after the other or, with `MaxParallelTools` above one, as
  goroutines behind a semaphore and a mutex, interleaved as an arbitrary scheduler of
  the world chooses. `AgentRun` is the imperative form, an object whose fields each
  step updates, and every method of it is proved to do what the function says.
- **What a tool batch may be relied on for.** `ParallelBatch` proves the goroutines'
  invariants over every interleaving; `Batches` derives one contract that both ways of
  running a batch meet (what it adds to the log, and what its results stand for), and
  the theorems below rest on that contract, so they are about every run.
- **A run read off its log.** `Retries` (what follows an attempt that fails), `Reports`
  (what is accepted, and what a run makes of it and reports in the end), `Successions` (what
  each turn starts from, and why no turn follows the last), `Cancellation` (what is not done
  once the context is cancelled or a delivery not taken) and, for one call, `ToolAnswers`.
  Between them they say of every step of a run's log why it is there and what comes next, in
  terms of the streams, replies and results up to it.
- **Other theorems about whole runs.** `Pairing` (tool uses and results stay together),
  `Compactors` and `Elisions`, `RunFacts` and `Endings` (endings, usage, budget, number of
  streams), `RepeatGuard`, `Approvals` (nothing runs but what was allowed), `PauseResume`,
  `LostText` and `Visits` (pausing is unobservable, the final text apart, and comes to an
  end), `Decisions` (batches of decisions compose), `Transcripts` (where assistant messages
  come from).
- **Wire formats.** `Anthropic`/`AnthropicReplay` and `Gemini`/`GeminiReplay` (pump,
  accumulate, encode) over `Delivery`, and in whole runs `AnthropicRuns` and `GeminiRuns`;
  `AnthropicPump`, `GeminiPump` and `GeminiContents` state what pumps and encoder make of
  the wire's or the conversation's own history; `Sse`, `ToolAcc`, `Fallback`.
- **Self-contained algorithms.** `LineDiff`, `Snapshots`, `Wrap`, `StripComments`,
  `Recall` and `RecallAnswers`, over `Strings`, `Ordering` and `Numerals`.

## What turned out to be conditional

Ten properties one might expect hold only under a condition. Each is stated with the
exact condition and, where that is not plain from the statement, an input that fails:

- Every run on an input keeps its final text through its pauses if and only if the
  input has no assistant text (`LostText.TextKeptIff`): `LostText.PauseShows` builds,
  for any input, a run without a word whose pause brings the input's text up. Run by
  run, the texts agree unless the run itself produced none and the input has some
  (`PauseResume.FinalTextAfterPauses`). Everything else about the end is always the same.
- A call on a checkpoint is worked on again in a later round of decisions if and only
  if both rounds decide it and neither found a result on record under its id
  (`Decisions.WorkedOnAgainIff`). A post-tool hook that keeps or blanks the ids of
  results rules that out for every world, checkpoint and sequence of rounds, and of
  hooks that treat a result alike at any moment no other does (`Decisions.HookRepeatsIff`).
- A tool call that fails after its file was recorded leaves a change without an
  after-state. The undo of its turn is refused, for the turn's other writes too, if and
  only if a call failed on a file that exists and no call of the turn wrote
  (`Snapshots.UndoRefusedIff`); the theorems about histories ask that no turn be
  committed like that.
- Discarding a turn leaves the files its tools wrote. The undo and redo stacks still fit
  if and only if they mention no path the turn changed
  (`Snapshots.DiscardKeepsChainsIff`, and `Snapshots.DiscardBlocksUndo` for a file
  written again in a discarded turn); undoing everything then restores all other paths.
- A run announces its end once and last. Over a given provider that is the only ending
  the consumer of an undisturbed run ever sees if and only if the provider sends, before
  the first error of a stream, no done or paused event of its own
  (`Endings.OneEndingIff`); `Endings.TwoEndings` builds a run with two over any provider
  that does. Usage and budget do not depend on that.
- A message comes back from the Anthropic or Gemini round trip unchanged if and only
  if it is in a normal form (`AnthropicReplay.ReplayIdentityIff`,
  `GeminiReplay.ReplayIdentityIff`): for Anthropic, reasoning first, no empty text,
  no thinking both empty and unsigned, no signature that looks like the marker of
  redacted thinking, no two adjacent texts; for Gemini, thoughts signed, texts and calls
  unsigned, texts not empty, no two texts and no two thoughts adjacent. (A tool use
  always has an input, `{}` at least.)
- A signature the Gemini wire puts on a text or a function call does not survive: the
  turn comes back with the signatures of its thoughts and without those
  (`GeminiReplay.OnlyThoughtsKeepTheirs`, and `GeminiReplay.SignedCallComesBackUnsigned`
  for one such call).
- The event-stream parser agrees with section 9.2.6 of the WHATWG HTML Living
  Standard if and only if every event has data and is ended by a blank line
  (`Sse.MeetsTheStandardIff`); otherwise it delivers more events.
- A memory stored without an identifier is one more beside all others if and only if
  the identifier it gets is not held (`Recall.AnonymousAddsIff`); otherwise it takes that
  record's place, as `Recall.OwnersRecordReplaced` shows of an owner's own `mem_1`. From
  a given store on, no number of such memories can replace a record if and only if no
  identifier still to be made up is held (`Recall.NeverReplacesIff`), and owners who
  never use one keep it so (`Recall.CarefulOwnersLoseNothing`).
- The repeat guard takes two calls for the same if and only if their names and inputs
  are, of tools whose names hold no NUL (`RepeatGuard.SameCallIff`;
  `RepeatGuard.NamesWithNULCollide` has two calls that differ).

A smaller one: a line feed that is the very last byte of a comment that is never closed
is lost (`StripComments.LineNumbersKept`, exact).

## Model

| member | source | states |
|---|---|---|
| `Accumulate.AssistantAccum.DoTake` | agent/loop.go:502-545 | One event updates the accumulator's fields as the specification says; closing a thought that was never opened closes an empty one |
| `Accumulate.AssistantAccum.DoDelta` | agent/loop.go:464-470 | A delta of another kind closes the open run first |
| `Accumulate.AssistantAccum.DoFlush` | agent/loop.go:448-461 | Closing a run makes a part of it, unless it is empty and unsigned |
| `Accumulate.TakeAllSound` | agent/loop.go:438-500 | For every stream of events, the message text is what counts as the turn's text and the message's tool uses are the calls collected beside it |
| `Accumulate.TakeAllConcat` | agent/loop.go:502-545 | Accumulation may be cut anywhere in the stream |
| `Accumulate.DeltaNorm` | agent/loop.go:464-470 | A run of deltas amounts to one delta of their concatenation |
| `Transcripts.ConsumeTakesAll` | agent/loop.go:502-552 | A stream that is taken was taken whole: its message is what the accumulator makes of all its events |
| `ToolCalls.AnswersUnderOwnID` | agent/loop.go:634-756 | An answered call is answered under its own id whatever was rewritten, denied or panicked on the way, if the post-tool hook keeps or blanks ids |
| `ToolCalls.RunsOnlyWhenApproved` | agent/loop.go:634-756 | A tool runs on an input if and only if it is known and that very input was granted: the approver, shown the call as the pre-tool hook left it, allowed it, or the decision on record did, and the input is the one rewritten with the approval or else the one shown, valid; what comes back is what the tool made of it |
| `ToolAnswers.AnswersAsReference` | agent/loop.go:634-756 | Every call, decided or not, comes to what a reference says that goes through the gates in order (registry, hook, validation, approver, validation of what was granted, the tool): postponed, or answered with that outcome's own message, as an error unless the tool returned one that is none, through the post-tool hook with the call as it stood by then |
| `ToolAnswers.SuccessIsTheTools` | agent/loop.go:634-756 | Without a post-tool hook an answer that is no error means the tool ran and returned just that content |
| `ToolAnswers.RefusalTellsWhy` | agent/loop.go:634-756 | Without one, a call answered without running is answered with an error under its id that gives the gate's own reason |
| `ToolCalls.ExecToolTimeless` | agent/loop.go:634-756 | Tools and hooks that do not look at the moment, and approvers that say the same of the call they are shown, give the same reply at any moment |
| `ToolCalls.DecisionReplacesApprover` | agent/loop.go:687-740 | A recorded decision has the outcome an approver giving it on the spot would have had |
| `AgentRun.Agent.RunLoop` | agent/loop.go:28-302 | The loop over fields computes exactly the run specified: same log of interactions, same end |
| `AgentRun.Agent.ResumeLoop` | agent/loop.go:87-115 | The same for a resumed run, counters reset and usage carried over |
| `AgentRun.Agent.DoTurns` | agent/loop.go:146-302 | The turn loop, to its end or the turn limit |
| `AgentRun.Agent.DoTurn` | agent/loop.go:147-298 | One turn: proactive compaction, request hook, stream, tools |
| `AgentRun.Agent.DoAskAndAct` | agent/loop.go:200-234 | A turn's answer is absorbed; without tool calls the run is done |
| `AgentRun.Agent.DoAct` | agent/loop.go:224-240 | An answer without tool calls ends the run with its result; otherwise its tools are run |
| `AgentRun.Agent.DoAbsorb` | agent/loop.go:204-222 | Usage, stop reason, text and message of an accepted stream are taken in; an empty message is not |
| `AgentRun.Agent.DoStreamTurn` | agent/loop.go:308-357 | Attempts go on while errors are retryable and retries are left; the final error is forwarded as it came |
| `AgentRun.Agent.DoConsume` | agent/loop.go:502-552 | Events are relayed until an error event, a lost delivery or a dead context |
| `AgentRun.Agent.DoGuard` | agent/loop.go:244-265 | Counting repeats in place equals the guard's specification, across turns |
| `AgentRun.GuardStep` | agent/loop.go:247-264 | One call's effect on count, forced result and trip |
| `AgentRun.Agent.DoExecTools` | agent/loop.go:554-579 | The sequential batch: results and pending calls in call order, forced ones not executed |
| `AgentRun.Agent.DoExecParallel` | agent/loop.go:581-626 | The concurrent batch, under the world's schedule: nothing is returned if a delivery or the context failed, else results and pending calls in call order |
| `AgentRun.Agent.GatherSlots` | agent/loop.go:616-624 | Reading slots and pending marks in call order |
| `AgentRun.Agent.DoRunBatch` | agent/loop.go:554-626 | One call, or a limit of one, runs in sequence; everything else concurrently |
| `AgentRun.Agent.DoResumeToolBatch` | agent/loop.go:405-434 | Decided calls are executed, known results kept, all gathered in call order |
| `AgentRun.Agent.DoRunTools` | agent/loop.go:236-297 | Budget, guard, batch, pause or results, reactive compaction, in that order |
| `AgentRun.Agent.DoCompact` | agent/loop.go:123-134 | The compactor's messages and usage replace and add to the run's, then the budget is checked |
| `Pairing.PairedMeans` | agent/loop.go:286-288 | Reading a history group by group means exactly: every message with n uses is followed at once by its n answers in order, and no tool message stands elsewhere |
| `Pairing.PairedSuffix` | agent/compact.go:21-24 | A cut that does not land on a tool message separates no use from its result |
| `Pairing.RunKeepsPairing` | agent/loop.go:220-288 | Every provider call of a run, every result and every checkpoint of it is about a paired history opening with a user message |
| `Pairing.ResumeKeepsPairing` | agent/loop.go:107-110 | The same for a resume with any decisions, however many calls were already answered |
| `Pairing.ChainKeepsPairing` | agent/loop.go:87-115 | The same over any chain of pauses and resumes, each perhaps in another world |
| `Pairing.TurnsKeep` | agent/loop.go:146-302 | From any well-kept state the remaining turns keep the history paired |
| `Pairing.BatchAnswers` | agent/loop.go:554-626 | A batch with nothing pending, run either way, answers each call, in order, under its id |
| `Pairing.DecideCallsAnswers` | agent/loop.go:405-434 | A resumed batch with nothing pending has an answer under each call's id |
| `Compactors.Trim` | agent/compact.go:16-37 | The loop over the cut gives the first message, a note and the tail, and keeps a well-kept history so |
| `Compactors.Summarize` | agent/compact.go:43-98 | The same with a model-written summary; each failure is reported and leaves no history |
| `Compactors.CutSpec` | agent/compact.go:21-27 | The kept tail is the longest of at most `keep` messages that does not open on a tool result; something is dropped or nothing changes |
| `Compactors.ElideKeepsPairing` | agent/compact.go:29-33 | Eliding never separates uses from results, whatever the note says |
| `Compactors.CompactorsHonourContract` | agent/compact.go:16-98 | Both compactors meet the contract the whole-run theorem asks for |
| `Elisions.TrimSays` | agent/compact.go:16-37 | The first message and the kept tail, and between them a user note with the number of messages left out; the conversation as it is if none can be |
| `Elisions.SummarySays` | agent/compact.go:43-98 | Exactly the messages between the first and the kept tail are summarized; the note is the header and the summarizer's text deltas joined, at the usage it reports last; it fails on a refusal, on the first error, or on the context's error |
| `Elisions.OneCut` | agent/compact.go:18-27 | The cut is the one place at which at most `keep` messages stay, from the first of them that is no tool message, and something is left out |
| `RunFacts.RunEndsRight` | agent/loop.go:28-302 | Every run, in every world, gives a true account of its usage (the sum of accepted streams and compactions), keeps under a budget at every provider call and execution, and announces its end once, last and truly, unless the consumer left; before that an event that ends runs is only ever the event that many places into a stream that was opened, ahead of its first error |
| `RunFacts.ResumeEndsRight` | agent/loop.go:87-115 | The same for a resumed run, on top of the checkpoint's usage |
| `RunFacts.PausesUnderBudget` | agent/loop.go:236-239 | A checkpoint is only ever made below the budget, so a resume starts below it |
| `RunFacts.OneEndingAndLast` | agent/loop.go:62-86 | If no delivery was lost the agent's announcement was sent, last and true, and it is the only ending sent if no stream has one before its first error |
| `Endings.OneEndingIff` | agent/loop.go:502-552 | Over exactly the providers that send no ending of their own before the first error of a stream does every run that loses nothing have one ending |
| `Endings.TwoEndings` | agent/loop.go:502-552 | For any provider and any input it answers with an ending of its own, a run of one turn, nothing cancelled or lost, that has two endings |
| `Retries.RunRetries` | agent/loop.go:308-372 | Over a whole run: an attempt that fails, refused or at the first error of its stream, is followed at once by the same question as the next attempt if one is left, the error comes down to none of the four final ones and the context is live; else by the end of the run, on the context's error or on that failure; and no attempt is made again for any other reason |
| `Retries.ResumeRetries` | agent/loop.go:308-372 | The same of a resumed run |
| `Reports.RunReports` | agent/loop.go:200-297 | Over a whole run: what is accepted is the stream just opened, whole, with the usage it reports last; without tool calls the run ends on it, reporting the conversation asked about and its message, the latest text, the stop reason it gave last, all usage and its turn plus one; over the budget the run fails; else exactly its calls are issued; and a pause tells the same of the last stream |
| `Reports.ResumeReports` | agent/loop.go:87-115 | The same of a resumed run, on top of the checkpoint's usage and text |
| `Reports.FinishedSays` | agent/loop.go:225-231 | A finished run's turns, stop reason, text, messages and usage, each in terms of the last question asked and the stream it was answered with |
| `Reports.TakenIsSaid` | agent/loop.go:436-500 | The accumulator's text, stop reason, usage and calls are the stream's: its text deltas joined, what it gave last, its completed calls |
| `Successions.RunSucceeds` | agent/loop.go:117-302 | Over a whole run: the first turn is turn 0 on the input and each later one the next, on the conversation asked about before, its message and one result for each call, which is the repeat warning or what executing it gave when its step was logged; compacted exactly where that is due, after a batch by the usage reported and before asking by the estimate, and passed through the request hook; and calls no turn follows end the run for one of the reasons there are, the turn limit of sixteen unless set among them |
| `Successions.ResumeSucceeds` | agent/loop.go:87-115 | The same of a resumed run: it starts at the turn after the checkpoint's, on its messages and the results in call order |
| `Cancellation.RunHeeds` | agent/loop.go:502-626 | Over a whole run: no stream is accepted or asked for again and, one call at a time, no tool worked once the context is cancelled; what is logged as sent is what was taken; and a run ends in silence only under a live context, when something was not taken |
| `Cancellation.ResumeHeeds` | agent/loop.go:405-434 | The same of a resumed run, whose decided calls are worked under a live context always |
| `RunFacts.TurnsAskCount` | agent/loop.go:308-357 | Provider streams number at most the turns left times one more than the retries |
| `RunFacts.BudgetKept` | agent/loop.go:117-119 | Steps that spend nothing keep the account and the budget |
| `RunFacts.SpentSums` | agent/loop.go:204 | An account is figure by figure the sum of what the streams and compactions reported |
| `Transcripts.RunTranscribed` | agent/loop.go:200-222 | Without compaction, in every conversation a run asks about, hands out or ends with, each assistant message behind the input is what one earlier stream said, in the order the streams were opened |
| `Transcripts.ResumeTranscribed` | agent/loop.go:87-115 | The same of a resumed run, behind the checkpoint's messages |
| `RepeatGuard.RunGuarded` | agent/loop.go:244-265 | Over a whole run, sequential or concurrent, only the first R calls of a streak of identical ones are worked on, each once; in every batch the run did not end in, the next was answered with the warning and the warning delivered; and one more ends the run before any call of its batch is worked on |
| `RepeatGuard.ResumeGuarded` | agent/loop.go:143-144 | The same of a resumed run over the calls issued since: the counters start afresh and the decided calls are not counted |
| `RepeatGuard.GuardCounts` | agent/loop.go:247-264 | The guard's counter is the length of the streak over all calls issued so far, across turns |
| `RepeatGuard.GuardJudges` | agent/loop.go:254-263 | Call by call: forced exactly at R+1, tripped exactly beyond |
| `RepeatGuard.SameCallIff` | agent/loop.go:248-253 | Calls count as the same if and only if name and input are, of tools whose names hold no NUL |
| `RepeatGuard.NamesWithNULCollide` | agent/loop.go:248-253 | With a NUL in a name two different calls count as the same |
| `RepeatGuard.WorkedOnInBlock` | agent/loop.go:244-265 | In any block of identical calls, the executed ones are among its first R |
| `RepeatGuard.BatchRespected` | agent/loop.go:562-603 | A batch, run either way, whose forced entries are those of the guard works on each call at most once and only within the limit of its streak, counted over all turns |
| `Approvals.RunIsGated` | agent/loop.go:687-740 | Over a whole run, sequential or concurrent, whatever a tool was executed on had been granted, at that moment and for that very call |
| `Approvals.ResumeIsGated` | agent/loop.go:87-115 | A resumed run first executes what the decisions brought let through, only calls decided, and from then on what the approver does |
| `PauseResume.PausingUnobservable` | agent/loop.go:87-115 | A run that pauses any number of times, each visit perhaps in another world with the same provider, hooks and tools, decisions split in any way, ends as the run whose approver decided at once: same messages, stop reason, usage, turns or same error |
| `PauseResume.FinalTextAfterPauses` | agent/loop.go:389-398 | The final texts agree if and only if the run produced some text or the input has none |
| `LostText.TextKeptIff` | agent/loop.go:389-398 | All pausing runs on an input keep the direct run's final text if and only if the input has no assistant text |
| `LostText.PauseShows` | agent/loop.go:87-115 | For every input there is a run whose pause, once its call is allowed, ends on the input's last text where the direct run ends on none |
| `PauseResume.TurnsMatch` | agent/loop.go:275-288 | From alike states the pausing run reaches the direct run's end or a checkpoint leading to it |
| `PauseResume.ResumeMatch` | agent/loop.go:405-434 | Each visit to a paused run moves it towards the same end, or all the way |
| `PauseResume.OrderedByID` | agent/loop.go:428-432 | Listing known results in call order and indexing them again loses nothing |
| `Visits.PausesRunOut` | agent/loop.go:87-115 | Whatever the worlds of the run and of each visit do, if each visit decides all calls then pending, the run is no longer paused after as many visits as it has turns |
| `Visits.VisitedIsLast` | agent/loop.go:87-115 | Where the visits leave a run is where the chain of its runs ends |
| `Visits.PausingComesToTheEnd` | agent/loop.go:87-115 | With the forthright approver's decisions it has then come to the direct run's end |
| `Visits.EachDecisionCounts` | agent/loop.go:405-434 | A visit that decides some pending call ends the pause or leads to a later turn or to fewer pending calls of the same turn, if hooks keep ids |
| `Decisions.RoundsCompose` | agent/loop.go:405-434 | Deciding in two rounds is deciding in one with both sets, down to results and what is left |
| `Decisions.BatchDoes` | agent/loop.go:405-434 | A batch answers exactly the undecided calls it has a decision for, in call order, and says whether any are left |
| `Decisions.WorkedOnExactlyOnce` | agent/loop.go:405-434 | If hooks keep ids, over any rounds a call is executed or denied in the first round that decides it, once, and in no other, whatever the tools answer |
| `Decisions.RoundWorksOn` | agent/loop.go:405-434 | Whatever hooks do, a round works on exactly the calls it decides that have no result on record under their id, each once, in call order |
| `Decisions.LatestCounts` | agent/loop.go:406-409 | Of several results on record under one id the latest counts |
| `Decisions.WorkedOnAgainIff` | agent/loop.go:405-434 | A call is worked on in two rounds if and only if both decide it and neither finds a result on record under its id |
| `Decisions.WorkedOnTwiceIff` | agent/loop.go:405-434 | Two rounds, in terms of the checkpoint and the results the first one leaves |
| `Decisions.KeptIDsNeverRepeat` | agent/loop.go:652-657 | A hook that keeps or blanks ids rules out a second execution, whatever the world, the checkpoint and the rounds |
| `Decisions.HookRepeatsIff` | agent/loop.go:652-657 | Of hooks that treat a result alike at any moment, exactly those that keep or blank its id rule it out |
| `Decisions.Pending` | session.go:32-44 | The loop over a set of finished ids lists the calls without a result, in order |
| `Decisions.CompletedAndPendingPartition` | session.go:32-44 | Completed results and pending calls partition the calls, in order |
| `Decisions.RenamedCallRunsTwice` | agent/loop.go:652-657 | A hook that renames results, and a call it has executed twice |
| `ParallelBatch.AdvanceInv` | agent/loop.go:587-611 | Every step of any goroutine keeps the pool's invariant |
| `ParallelBatch.Progress` | agent/loop.go:587-611 | No deadlock: until all are done some goroutine can advance |
| `ParallelBatch.Exclusion` | agent/loop.go:591-609 | At most `capacity` goroutines are past the semaphore and one past the mutex |
| `ParallelBatch.EveryInterleaving` | agent/loop.go:587-612 | Every schedule keeps the invariant and runs the measure down |
| `ParallelBatch.AllFinish` | agent/loop.go:587-612 | Whatever the scheduler chooses, all goroutines finish |
| `ParallelBatch.EveryInterleavingIsChosen` | agent/loop.go:587-612 | Each complete interleaving is what some scheduler chooses, so a theorem for every scheduler is one for every interleaving |
| `ParallelBatch.AtMostSixStepsEach` | agent/loop.go:587-612 | No schedule is longer than six steps a call |
| `ParallelBatch.DeliveredOnce` | agent/loop.go:605-609 | Whatever the order of delivery, each answer goes out once |
| `Batches.BatchFacts` | agent/loop.go:554-626 | Either way of running a batch: only deliveries and work on unforced calls are logged, no call twice; if not cut short, each call came to the guard's answer or to what executing it gave at the very moment its step stands in the log, results and pending calls are those outcomes in call order and every answer was handed over; if cut short, a delivery or the context failed |
| `Batches.AnyTwoBatchesAgree` | agent/loop.go:554-626 | Two runs of a batch over the same tools, hooks and approver, all answering alike at any moment, have the same results and pending calls if neither is cut short, whatever the limits, schedules, moments and the rest of the two worlds |
| `Batches.ParallelRefinesSequential` | agent/loop.go:554-626 | So the concurrent batch has the sequential batch's results and pending calls, pre-tool hook or not, if neither is cut short |
| `Batches.ParallelSendsAPermutation` | agent/loop.go:605-609 | The results handed over by a concurrent batch are its results, each once, in whatever order |
| `ParallelBatch.Gathered` | agent/loop.go:616-624 | When all are done, slots and pending marks read in call order are the answers and the postponed calls in call order |
| `Anthropic.Pump` | providers/anthropic/stream.go:15-131 | The pump gives its consumer the specified events, or, if a send fails, those before it and, while the wire is being read, at most the report of that |
| `Anthropic.Handle` | providers/anthropic/stream.go:36-119 | One wire event updates the blocks in place as specified and sends at most one event |
| `AnthropicPump.PumpTells` | providers/anthropic/stream.go:15-147 | For every stream: the start, what each wire event makes known by what came before it for its block (its latest start, input and signature since), and then the first error, or the usage in which each figure is the start's or the last positive one since, if any was given, and the stop reason given last, where a tool call counts as one |
| `Anthropic.AssistantContent` | providers/anthropic/encode.go:132-171 | The encoder lists reasoning blocks first, then the others, each kind in order |
| `AnthropicReplay.StreamRebuilds` | providers/anthropic/stream.go:36-119 | The rebuilt message depends on the wire blocks alone, not on how content was cut into deltas, how blocks were numbered or where pings, unknown events and message deltas came, in the middle of a block too |
| `AnthropicReplay.FramesAreSilent` | providers/anthropic/stream.go:31-119 | Such events change neither the pump's blocks nor what it emits for them, wherever they come |
| `AnthropicReplay.BlockPumped` | providers/anthropic/stream.go:42-100 | One block, however cut, feeds the accumulator that block |
| `AnthropicReplay.ReplayPartitions` | providers/anthropic/encode.go:132-171 | A clean interleaved message is replayed as its stable partition, reasoning first |
| `AnthropicReplay.ReplayIdentityIff` | providers/anthropic/encode.go:132-171 | A message comes back unchanged if and only if it is clean with reasoning first |
| `AnthropicReplay.SignedReasoningSurvives` | providers/anthropic/stream.go:36-119 | Pump, accumulate, encode: same blocks, signatures and redacted payloads, exactly for such messages |
| `AnthropicRuns.RunSendsBack` | providers/anthropic/encode.go:132-171 | Over such a provider, in every conversation a run asks about each assistant message behind the input goes back as what its stream carried: read as any blocks the stream can be read as, it is encoded as exactly those if and only if they are clean with reasoning first, and as their stable partition if they are clean |
| `AnthropicRuns.ResumeSendsBack` | providers/anthropic/encode.go:132-171 | The same of a resumed run |
| `Gemini.Pump` | providers/gemini/stream.go:15-128 | The same over chunks and their parts |
| `Gemini.Handle` | providers/gemini/stream.go:65-107 | One part is relayed as specified, or up to the send that fails; a text or a call closes an open thought first |
| `GeminiPump.PumpTells` | providers/gemini/stream.go:15-148 | For every stream: the start, what each part makes known by the parts before it (an open thought ended with the signature given last, calls numbered from zero), and then the first error, or the end of an open thought, the usage given last and the stop reason |
| `Delivery.ReceivedIsPrefix` | providers/shared/send.go:12-19 | A consumer that stays has the whole stream, one that leaves a prefix of it and at most one report |
| `Delivery.ReceivedExactly` | providers/shared/send.go:12-19 | What has got through when the send at `k` is the first to fail: the events before it, and a report if something had been sent before, the wire was still being relayed and the report gets through |
| `Gemini.ToContents` | providers/gemini/encode.go:46-71 | The loop with its map of call names encodes each message with the names known by then |
| `GeminiContents.ContentsAreSent` | providers/gemini/encode.go:46-130 | For every conversation: its messages in order, each part as its role has it, a result under the name of the latest call of its id before it, or under that id when there is none or it has no name |
| `GeminiReplay.ThoughtsAreClosed` | providers/gemini/stream.go:36-44 | However a stream goes on or ends, every thought is closed before the next text or call; and before the end of a stream that does not fail |
| `GeminiReplay.StreamRebuilds` | providers/gemini/stream.go:46-128 | The rebuilt message depends on the pieces alone, not on how they were cut into parts and chunks |
| `GeminiReplay.ReplayIdentityIff` | providers/gemini/encode.go:96-130 | A turn comes back unchanged, its signatures included wherever the wire put them, if and only if it is in normal form |
| `GeminiReplay.SignedThoughtsSurvive` | providers/gemini/encode.go:96-130 | Pump, accumulate, encode: same thoughts, texts and calls, signatures included, exactly for such turns |
| `GeminiReplay.OnlyThoughtsKeepTheirs` | providers/gemini/stream.go:65-107 | A turn in normal form but for signatures on texts and calls comes back without those, and is unchanged only if there are none |
| `GeminiReplay.SignedCallComesBackUnsigned` | providers/gemini/stream.go:67-90 | One signed call is rebuilt and replayed without its signature |
| `GeminiReplay.ResultsFindTheirCall` | providers/gemini/encode.go:73-94 | Though call ids repeat from turn to turn, in a paired history each result is sent under the name of the call it answers |
| `GeminiReplay.ContentsByMessage` | providers/gemini/encode.go:46-71 | The contents are those of the messages one by one, with the names on record before each |
| `GeminiRuns.StreamIDsDistinct` | providers/gemini/stream.go:73-82 | No two calls of one stream have the same id, whatever arrives and however it ends |
| `GeminiRuns.ServedIDsDistinct` | providers/gemini/stream.go:73-82 | So a run over this wire meets what pausing asks of call ids |
| `GeminiRuns.RunSendsBack` | providers/gemini/encode.go:96-130 | In every conversation a run asks about each assistant message behind the input goes back as what its stream carried: read as any pieces the stream can be read as, it is encoded as exactly those if and only if they are in normal form, and without the signatures of texts and calls if they are but for those |
| `GeminiRuns.ResumeSendsBack` | providers/gemini/encode.go:96-130 | The same of a resumed run |
| `GeminiRuns.RunNamesResults` | providers/gemini/encode.go:73-94 | In every conversation a run asks about each tool result behind the input follows its call in order and is encoded under the name of that very call |
| `GeminiRuns.ResumeNamesResults` | providers/gemini/encode.go:73-94 | The same of a resumed run, the answers to the checkpoint's own calls included if their ids differ |
| `Sse.ScanSSE` | providers/shared/sse.go:23-83 | The loop over lines hands on exactly the events parsed, up to the done marker or the first refusal |
| `Sse.WriteSSE` | httpx/encode.go:20-36 | A frame is written in one piece or the first failing write stops it |
| `Sse.RoundTrip` | providers/shared/sse.go:23-83 | Whatever frames are written are scanned back exactly as written |
| `Sse.AllHandedOn` | providers/shared/sse.go:32-55 | All are handed on if and only if none is the done marker and none is refused |
| `Sse.ScanDistributes` | providers/shared/sse.go:23-83 | Scanning distributes over concatenation at a blank line |
| `Sse.MeetsTheStandardIff` | providers/shared/sse.go:23-83 | The parser finds the events of section 9.2.6, which has its own reading of lines, fields and the data buffer, if and only if every event is complete |
| `Sse.FieldAsStandard` | providers/shared/sse.go:58-70 | The parser reads a line as the standard does: comment, field name, value with one leading space removed, data buffered with a line feed |
| `Sse.DataLinesJoined` | providers/shared/sse.go:46-70 | Any number of data lines, comments and unknown fields anywhere between, are one event whose data is the values joined by line feeds |
| `Sse.HandsOnUpTo` | providers/shared/sse.go:32-80 | Handed on is everything before the first event that is the done marker or refused, and the refused one |
| `Sse.DoneIff` | providers/shared/sse.go:36-42 | The done marker is [DONE] with any space around it and nothing else |
| `ToolAcc.ToolAccumulator.Apply` | providers/openai/toolacc.go:30-61 | A fragment changes its own call's record only, and makes known what that call's own fragments call for |
| `ToolAcc.ToolAccumulator.Finish` | providers/openai/toolacc.go:64-82 | Completions of the named calls, in order of first arrival |
| `ToolAcc.EventsAreTheCallsOwn` | providers/openai/toolacc.go:30-61 | What an interleaved stream makes known of a call is what its own fragments alone would |
| `ToolAcc.FinishIgnoresInterleaving` | providers/openai/toolacc.go:64-82 | Completions depend only on each call's own fragments and the order of arrival |
| `ToolAcc.FirstArrivalFirst` | providers/openai/toolacc.go:31-36 | Of two calls in the order, the first has a fragment before any of the second |
| `ToolAcc.OneStartThenGrowingDeltas` | providers/openai/toolacc.go:44-59 | Nothing before the name is known, then one start, then deltas carrying ever longer prefixes of the final input |
| `ToolAcc.DoneExactlyWhenStarted` | providers/openai/toolacc.go:64-82 | One completion for exactly each started call, in order |
| `ToolAcc.ReassemblesAnyInterleaving` | providers/openai/toolacc.go:30-82 | However calls are cut into fragments and interleaved, finishing gives the calls back, an absent input as `{}` |
| `Fallback.Stream` | providers/fallback/fallback.go:34-61 | Uncancelled, the output is verbatim the stream of the first provider with content before an error, no later one asked, or one error, the last provider's; cancelled, it is a beginning of that |
| `Fallback.TryOne` | providers/fallback/fallback.go:68-111 | A provider is either relayed whole or nothing of it is sent and its failure is reported |
| `Fallback.YieldsIff` | providers/fallback/fallback.go:82-123 | A provider is relayed if and only if a text, reasoning, tool-call or message-done event comes before the first error of its stream |
| `Fallback.SilentIsSkipped` | providers/fallback/fallback.go:68-123 | A provider that only sends starts, usage and the like before it fails is as good as absent, if another comes after it |
| `Fallback.LastFailureTells` | providers/fallback/fallback.go:46-58 | When no provider says anything the output is the last one's failure: its refusal under its name, its first error, or that it ended without content |
| `Fallback.OneOutput` | providers/fallback/fallback.go:15-20 | The simple form determines the output |
| `Fallback.Outcome` | providers/fallback/fallback.go:34-61 | And there always is one |
| `Fallback.NestingIsFlat` | providers/fallback/fallback.go:21-26 | A failover provider among the providers of another is as good as its providers in its place |
| `LineDiff.LineDiff` | examples/gage-coding/diff.go:19-65 | The script accounts for every line of both texts in order, keeps a longest common subsequence, and no script for the job is shorter; refused exactly when a side is too long |
| `LineDiff.FillTable` | examples/gage-coding/diff.go:26-40 | Filling in place from the end gives the recurrence everywhere |
| `LineDiff.Walk` | examples/gage-coding/diff.go:42-63 | The walk spells both texts and keeps as many lines as the table says |
| `LineDiff.NoneLonger` | examples/gage-coding/diff.go:32-40 | No common subsequence is longer than the table says |
| `LineDiff.KeptIsCommon` | examples/gage-coding/diff.go:42-63 | The lines any script keeps are a common subsequence |
| `LineDiff.ShortestOfAll` | examples/gage-coding/diff.go:42-63 | A script keeping that many lines is as short as any |
| `LineDiff.JoinSplit` | examples/gage-coding/diff.go:71 | Splitting at newlines loses nothing, and no line holds one |
| `LineDiff.SameLinesIff` | examples/gage-coding/diff.go:67-72 | The lines compared, joined, are the text without the newlines at its end; two texts have the same lines exactly when they differ in those only and neither or both are empty |
| `Snapshots.SnapshotManager.ApplyTop` | examples/gage-coding/mutations.go:154-186 | A move is refused, changing nothing, unless every path is as recorded; else only the change set's paths change, and the set changes stacks |
| `Snapshots.SnapshotManager.CheckCurrentState` | examples/gage-coding/mutations.go:188-207 | Finds a path that differs if and only if there is one, in any order of visiting |
| `Snapshots.SnapshotManager.Apply` | examples/gage-coding/mutations.go:230-254 | Writing and removing path by path, in any order, gives the target workspace |
| `Snapshots.SnapshotManager.Commit` | examples/gage-coding/mutations.go:59-71 | A non-empty change set goes on the undo stack and clears redo; an empty one is dropped |
| `Snapshots.SnapshotManager.Discard` | examples/gage-coding/mutations.go:53-57 | The turn under way is forgotten; its files stay as they are |
| `Snapshots.SnapshotManager.RecordBefore` | examples/gage-coding/mutations.go:73-92 | Only the first state of a path in a turn is recorded |
| `Snapshots.SnapshotManager.RecordAfter` | examples/gage-coding/mutations.go:94-119 | The latest state is recorded beside the first |
| `Snapshots.ThereAndBack` | examples/gage-coding/mutations.go:230-254 | Undo and redo of a change set are inverse where both may be done |
| `Snapshots.HistoriesAreSound` | examples/gage-coding/mutations.go:47-119 | Over any history of turns, writes, failing calls, discards, undos and redos that commits no change left hanging and discards none the stacks mention, both stacks stay chained to the workspace, and the bottom of the history stays put on all paths but those turns were discarded with |
| `Snapshots.MovesAndBack` | examples/gage-coding/mutations.go:154-186 | n undos then n redos, or the reverse, restore everything, none being refused |
| `Snapshots.UndoAllRestores` | examples/gage-coding/mutations.go:154-186 | Undoing every turn gives back the workspace the history began on, but for the changes turns were discarded with |
| `Snapshots.CommitEndsRedo` | examples/gage-coding/mutations.go:66-67 | After a non-empty commit there is nothing to redo |
| `Snapshots.UndoRefusedIff` | examples/gage-coding/mutations.go:188-207 | After a turn of any writes and failing calls, undo is refused if and only if a call failed on an existing file no call wrote; otherwise it restores the workspace the turn began on |
| `Snapshots.DiscardKeepsChainsIff` | examples/gage-coding/mutations.go:53-57 | After discarding a turn the stacks fit the workspace if and only if they mention no path the turn changed |
| `Snapshots.ChainedElsewhereIff` | examples/gage-coding/mutations.go:188-207 | A stack that fits one workspace fits another if and only if it mentions no path on which the two differ |
| `Snapshots.DiscardBlocksUndo` | examples/gage-coding/mutations.go:53-57 | A file written in one turn and again in a discarded one: the first turn cannot be undone |
| `Snapshots.FailedCallBlocksUndo` | examples/gage-coding/mutations.go:400-420 | A write and a call that fails on another existing file: the write cannot be undone |
| `Wrap.WrapLine` | examples/gage-coding/markdown.go:73-116 | No line over the width, no ink lost or moved, a fitting line untouched, and as few lines as any breaking of the words when none is too long |
| `Wrap.PlaceWords` | examples/gage-coding/markdown.go:92-111 | The nested loops place words greedily, breaking overlong ones |
| `Wrap.PackIsBest` | examples/gage-coding/markdown.go:88-112 | No breaking has fewer lines than greedy packing, and one with as many has no shorter last line |
| `Wrap.PutWordsPack` | examples/gage-coding/markdown.go:88-112 | Placing words that fit is greedy packing |
| `Wrap.PutWordsKeep` | examples/gage-coding/markdown.go:88-112 | Placing words keeps every character and its order, within the width |
| `Wrap.LayoutKeeps` | examples/gage-coding/markdown.go:73-91 | All the spaces and tabs a line begins with are kept if that leaves room for four characters and dropped if not, and the words placed are those of the line however they are spaced |
| `Wrap.CutEvenly` | examples/gage-coding/markdown.go:92-103 | An overlong word is cut into pieces that fill their lines, and what is left of it |
| `Strings.FieldsAreTheWords` | examples/gage-coding/markdown.go:92 | The words of a text are those it is spelled with, however they are spaced |
| `StripComments.StripJSONComments` | examples/gage-coding/config.go:110-160 | The output is the rendering of the one well-formed reading of the input: strings and bytes copied, comments reduced to their line feeds |
| `StripComments.OneReading` | examples/gage-coding/config.go:110-160 | The grammar is unambiguous, so that reading is the only one |
| `StripComments.UnchangedIffCommentFree` | examples/gage-coding/config.go:110-160 | Stripping changes nothing if and only if there is no comment |
| `StripComments.Idempotent` | examples/gage-coding/config.go:110-160 | Stripping what was stripped changes nothing, for every input |
| `StripComments.LineNumbersKept` | examples/gage-coding/config.go:145-155 | Line feeds are all kept, except the last byte of a comment never closed |
| `Recall.Store.Remember` | memory/store.go:54-94 | Each refusal in its order, changing nothing; else the memory is stored under its own or a fresh identifier, with or without a vector |
| `RecallAnswers.OneRemembered` | memory/store.go:75-94 | Every other record stays, and the one remembered is the owner's memory but for the identifier and the time if it came without |
| `Recall.Store.Forget` | memory/store.go:208-220 | Exactly that record and its vector go; vector keys stay among record keys |
| `Recall.Store.RecallKeyword` | memory/store.go:165-205 | Whatever order the map is visited in, the answer is the first `limit` of the ranking |
| `Recall.Store.RecallSemantic` | memory/store.go:122-163 | The same by similarity of vectors, whatever the similarity; a record without a vector ranks last |
| `Recall.Store.Recall` | memory/store.go:99-117 | Ranked by vectors exactly when there is an embedder, the query is not blank and it embeds, else by words; a limit that is not positive means ten |
| `Recall.MemoryScore` | memory/store.go:242-265 | Ten points for the whole query and one for each of its words found |
| `Recall.MetadataString` | memory/store.go:289-306 | The metadata text lists the keys in order whatever order the map is visited in |
| `Recall.BestIsTop` | memory/store.go:188-199 | The answer is in order of score, age and identifier, as long as it can be, and nothing left out comes before anything returned |
| `Recall.OneBest` | memory/store.go:188-199 | Only one list is such an answer |
| `RecallAnswers.AnswerIs` | memory/store.go:165-205 | The answer is memories the query asks for (namespace, user, expiry, metadata), each above the next (score, then newer, then smaller identifier); what is asked for and left out has no word of the query or found no room, all of the answer being above it |
| `RecallAnswers.ScoreCounts` | memory/store.go:242-265 | The score is ten if the query occurs as a whole, and as many more as words of it occur, counted as a set of places; a blank query scores one |
| `Recall.BeforeOrders` | memory/store.go:188-196 | The comparison orders the candidates totally and strictly |
| `Recall.GeneratedIDsDiffer` | memory/store.go:83-86 | Two identifiers the store makes up are never the same |
| `Recall.AnonymousAddsIff` | memory/store.go:83-93 | A memory stored without an identifier is one more beside all others if and only if the identifier it gets is not held; else it takes that record's place |
| `Recall.CarefulOwnersLoseNothing` | memory/store.go:83-93 | Over any history of storing and forgetting by owners who use no identifier still to be made up, no memory without one replaces a record |
| `Recall.NeverReplacesIff` | memory/store.go:83-93 | From a given store on, memories without an identifier can replace no record if and only if no identifier still to be made up is held |
| `Recall.OwnersRecordReplaced` | memory/store.go:83-93 | An owner's own mem_1 is replaced by the first memory stored without an identifier |
| `Recall.OwnTextIsFound` | memory/store.go:242-258 | A query found in a memory's text, whatever the case, scores at least ten |
| `Ordering.OnlyOneOrder` | memory/store.go:188-196 | A set has one listing under a strict total order, so sorting cannot depend on the order of its input |
| `Ordering.StringLessIff` | memory/store.go:195 | Identifiers compare by the first character in which they differ, a proper prefix before what it begins |
| `Ordering.Sort` | memory/store.go:298 | Sorting distinct members gives that listing |
| `Numerals.DecimalInjective` | memory/store.go:85 | No two numbers print alike |

## Left out

- HTTP clients, OAuth login, MCP, web and shell tools, the terminal interface, `policy`, `pricing`, `skills`, `workflow`, `sessions` and the remembering approver: plumbing, or table lookups that would only add easy members.
- JSON encoding and decoding, and schema validation: tool inputs are opaque strings and validation an arbitrary function.
- Integer widths: counts, usage and `nextID` are unbounded; the source uses machine integers.
- Time: backoff delays, per-tool timeouts (a timeout is one more tool outcome) and the clock (a parameter of `Recall`) are not modelled.
- Wording of error results: each message the agent composes is a constructor of `Gage.Payload` or `Gage.Err` holding the values formatted into it; the text an error event carries beside its error is left empty.
- Events with a nil call or usage: an event of those kinds always carries one.
- A summary stream whose error event carries only text: the model wraps that text, where agent/compact.go:84 formats a nil error.
- Observers, run identifiers and the fields of a request other than its messages (model, tools, system prompt, options).
- Panics outside a tool, the pre-tool hook and the approver, in particular in the post-tool hook, which end the process.
- The context is looked at once at each point where the code checks it; two checks with nothing in between are one look.
- Goroutines.Advance: executing a tool is one step of its goroutine, with an arbitrary outcome of that moment; what two tools do to each other while both run is inside that outcome.
- PauseResume.PausingUnobservable: asks for no pre-tool hook, no compactor and no repeat guard, since resuming skips the first, does not do the paused turn's compaction and resets the counters of the last; and for a deterministic world.
- Update through references: `accCall`, `changeSet` and `fileChange` are values held in a field's map or sequence, so aliasing between them is not captured.
- Fallback.Stream: what a provider answers is fixed beforehand; that a cancelled context may change it is covered only by its being arbitrary.
- Request options: `applyThinking`, `applyOptions`, `applyPromptCache` and the user-side encoders of both providers.
- Pumps: they start from decoded events (the source skips a payload that does not decode).
- Sse.ScanSSE: reads characters, not bytes; the scanner's limit on the length of a line and invalid UTF-8 are not modelled.
- Lone carriage returns and a byte order mark: excluded from `Sse.MeetsTheStandardIff`, since the scanner only knows line feeds.
- Snapshots: the workspace is a map and writes succeed; symbolic links, permissions and the serialisation by a mutex are not modelled, and `resolve` is an arbitrary function.
- Diff styling: a script is a list of tagged lines; the colours and prefixes put on them are not modelled.
- Recall.Store.Recall: the similarity of two vectors is an arbitrary real function; its floating point is not modelled, a nil vector is an empty one, and the keyword ranking's lower-casing is an arbitrary map of characters.
- Snapshots.Op: a failing call leaves its file as it was.
- Ordering.Sort: stands for the library's sorts on distinct members, where stability cannot show.
