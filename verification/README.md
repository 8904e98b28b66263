# Krakey's heartbeat, verified

A Dafny model of the parts of Krakey whose correctness spans many steps: the heartbeat and the working memory
it drives, and the smaller machines around them. Classes follow the source's objects, methods its loops; each
method is proved against functions and predicates on values, and the properties over whole runs are lemmas
about those.

| file | what it models |
|---|---|
| `History.dfy`, `Compact.dfy`, `Handover.dfy`, `WindowRuns.dfy` | the sliding window and its file, eviction into graph memory, crashes and restarts, the backlog over beats |
| `Stimuli.dfy`, `Recall.dfy`, `Commands.dfy`, `Intake.dfy` | the stimulus buffer, the MemOS recall session, slash commands, and the path of every stimulus through them |
| `BeatRecords.dfy`, `Interrupts.dfy`, `Orchestrator.dfy` | one heartbeat with its retry and budget loops and the interrupts in them, and whole runs of heartbeats |
| `Dispatch.dfy`, `Sleep.dfy` | tool tasks and sleep requests, interleaved on one event loop |
| `Pause.dfy`, `Engine.dfy` | the pause file against a clock, and the engine loop that polls it and runs the heartbeats |
| `Fatigue.dfy` | the fatigue hint and the sleep gate |
| `SelfOutput.dfy`, `SelfModel.dfy`, `LogTee.dfy` | the section parser, the self-model merges, the line tee |
| `Imports.dfy`, `Graph.dfy`, `GraphEdges.dfy`, `GraphBuilder.dfy` | the architecture-graph builder |
| `Basics.dfy`, `Sorting.dfy`, `Decimal.dfy` | options, stable sorting, decimal numerals |

Everything foreign is a parameter that the proofs know nothing about: the token estimator, the prompt builder,
the memory search, every reply of an LLM, the fate of every write, what arrives in the buffer and who requests a
stop at every suspension of the heartbeat. A statement about a method is therefore a statement about all of them.

## What the code does not do

Each of these is proved, with the exact condition where there is one.

- A message that is only `/` makes the command reader raise, so it ends the beat and the loop
  (`Commands.CrashesOnABareSlash`, `Orchestrator.Runtime.Beat`). The doc comment promises `None`.
- Recall is seeded before commands are taken out, so a command of the batch goes back, to be obeyed again, exactly
  when recall is finalized, memory holds nothing for it and it has not gone back before
  (`Orchestrator.Runtime.Beat`, `Orchestrator.UncoveredReturns`); `Orchestrator.StatusReturns` is such a
  command.
- An urgent stimulus during a retry wait drains the buffer again. A stimulus of the beat's batch is then in the beat
  twice exactly when a reassembly goes on, memory held nothing for it and it had not gone back before; everything
  else is there once (`Interrupts.WhatSearchesDo`, `Orchestrator.Runtime.Beat`); `Interrupts.OneDoubled` is a case.
- A beat cut short by a command, by forced sleep or by an exception in compaction throws away what it drained: of a
  drained batch exactly the stimuli that are no commands get into a prompt, provided the beat recalls at all
  (`Interrupts.ShownExactly`, `Orchestrator.Runtime.Beat`).
- The saved round, the ingested feedback and the dispatch use the stimuli and the recall result from before
  pruning and reassembly (`Orchestrator.ReplyRecorded`, which `Orchestrator.Runtime.Beat` establishes).
- A sleep request that is a no-op keeps the old recall session, so the next beat's session may hold more than what
  it drained. It holds each drained stimulus once and nothing else exactly when all it held before was waiting
  (`Intake.SeededOnce`, `Orchestrator.Runtime.Beat`), which it is after an idle wait (`Intake.PeekedWaits`);
  `Intake.StaleSession` is a state in which it is not.
- A round split for its size drops its recall summary, and one with no other text is handed over as nothing
  (`Compact.SplitHandsOverTheText`). A compaction that raises loses its round (`Compact.CompactFollowsThePlan`).
- A popped round comes back after a crash exactly when the write of the pop failed and the file's copy survives
  the startup drop (`WindowRuns.PopThenCrash`). With one pop a beat the backlog does not shrink
  (`WindowRuns.OnePopNeverDrains`).
- A resume whose unlink fails leaves the pause in force (`Pause.ResumeNeedsTheUnlink`).
- `_deep_merge` associates exactly when no dict is replaced by a leaf and then by a dict that does not cover it
  (`SelfModel.MergeAssociative`).
- `_merge_defaults` keeps unknown keys below a key whose default is a scalar, exactly when a non-empty mapping sits
  there (`SelfModel.SchemaKeptIffConfined`); `SelfModel.SchemaEscapes` is such a document.
- Loading the self-model raises exactly on a truthy document that is no mapping and on a mapping whose `state` is
  there and is none (`SelfModel.LoadFails`); any other falsy document reads as the empty mapping.
- Both ends of every edge of the graph are emitted nodes exactly when, for each symbol of the table that a parsed
  file imports by name, the part of the symbol's id before `::` is an emitted node, folders included
  (`GraphEdges.ClosedExactly`); `GraphEdges.NotClosed` is a list of two files for which it is not. It holds when no
  path contains `::` or ends in a colon (`GraphEdges.PlainPathsEmitHeads`).

## Model

| member | source | states |
|---|---|---|
| History.SanitizePositiveInt | krakey/engines/explicit_history/sliding_window.py:53-61 | the result is positive for a positive default, is the given value when that is a positive integer, and otherwise the default; a boolean is never taken for a number |
| History.RoundTrip | krakey/engines/explicit_history/sliding_window.py:163-240 | whatever rounds are persisted are loaded back unchanged, whatever the library coercions do |
| History.SlidingWindow.constructor | krakey/engines/explicit_history/sliding_window.py:79-119 | a new window holds the last 2 x cap loadable rounds of its file, none without a file, and rewrites the file only when it dropped some |
| History.SlidingWindow.LoadFromDisk | krakey/engines/explicit_history/sliding_window.py:163-222 | loading replaces the rounds by the well-formed entries in order; every kind of unusable file leaves them alone |
| History.SlidingWindow.Persist | krakey/engines/explicit_history/sliding_window.py:224-263 | a write installs the complete current list or leaves the old file, and memory is untouched either way |
| History.StateFile.Replace | krakey/engines/explicit_history/sliding_window.py:239-257 | a replace installs the whole document or leaves the old one |
| History.SlidingWindow.Append | krakey/engines/explicit_history/sliding_window.py:121-123 | the round is added at the end and the new list is persisted |
| History.SlidingWindow.PopOldest | krakey/engines/explicit_history/sliding_window.py:128-137 | the front round is returned and its removal persisted before that; an empty window gives nothing and writes nothing |
| History.SlidingWindow.NeedsCompact | krakey/engines/explicit_history/sliding_window.py:139-159 | true exactly when the total of five token counts a round, or the number of rounds, exceeds its cap |
| History.PopsShape | krakey/engines/explicit_history/sliding_window.py:128-137 | n pops leave the list without its first n rounds, have evicted those in order, and leave on disk the list after the last successful write, or the old file if none succeeded |
| WindowRuns.LivesAreSound | krakey/engines/explicit_history/sliding_window.py:98-137 | over any appends, pops, crashes and write failures: rounds in memory and on disk are increasing serials of what was ever loaded or appended, evicted plus held is what was admitted since the restart, and the file holds the complete list of some past mutation |
| WindowRuns.PersistedPopNeverReturns | krakey/engines/explicit_history/sliding_window.py:128-137 | a round whose removal was written is never seen again, in memory or on disk, whatever follows |
| WindowRuns.PopThenCrash | krakey/engines/explicit_history/sliding_window.py:128-137 | a crash right after a pop resurrects the round if and only if the write failed and the file's copy survives the startup drop |
| WindowRuns.ReloadAfterWrite | krakey/engines/explicit_history/sliding_window.py:98-137 | after a successful write a restart brings back exactly the last 2 x cap rounds, or all of them |
| Compact.LeastFitIsLeast | krakey/engines/heartbeat/compact.py:166-187 | the least number of oldest rounds whose removal satisfies both caps: it does, and no smaller number does |
| Compact.EvictionIsExact | krakey/engines/heartbeat/compact.py:166-192 | an uninterrupted call leaves the longest suffix that fits, unless more is needed than its pop budget allows and the last round cannot be split: then it removes exactly the budget and at least two rounds stay, still over the cap |
| Compact.ChunksByCharBudget | krakey/engines/heartbeat/compact.py:132-138 | the loop cuts the text into the chunks of the specification |
| Compact.ChunksLossless | krakey/engines/heartbeat/compact.py:132-138 | the chunks concatenate to the text, none is empty or too long, and only the last may be short |
| Compact.SplitHandsOverTheText | krakey/engines/heartbeat/compact.py:141-163 | the chunks handed over concatenate to the round's joined text; nothing is handed over if and only if its four texts are empty, whatever its recall summary |
| Compact.Compactor.CompactRound | krakey/engines/heartbeat/compact.py:113-129 | one job per call, looked up by the first non-empty of stimulus, decision and note, with the recall summary only on request |
| Compact.CompactChunks | krakey/engines/heartbeat/compact.py:156-163 | the chunks are compacted in order up to and including the first that raises |
| Compact.SplitAndCompactSingleRound | krakey/engines/heartbeat/compact.py:141-163 | the oldest round is popped and its chunks are compacted up to and including the first that raises |
| Compact.CompactIfNeeded | krakey/engines/heartbeat/compact.py:166-192 | the loop pops, hands over and stops as the round-by-round specification says, with every pop persisted |
| Compact.CompactFollowsThePlan | krakey/engines/heartbeat/compact.py:166-192 | in closed form: a call walks the plan (whole rounds oldest first, then the chunks of a split one) up to and including the first job that raises, and pops exactly the rounds those jobs came from |
| Handover.CompactionHandsOver | krakey/engines/heartbeat/compact.py:166-192 | what a call hands over is exactly one share for each round it pops, oldest first, whether or not it raises: the round whole, or its chunks up to and including the first that raises |
| Handover.HandMore | krakey/engines/heartbeat/compact.py:179-187 | exact shares of successive evictions concatenate, so order and completeness carry over a run |
| Handover.WholeJobsHandOver | krakey/engines/heartbeat/orchestrator.py:860-890 | rounds pruned for the input budget are handed over whole, one job each |
| Handover.NoRoundVanishes | krakey/engines/heartbeat/compact.py:141-187 | at least as many jobs were handed over as rounds with any text left the window |
| WindowRuns.BeatGrowth | krakey/engines/heartbeat/orchestrator.py:259-264 | no beat lets the window grow past both its old size and one round over the cap |
| WindowRuns.BacklogBounded | krakey/engines/explicit_history/sliding_window.py:108-119 | from a start of at most 2 x cap rounds, every beat boundary of every run has at most 2 x cap |
| WindowRuns.StartBounded | krakey/engines/explicit_history/sliding_window.py:108-119 | construction gives such a start whatever the file holds |
| WindowRuns.BacklogDrainTime | krakey/engines/heartbeat/compact.py:179-187 | with at least two pops a beat, ceil((e - 1) / (max_pops - 1)) completed beats bring an excess of e down to at most one, whatever beats that did not complete come between them |
| WindowRuns.BacklogDrains | krakey/engines/heartbeat/compact.py:179-187 | every completed beat takes at least max_pops - 1 rounds off the excess until at most one is left, and no other beat adds to it |
| WindowRuns.OnePopNeverDrains | krakey/engines/heartbeat/compact.py:179-187 | with one pop a beat and the token cap kept, a completed beat that saves its round and prunes nothing for the input budget leaves the backlog as long as it was; with pruning it shrinks by what was pruned |
| Stimuli.StimulusBuffer.Push | krakey/runtime/stimuli/stimulus_buffer.py:48-52 | the stimulus joins the end of the queue and the adrenalin flag stays exact |
| Stimuli.StimulusBuffer.Drain | krakey/runtime/stimuli/stimulus_buffer.py:54-60 | everything is handed out once, by time, equal times in arrival order, and nothing stays |
| Stimuli.StimulusBuffer.PeekUnrecalled | krakey/runtime/stimuli/stimulus_buffer.py:62-66 | exactly what was never peeked at is returned, and it stays queued |
| Recall.RankingUnique | krakey/engines/recall/memos.py:107-110 | there is one ranking of the found ids by descending frequency and then first appearance, whatever sort produced it |
| Recall.Admit | krakey/engines/recall/memos.py:112-122 | the admitted nodes are the longest prefix within the budget, or the first alone |
| Recall.CoveragePartitions | krakey/engines/recall/memos.py:124-127 | covered and uncovered together hold every stimulus of the session exactly as often as it was added |
| Recall.RecallSession.AddStimuli | krakey/engines/recall/memos.py:82-89 | every stimulus is queried once, in order, each by a search of its own against the memory of its moment, and recorded as processed |
| Recall.RecallSession.Merge | krakey/engines/recall/memos.py:91-105 | the three dictionaries hold for each id its first node, its number of hits and its place by first appearance, and skip nodes without id |
| Recall.RecallSession.Finalize | krakey/engines/recall/memos.py:91-134 | the result is the ranked, deduplicated, longest affordable prefix, with the stimuli split in order |
| Recall.ResultUnique | krakey/engines/recall/memos.py:91-134 | those conditions leave one result |
| Recall.BatchingIrrelevant | krakey/engines/recall/memos.py:82-89 | feeding a session in any batches gives the queries of feeding it at once, as long as the searches find the same |
| Recall.SameResultHoweverBatched | krakey/engines/recall/memos.py:82-134 | sessions fed the same stimuli in different batches finalize to the same result |
| Commands.CrashesOnABareSlash | krakey/runtime/commands/commands.py:40-49 | reading a message raises if and only if the trimmed message is a single slash |
| Commands.ScanMeaning | krakey/engines/heartbeat/orchestrator.py:286-319 | kill or a bare slash, whichever comes first, ends the scan; otherwise all commands go, the rest keeps its order, sleep is asked for exactly when some message asked, and each informational command is answered in order |
| Commands.KeptAreNoCommands | krakey/engines/heartbeat/orchestrator.py:286-319 | what the scan keeps contains no command and comes from the batch |
| Commands.SurvivorsCount | krakey/engines/heartbeat/orchestrator.py:286-319 | what is no command survives as often as it was there, commands not at all |
| Commands.StatusIsRead | krakey/runtime/commands/commands.py:40-49 | `/status` reads as the status command |
| Intake.PushbackMeaning | krakey/engines/heartbeat/orchestrator.py:386-397 | of the uncovered stimuli exactly those never pushed back before go back, each once however often it is listed, and exactly their counters rise by one |
| Intake.BackExactly | krakey/engines/heartbeat/orchestrator.py:386-397 | a stimulus goes back once if it is uncovered and never went back before, and not at all otherwise |
| Intake.Inbox.WhatGoesBack | krakey/engines/recall/memos.py:124-127 | in terms of the searches: exactly the stimuli nothing was found for go back, unless they went back before |
| Intake.Accounted | krakey/engines/heartbeat/orchestrator.py:53-55 | whatever arrived was drained or waits, in total once plus once per pushback and so at most twice; what did not arrive is nowhere; nothing waits twice |
| Intake.SeededOnce | krakey/engines/heartbeat/orchestrator.py:334-338 | a session given what it has not seen of the drained batch holds each drained stimulus once and nothing else if and only if all it held before was waiting in the queue, each once |
| Intake.PeekedWaits | krakey/engines/heartbeat/idle.py:91-128 | which is so for what the idle wait peeked at |
| Intake.StaleSession | krakey/engines/heartbeat/orchestrator.py:334-338 | a state after a sleep that did nothing, in which it is not |
| Intake.Inbox.Await | krakey/engines/heartbeat/idle.py:62-86 | a suspension adds arrivals at the end of the queue and may raise the stop flag; it keeps the books balanced and changes nothing else |
| Intake.Inbox.DrainAndSeedRecall | krakey/engines/heartbeat/orchestrator.py:321-338 | everything queued is handed out in time order and entered as drained; the session searches for and gains exactly what it had not processed; it then holds each drained stimulus once and nothing else if and only if all it held was waiting |
| Intake.Inbox.FinalizeAndPushback | krakey/engines/heartbeat/orchestrator.py:386-397 | the result is the session's, the queue grows by exactly the stimuli nothing was found for that still have their retry, once each, and counters and books follow |
| Intake.Inbox.FreshRecall | krakey/engines/heartbeat/orchestrator.py:886-889 | the current session becomes a new one that searched for exactly these stimuli, finalized |
| Intake.Inbox.IdleWithRecall | krakey/engines/heartbeat/idle.py:91-128 | after any idle wait the session has processed exactly the peeked front of the queue, and nothing queued was lost |
| Intake.Inbox.WaitOrAdrenalin | krakey/engines/heartbeat/idle.py:31-88 | the answer is whether something urgent is queued, and nothing is drained or peeked |
| Intake.Inbox.HandleCommands | krakey/engines/heartbeat/orchestrator.py:286-319 | the loop keeps, obeys and answers as the scan says, raises the stop flag on kill, and only adds to the queue |
| Intake.Inbox.Obey | krakey/engines/heartbeat/orchestrator.py:303-318 | kill raises the stop flag, sleep asks for sleep, an informational command is answered once |
| BeatRecords.RecordSound | krakey/engines/heartbeat/orchestrator.py:898-907 | recording keeps the log at fifty entries and one per beat |
| BeatRecords.WithoutSleepMeaning | krakey/engines/heartbeat/orchestrator.py:715-720 | the dispatched calls hold no sleep call and every other call as often as before |
| BeatRecords.WithoutSleepAppend | krakey/engines/heartbeat/orchestrator.py:715-720 | filtering respects concatenation, so the order is kept |
| BeatRecords.NoSleepCalls | krakey/engines/heartbeat/orchestrator.py:715-720 | without a sleep call all calls stay |
| BeatRecords.NoSleepLeft | krakey/engines/heartbeat/orchestrator.py:715-720 | no call that is left is a sleep call |
| BeatRecords.DispatchedOnce | krakey/engines/heartbeat/orchestrator.py:740-750 | after what a beat dispatches the dispatches are still one per beat, in order, without sleep calls |
| Interrupts.BatchJoins | krakey/engines/heartbeat/orchestrator.py:545-556 | an interrupt whose commands let the beat go on takes in the whole queue, and the beat is about what it had and the rest of the batch |
| Interrupts.BatchEnds | krakey/engines/heartbeat/orchestrator.py:545-553 | an interrupt whose commands end the beat leaves what it was about |
| Interrupts.TakenInTwice | krakey/engines/heartbeat/orchestrator.py:441-506 | interrupts one after another take in the concatenation, the first that goes on the whole queue of the start |
| Interrupts.TakenInAgain | krakey/engines/heartbeat/orchestrator.py:537-556 | of the beat's batch a reassembly takes in again exactly what was pushed back, once; of anything else nothing twice |
| Interrupts.WhatSearchesDo | krakey/engines/heartbeat/orchestrator.py:386-589 | over one search: exactly the stimuli nothing was found for and never pushed back were pushed back; the last prompt is about the batch and all that was taken in, in order, but the commands; a stimulus is in it twice if and only if it is of the batch, was pushed back and a reassembly went on |
| Interrupts.OneDoubled | krakey/engines/heartbeat/orchestrator.py:537-556 | a beat whose last prompt holds a stimulus twice |
| Interrupts.ShownExactly | krakey/engines/heartbeat/orchestrator.py:237-263 | of a batch exactly the stimuli that are no commands get into a prompt, and none if the beat makes no prompt |
| Orchestrator.Runtime.constructor | krakey/runtime/runtime.py:650-667 | a runtime over a fresh window and inbox satisfies the invariant of whole runs |
| Orchestrator.Runtime.BuildSelfPrompt | krakey/engines/heartbeat/orchestrator.py:779-824 | only command-free stimuli reach the builder, which sees them with the given recall, the present window, the counts, the beat number and everything that changes with time |
| Orchestrator.Runtime.PruneOldest | krakey/engines/heartbeat/orchestrator.py:870-890 | the front round is popped and handed over even if that raises, recall is run afresh for the same stimuli, and the prompt is built from both |
| Orchestrator.Runtime.EnforceInputBudget | krakey/engines/heartbeat/orchestrator.py:826-896 | at most ten rounds leave, all from the front, each handed over; every prompt but the last was too long, and each next one is about the same with the oldest round gone; on return it fits, the window is empty or ten are gone; the prompt is the one built from the returned recall and the present window; recall is the given one if nothing was pruned and fresh for these stimuli otherwise |
| Orchestrator.PrunedTwice | krakey/engines/heartbeat/orchestrator.py:860-890 | prunings of one beat compose into one pruning from the front |
| Orchestrator.Runtime.RecordPrompt | krakey/engines/heartbeat/orchestrator.py:898-907 | one entry without output is added and the oldest beyond fifty dropped |
| Orchestrator.Runtime.FindEntry | krakey/engines/heartbeat/orchestrator.py:915-921 | the newest entry of the beat is found, or there is none |
| Orchestrator.Runtime.ReplacePrompt | krakey/engines/heartbeat/orchestrator.py:569-575 | the beat's entry is changed in place, as if it had been recorded with the new prompt |
| Orchestrator.Runtime.RecordRawOutput | krakey/engines/heartbeat/orchestrator.py:909-921 | the beat's entry gets the reply and keeps its prompt |
| Orchestrator.Runtime.PerformSleep | krakey/runtime/runtime.py:562-648 | a cycle that ran is counted, announced and resets recall; a failure is only announced; a no-op leaves counter, messages and session |
| Orchestrator.Runtime.TakeArrivals | krakey/engines/heartbeat/orchestrator.py:537-556 | everything queued is drained in time order; the beat is then about what it had followed by the batch without its commands; which command ends it, whether the reader raised and what was answered are as the scan of the batch says; only a stimulus pushed back before can join a second time |
| Orchestrator.Runtime.ReassembleOnAdrenalin | krakey/engines/heartbeat/orchestrator.py:519-589 | everything queued is drained, and the scan of its commands decides: either the stimuli with the new batch, recall and prompt are remade consistently and the beat's one log entry shows the new prompt, or kill, sleep or a bare slash ends the beat with window, prompts and log untouched |
| Orchestrator.Runtime.Ask | krakey/engines/heartbeat/orchestrator.py:441-477 | one attempt; only a complete reply received with the stop flag down is accepted, and it is logged with its prompt |
| Orchestrator.Runtime.WaitAndReassemble | krakey/engines/heartbeat/orchestrator.py:453-506 | after a wait the beat goes on unchanged only if nothing urgent is queued; otherwise everything queued was taken in, or its commands ended the beat; and only something urgent does either |
| Orchestrator.Runtime.KeepTrying | krakey/engines/heartbeat/orchestrator.py:441-506 | attempts follow one another until one ends the search, each starting from what the last reassembly left; the last prompt is about the first stimuli and all that the reassemblies drained, in order, but the commands; a search that was broken off was broken off by the commands of the last batch |
| Orchestrator.Runtime.RunSelf | krakey/engines/heartbeat/orchestrator.py:399-517 | whatever failures, malformed replies and reassemblies come before: an answer is the parse of the reply to the last prompt sent, has its required tags, and no stop was requested; the last prompt is about the given stimuli and all that was taken in since but the commands; every prompt sent fits the input budget, or was built over an empty window, or had ten rounds pruned for it; the log has exactly one entry for the beat, with that prompt and that raw text; heartbeat_count is not touched; no prompt was about a command |
| Orchestrator.Runtime.ApplyDecision | krakey/engines/heartbeat/orchestrator.py:633-750 | no decision or no translation dispatches nothing; otherwise one dispatch under this beat's number with the sleep calls taken out and the given recall nodes; sleep is granted exactly when the translation asks for it and energy is not high; each failure and refusal is told to Self once, in order |
| Orchestrator.Runtime.CarryOut | krakey/engines/heartbeat/orchestrator.py:715-750 | the gate and the dispatch for one translation |
| Orchestrator.Runtime.ComputeFatigue | krakey/engines/heartbeat/orchestrator.py:340-372 | the counts are the memory's node and edge counts, with the percentage of the counted nodes and the hint of the greatest threshold reached, the low-fatigue hint whenever the sleep gate would refuse |
| Orchestrator.Runtime.CompactPhase | krakey/engines/heartbeat/orchestrator.py:374-384 | compaction with this beat's pop budget; its exception is not caught here |
| Orchestrator.ConservedByCompaction | krakey/engines/heartbeat/compact.py:166-192 | a compaction call keeps evicted plus held, and what was handed over stays one exact share for each evicted round |
| Orchestrator.ConservedByPruning | krakey/engines/heartbeat/orchestrator.py:860-890 | so does pruning for the input budget |
| Orchestrator.Runtime.SaveRound | krakey/engines/heartbeat/orchestrator.py:591-600 | the round carries the beat's number, the reply and summaries of the given stimuli and recall |
| Orchestrator.Runtime.IngestFeedback | krakey/engines/heartbeat/orchestrator.py:621-631 | every tool feedback of the beat is offered to memory, in order, and nothing else |
| Orchestrator.Runtime.Listen | krakey/engines/heartbeat/orchestrator.py:237-240 | recall searches for the whole batch, commands included, as far as its session has not; the session then holds the batch, once each and nothing else if and only if all it held was waiting; what goes on holds no command, and the rest is obeyed as the scan says |
| Orchestrator.Runtime.RecallAndAsk | krakey/engines/heartbeat/orchestrator.py:261-263 | pushback and the retry loop of one beat: what was pushed back, what the interrupts took in, what the last prompt was about and how the search ended all agree |
| Orchestrator.Runtime.Think | krakey/engines/heartbeat/orchestrator.py:259-263 | compaction, pushback and the retry loop conserve every round and leave a window the backlog model allows; an exception in compaction leaves log, prompts, books and retries alone |
| Orchestrator.Runtime.Finish | krakey/engines/heartbeat/orchestrator.py:264-282 | the round saved and the feedback ingested are of the stimuli and recall given; exactly the translated calls but the sleep calls are dispatched; sleep is requested once if and only if it was asked for and energy is not high, and otherwise the session is the idle wait's |
| Orchestrator.Runtime.Work | krakey/engines/heartbeat/orchestrator.py:259-282 | from compaction to idling: one step of the backlog model, a completed one if and only if recall was finalized, with records that agree on one reply or with none |
| Orchestrator.Runtime.Respond | krakey/engines/heartbeat/orchestrator.py:250-282 | forced sleep exactly from the configured percentage on, leaving window, log and dispatches alone; the work of the beat below it; either is entered in the history as the step it is |
| Orchestrator.Runtime.Act | krakey/engines/heartbeat/orchestrator.py:241-282 | the outcome of a beat is what the scan of its batch, the fatigue threshold and the search make of it |
| Orchestrator.WhatBeatsDo | krakey/engines/heartbeat/orchestrator.py:220-282 | the books of a beat: what it drained, what it pushed back, what its last prompt was about and how often, and which of its stimuli got into a prompt |
| Orchestrator.Runtime.Beat | krakey/engines/heartbeat/orchestrator.py:220-282 | everything queued is taken up once, and the session holds it once and nothing else if and only if all it held was waiting; which command or threshold cuts the beat short, and that window, log, prompts and dispatches are then untouched; what was drained and, exactly, what was pushed back; the last prompt is about the batch and all that its interrupts drained, in order, but the commands, with the exact condition for one being there twice; exactly the non-commands of the batch get into a prompt, if the beat recalls; its records agree on one reply, the dispatch is the translated calls but the sleep calls, sleep is requested exactly in the sleeping outcomes, the last prompt was within the input budget as far as pruning goes, the window takes one step of the backlog model, a completed one if and only if recall was finalized, and the invariant of whole runs is kept |
| Orchestrator.Runtime.WhatRunsKeep | krakey/engines/heartbeat/orchestrator.py:220-282 | between any two beats of any run: at most 2 x cap rounds, and at most one over the cap after enough completed beats with two pops or more; evicted plus held is loaded plus saved; what left was handed to compaction in that order, exactly one share each, whole or in its chunks up to the first that raised; every stimulus that arrived was drained or waits, at most once again; one log entry and one dispatch per beat; no sleep call in any dispatch; no command in any prompt; every prompt ever sent fits the input budget, or has an empty window, or had ten rounds pruned for it |
| Orchestrator.UncoveredReturns | krakey/engines/heartbeat/orchestrator.py:391-396 | a stimulus of the session, command or not, goes back into the buffer if and only if nothing was found for it and it never went back before |
| Orchestrator.StatusReturns | krakey/engines/heartbeat/orchestrator.py:391-396 | a `/status` with an empty memory does |
| Dispatch.CallIdsDiffer | krakey/engines/dispatch/dispatcher.py:82-84 | ids of different beats or positions differ over the whole run |
| Dispatch.EveryScheduleIsLegal | krakey/engines/dispatch/dispatcher.py:76-144 | in every interleaving each id is registered once, then fed, then marked, once each, and a batch completes only when the feedback of everything registered is in the buffer |
| Dispatch.EveryScheduleWakes | krakey/runtime/stimuli/batch_tracker.py:36-56 | whenever nothing is outstanding, a wake-up was pushed after the last registration and mark |
| Dispatch.FinishedScheduleIsAnnounced | krakey/runtime/stimuli/batch_tracker.py:36-56 | once every spawned task ended, all were fed and marked, nothing is outstanding, and Self was woken last |
| Dispatch.Dispatcher.DispatchToolCalls | krakey/engines/dispatch/dispatcher.py:76-87 | the loop spawns one task per call under its own id and registers them all in the same stretch |
| Dispatch.Dispatcher.BeginBeat | krakey/engines/heartbeat/orchestrator.py:226-227 | the next beat has a number of its own, whatever is still outstanding |
| Dispatch.Dispatcher.BeginTask | krakey/engines/dispatch/dispatcher.py:89-102 | an unknown tool is answered at once |
| Dispatch.Dispatcher.ToolFinished | krakey/engines/dispatch/dispatcher.py:118-143 | the result, or an urgent error, is pushed before the mark |
| Dispatch.Dispatcher.MarkDone | krakey/runtime/stimuli/batch_tracker.py:42-56 | the id leaves the outstanding set, and the last one to leave wakes Self |
| Sleep.EveryScheduleIsSound | krakey/engines/memory/default.py:290-369 | for any interleaving of explicit, automatic and runtime requests at most one pipeline is in flight, the flag is up exactly then, and both counters are exact |
| Sleep.CyclesBalance | krakey/runtime/runtime.py:587-648 | the engine's count is the runtime's, plus runtime cycles not yet resumed, plus the others' cycles; so the runtime never counts more |
| Sleep.CoalescedIsNoOp | krakey/engines/memory/default.py:306-310 | a request during a cycle, or without an LLM, changes nothing and returns the empty result |
| Sleep.AutoSleepRechecks | krakey/engines/memory/default.py:351-369 | after the node count came back, an automatic cycle starts if and only if the threshold is reached and none is in flight by then |
| Sleep.MemoryEngine.BeginSleep | krakey/engines/memory/default.py:306-311 | the flag goes up only for a request that enters |
| Sleep.MemoryEngine.EndSleep | krakey/engines/memory/default.py:333-349 | the flag comes down on success and failure, and only success counts |
| Sleep.EventLoop.Start | krakey/engines/memory/default.py:351-369 | a request goes straight to the engine, or first through the gate of the storage path |
| Sleep.EventLoop.NodesCounted | krakey/engines/memory/default.py:365-367 | the counted nodes decide, on the flag as it then is |
| Sleep.EventLoop.NodeCountRaised | krakey/engines/memory/default.py:365-369 | an exception of the node count is caught, and nothing happens |
| Sleep.EventLoop.PipelineEnded | krakey/engines/memory/default.py:333-349 | each caller sees its own outcome: stats, an exception, or nothing on the storage path |
| Sleep.EventLoop.TriggerReturns | krakey/runtime/runtime.py:587-648 | a truthy result is counted and resets recall once, a failure is only reported |
| Pause.RunFaithful | krakey/runtime/_pause_io.py:13-39 | after any run the file says what the last command in force asked for, unless that was a timed pause that is over |
| Pause.PollMeetsSpec | krakey/runtime/runtime.py:819-867 | after any run a poll that can read sets the flag to the specification: indefinitely paused, or a deadline still ahead |
| Pause.ExpiredStaysExpired | krakey/runtime/runtime.py:859-865 | once a pause is over no poll pauses again until a new pause, even if the stale file could not be removed |
| Pause.ResumeNeedsTheUnlink | krakey/runtime/runtime.py:892-901 | after a resume and a poll it is still paused if and only if the unlink failed and a pause was in force |
| Pause.PauseControl.PollPauseFile | krakey/runtime/runtime.py:819-867 | one poll is one step of the protocol; without a file the flag stays |
| Pause.PauseControl.SetPauseFile | krakey/runtime/runtime.py:805-817 | to stop watching a file is to stop being paused; watching another leaves the flag |
| Pause.PauseFile.Write | krakey/runtime/_pause_io.py:13-27 | the file says indefinite, or the deadline counted from now |
| Pause.PauseFile.Clear | krakey/runtime/_pause_io.py:30-39 | the file is gone, or unchanged when the unlink failed |
| Pause.PauseControl.RequestPause | krakey/runtime/runtime.py:877-890 | applied exactly when a file is configured, as a pause followed by a poll |
| Pause.PauseControl.RequestResume | krakey/runtime/runtime.py:892-901 | applied exactly when a file is configured, as a resume followed by a poll |
| Engine.PollOnce | krakey/runtime/runtime.py:819-867 | one poll shows what the clock and the commands since the last poll made of the control file |
| Engine.BeatOnce | krakey/engines/heartbeat/default.py:113 | one beat is one act of the loop and one step of the backlog model, completed if and only if recall was finalized |
| Engine.Run | krakey/engines/heartbeat/default.py:96-116 | for any turns: the invariant of whole runs holds; every beat follows a poll that saw neither stop nor pause, and none follows an exception; what the polls saw is what the clock and the commands made of the control file; at most `iterations` beats run, one for a value below one; it returns only with the stop flag up or after exactly that many; with at least two pops a beat, ceil((e - 1) / (max_pops - 1)) beats that finalized recall bring an excess of e down to at most one |
| Engine.Drained | krakey/engines/heartbeat/compact.py:179-187 | the drain time, for the beats of a run |
| Fatigue.FatigueHint | krakey/engines/heartbeat/fatigue.py:24-41 | the text of the greatest threshold reached, the low-fatigue text below all of them, nothing without thresholds |
| Fatigue.MinimumThreshold | krakey/engines/heartbeat/orchestrator.py:729-736 | the least key of a non-empty map |
| Fatigue.RefusesSleep | krakey/engines/heartbeat/orchestrator.py:727-730 | a requested sleep is refused if and only if there are thresholds and none is reached |
| Fatigue.GateAgreesWithHint | krakey/engines/heartbeat/orchestrator.py:721-739 | refusal comes only with the low-fatigue text, and permission with the text of a reached threshold or with none |
| SelfOutput.SplitIsLossless | krakey/self_agent.py:27-60 | the preamble, then every tag as spelled and its body, rebuild the raw text; no preamble and no body contains a tag |
| SelfOutput.PrintThenSplit | krakey/self_agent.py:27-60 | printing any tag-free preamble and spelled tags with tag-free bodies, then splitting, gives them back |
| SelfOutput.FindIter | krakey/self_agent.py:50-51 | the leftmost non-overlapping matches, in order |
| SelfOutput.SplitSections | krakey/self_agent.py:50-60 | the match positions and slices give for each tag the last body of the reference split |
| SelfOutput.LastBodyWins | krakey/self_agent.py:55-59 | a tag's last occurrence decides its body |
| SelfOutput.ParseIntReadsBack | krakey/self_agent.py:63-65 | an integer written into text without earlier digits or a minus before it, and without a digit after it, is read back |
| SelfOutput.ParseIntFindsADigit | krakey/self_agent.py:63-65 | a number is found if and only if there is a digit |
| SelfOutput.ParseSelfOutput | krakey/self_agent.py:32-47 | the parsed reply is the one of the reference split, with the whole body as thinking and decision when there is no tag |
| SelfOutput.ParsedReply | krakey/self_agent.py:32-47 | a printed reply parses to exactly its tags, and each tag's last body, trimmed, is its field |
| SelfModel.MergeIdempotent | krakey/models/self_model.py:61-68 | applying a delta twice is applying it once |
| SelfModel.MergeKeepsUntouched | krakey/models/self_model.py:61-68 | every path the delta does not reach keeps its base value |
| SelfModel.MergeAppliesDelta | krakey/models/self_model.py:61-68 | a leaf of the delta, or a dict where the base has none, is the result there |
| SelfModel.MergeAssociative | krakey/models/self_model.py:61-68 | merging three documents associates if and only if no dict is replaced by a leaf and then by a dict that does not cover it, at any depth, where covering is having every key and, below dicts on both sides, covering again |
| SelfModel.MergeNotAssociative | krakey/models/self_model.py:61-68 | three documents on which it does not |
| SelfModel.CoveredVanishes | krakey/models/self_model.py:61-68 | a document vanishes under a merge if and only if the delta covers it |
| SelfModel.DefaultsIdempotent | krakey/models/self_model.py:107-125 | overlaying the defaults twice is doing it once |
| SelfModel.DefaultsBoundPaths | krakey/models/self_model.py:107-125 | every path of the result is a schema path or continues inside a loaded dict that sits on a schema leaf |
| SelfModel.PastLeafSurvives | krakey/models/self_model.py:107-125 | every path of the second kind is there, and is no schema path |
| SelfModel.SchemaKeptIffConfined | krakey/models/self_model.py:107-125 | the result keeps to the schema's paths if and only if no non-empty loaded dict sits on a schema leaf |
| SelfModel.SchemaEscapes | krakey/models/self_model.py:107-125 | a document on which it does not |
| SelfModel.LoadFails | krakey/models/self_model.py:88-104 | loading raises if and only if the document is truthy and no mapping, or is a mapping with `state` present and not a mapping |
| SelfModel.SelfModelStore.Load | krakey/models/self_model.py:41-45 | the document, the empty mapping when it is falsy, or the defaults when there is none |
| SelfModel.SelfModelStore.Update | krakey/models/self_model.py:54-58 | the merged document is stored and returned; merging anything into a document that is no mapping raises and stores nothing |
| SelfModel.SelfModelStore.LoadSelfModelOrDefault | krakey/models/self_model.py:71-104 | a missing file gives the defaults and is not created; a document that cannot be cleaned raises and leaves the file; any other file is rewritten exactly when cleaning changed it, and the result is a fixed point of cleaning |
| SelfModel.LoadTwice | krakey/models/self_model.py:71-104 | two loads write at most once and return the same |
| LogTee.AppendText | krakey/plugins/dashboard/log_capture.py:49-58 | cutting loses nothing, and no line and no rest contains a newline |
| LogTee.AppendTwice | krakey/plugins/dashboard/log_capture.py:42-58 | cutting piecewise is cutting the concatenation |
| LogTee.CutIsUnique | krakey/plugins/dashboard/log_capture.py:49-58 | newline-free lines and rest are recovered from their text, so there is one cut |
| LogTee.Partition | krakey/plugins/dashboard/log_capture.py:52-53 | the text is the first line, a newline and the remainder, or has no newline |
| LogTee.Tee.DoWrite | krakey/plugins/dashboard/log_capture.py:42-58 | a write of any argument emits exactly the lines it completes, keeps the rest, leaves the other stream alone and returns the number of characters; the drain loop ends |
| LogTee.LogCapture.OnLine | krakey/plugins/dashboard/log_capture.py:102-111 | the ring holds the last `history_size` lines emitted by either stream, in order |
| LogTee.LogCapture.Recent | krakey/plugins/dashboard/log_capture.py:110-111 | the last `history_size` emitted lines |
| LogTee.Replay | krakey/plugins/dashboard/log_capture.py:80-111 | for any writes to the two streams, each stream's lines and residual are the batch split of its text, and `recent` is the last `history_size` lines of an interleaving that keeps both orders |
| Imports.DotsClimb | docs/scripts/build_arch_graph.py:76-98 | one dot is the file's package and every further dot its parent; too many leave the base alone |
| Imports.RelativeNameResolves | docs/scripts/build_arch_graph.py:76-98 | anything sharing its first parts with the file's package has a relative name, and it resolves to itself |
| Imports.CollectImports | docs/scripts/build_arch_graph.py:101-137 | the dictionary binds each imported name once, to the target of its last import, and star imports bind nothing |
| Imports.LastImportWins | docs/scripts/build_arch_graph.py:112-137 | the last import of a name decides |
| Graph.DedupedUnique | docs/scripts/build_arch_graph.py:306-310 | node ids are unique |
| Graph.ChainEndsAtRoot | docs/scripts/build_arch_graph.py:312-399 | in a tree of nodes every chain of parents ends at `krakey` |
| Graph.NodesFormATree | docs/scripts/build_arch_graph.py:312-399 | whatever the files: unique ids, every parent an earlier node, every chain of parents ending at the root |
| GraphEdges.EdgesUnique | docs/scripts/build_arch_graph.py:420-436 | no self-edge and no repeated (source, target, kind); the id is the position |
| GraphEdges.EdgeIdsDiffer | docs/scripts/build_arch_graph.py:427-431 | edge ids are unique |
| GraphEdges.TargetsAreNodes | docs/scripts/build_arch_graph.py:401-415 | everything a name can resolve to is an emitted node |
| GraphEdges.ClosedExactly | docs/scripts/build_arch_graph.py:449-457 | for the files given, folder nodes included: every edge endpoint is an emitted node if and only if the part before `::` of every symbol a parsed file imports by name from the table is one |
| GraphEdges.AlwaysClosedExactly | docs/scripts/build_arch_graph.py:449-457 | whatever the files import, every edge endpoint is an emitted node if and only if the part of every symbol id before `::` is one |
| GraphEdges.NotClosed | docs/scripts/build_arch_graph.py:449-457 | two files in a folder whose name contains `::`, one importing a class of the other, for which it is not |
| GraphEdges.PlainPathsEmitHeads | docs/scripts/build_arch_graph.py:268-285 | which is so when no file id contains `::` or ends in a colon |
| GraphBuilder.Builder.AddNode | docs/scripts/build_arch_graph.py:306-310 | the list stays what first-wins deduplication leaves of everything offered |
| GraphBuilder.Builder.AddEdge | docs/scripts/build_arch_graph.py:420-436 | the list stays the offered edges without self-edges and repetitions |
| GraphBuilder.Builder.SortedFolders | docs/scripts/build_arch_graph.py:312-324 | exactly the folders above the files and the root, shallow ones first |
| GraphBuilder.Builder.AddFiles | docs/scripts/build_arch_graph.py:342-399 | the nested loops offer each file, its classes with their methods, and its functions, in order |
| GraphBuilder.Builder.FillTargets | docs/scripts/build_arch_graph.py:401-415 | the loops fill the symbol table, later files and names winning |
| GraphBuilder.Builder.AddFileImports | docs/scripts/build_arch_graph.py:446-457 | a whole-module edge and a symbol edge for each import that has them |
| GraphBuilder.Builder.AddRefs | docs/scripts/build_arch_graph.py:483-490 | each reference becomes an edge to its symbol, or to the class before the dot |
| GraphBuilder.BuildGraph | docs/scripts/build_arch_graph.py:291-510 | the loops build the deduplicated nodes of some folder order and the kept edges of all imports and references |
| GraphBuilder.GraphIsSound | docs/scripts/build_arch_graph.py:291-510 | every built graph is a duplicate-free tree under one root with distinct, irreflexive edges, whose endpoints are all emitted nodes if and only if the heads of all symbols imported by name are |

## Left out

- The LLM, embedder and reranker calls, HTTP, the dashboards, channels, plugins, sandboxes, the wizard and the CLI: foreign calls and plumbing, which appear only as outcomes.
- The text of prompts and notices, the real token estimate, and how the time, the self-model, the capabilities and the modifiers get into a prompt: the builder is any function of stimuli, recall, rounds, counts, beat number and the suspension at which it is called.
- Lengths of waits and the fast and slow retry tiers: a wait lasts any number of polls. The retry loop is observed up to an arbitrary suspension; every statement about it holds for each such prefix.
- Suspensions are modelled once per phase call rather than once per inner await; other tasks only push stimuli and request stops, so what they do within a phase is added up at one point.
- Parallel threads: one event loop, atomic polls of the pause file, no sleep requests from other threads.
- A memory search, dispatch, or node count of a beat that raises, and errors other than I/O errors while persisting: they end the beat like a raising compaction does.
- Detection of a `<tool_call>` for sleep inside a raw reply, and the decision engines: any predicate and any translation.
- The percentage of `calculate_fatigue` is a given number; its floating-point division is not modelled.
- JSON and YAML syntax, NaN and infinities, undecodable bytes: documents are trees with texts as keys, and the self-model holds nothing but nulls, booleans, numbers, texts, lists and mappings.
- Unicode: tag names, digits and white space are ASCII ones.
- The metadata of a stimulus is reduced to its retry counter, kept in a map from the stimulus's identity; recall edges, which this session never has, are absent.
- Events, logging and subscribers, except that the line ring is exact; a subscriber that writes to the tee from its callback is not modelled.
- A tool that returns something other than a stimulus: its call would never be marked.
- A failing write of the pause file, which the caller of `request_pause` sees as an exception.
- The list of dropped keys `_diff_keys` gives to the log, but not the exception it raises; and which exception `update` raises.
- The extraction of calls from syntax trees: the graph builder starts from parsed files with their references.
- The order of folders of equal depth: any such order is allowed.
- Intake.Inbox.Await: the number of suspensions a phase really makes is not modelled.
