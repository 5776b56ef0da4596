# kollab: context compaction, agent sessions, process stop, unit files

A Dafny model of the parts of kollab in which small slips lose data: the context compaction engine, the
registry and tool-call ids of the ACP agent, the ladder that stops an agent process, and the printer of
systemd words. `dafny verify dfyconfig.toml` checks all of it.

**The compaction engine.** `Messages` holds the conversation. `ToolGroups`, `KeepRecent`, `OperatorWords`,
`OperatorBlocks`, `OpenState`, `EvidenceTokens`, `Routing`, `Coordination` and `CompactedHistory` model the
functions a round is made of, as loops proved against specification functions. `Round` puts them together
into the replacement of a snapshot; `RoundEffects` proves what one swap keeps, `Runs` what any number of
rounds and rollovers keeps, and `Staging` that the interleaved engine (appends, resets, session switches, a
background run, rollovers) does nothing but steps of such runs. `RoundState` and
`SummaryContents` say what the messages a round writes contain, `StagingLimits` and `RoundLimits` hold the
counterexamples. `Rollover` and `EmergencySummary` model the local fallback, `TriggerGate` the automatic
trigger, `Budget` the thresholds and the outgoing estimate. `RoundBuilder` and the class `CompactionPlugin.Compactor` are the imperative side: fields, and one method for each stretch
between awaits, each tied to the state machine by its postcondition. At the awaits of the boundary check
the environment may change every field.

**The agent front end.** `ToolCallIds` is the id resolver. `SessionRegistry` is the registry as a state
machine over requests that give way at every await, each of which may fail; `AgentServer.Agent` is the
object with its fields.

**Stopping a process.** `StopLadder` runs the ladder against a pid whose occupant changes over time.

**Unit files.** `SystemdWords` has the printer and the reader of "Quoting" in systemd.syntax(7) and
"Specifiers" in systemd.unit(5).

## What turned out to be false, and the exact condition

- A staged swap keeps each tool result with its call if and only if the results right after the baseline
  find their calls at the end of the replacement (`Staging.ApplyKeepsPairsIff`); a live history that still
  starts with the snapshot is enough. The code checks only session and length: a reset within the same
  session that grows past the baseline, a second run started while one is staged, and a rollover under a
  run get past it (`StagingLimits`).
- Operator records are conserved by a round on the live prefix if and only if no message kept verbatim
  carries any; otherwise exactly those are counted again (`RoundEffects.KeptWordsCountTwice`,
  `RoundLimits.KeptRecordCountsTwice`). A stale swap conserves their number if and only if the prefix it
  overwrites has as many as its snapshot and what it keeps verbatim (`Staging.ApplyCountsWords`,
  `StagingLimits.ResetInPlaceForgets`).
- Operator records are conserved by a rollover exactly when those of a first message that is no system prompt
  balance those of the live tasks it keeps; with a system prompt, when live tasks carry none
  (`Rollover.RollWordCount`, `RoundLimits.FirstWordsForgotten`).
- The coordination block and the model's notes can be lost: the text of a summary is kept whole if and only
  if it holds no operator-words marker and no OPEN STATE line (`Round.TextSurvivesIff`,
  `RoundLimits.NotesLoseCoordination`). The same condition decides over the recovery note
  (`Rollover.NoteSurvivesIff`).
- A rollover keeps tool results with their calls if and only if its kept window is whole on its own; its raw
  count may cut a group (`Rollover.RollKeepsPairsIff`, `Rollover.RollOnResultOrphans`,
  `RoundLimits.RawCountOrphans`).
- A rollover invents an issue or a commit if and only if it shortens a kept summary in the middle of one
  (`Rollover.RollInventsIff`, `RoundLimits.CutInventsIssue`).
- A process that holds its pid and may not be signalled is always reported as stopped: every probe then
  looks like an absent process (`StopLadder.StopAgent`, `StopLadder.ForbiddenLooksStopped`).
- A restoration drops a live session out of the registry if and only if its own session was shut down
  meanwhile, its engine answers all the same, and another live session took the interim id
  (`SessionRegistry.StepKeepsInvIff`, `SessionRegistry.DeadAnswerLosesLive`).
- An argument with a line feed cannot be read back from a unit file (`SystemdWords.RoundTripIff`).
- A tool call over the cap is let through exactly when the guard holds its turn and its history's length and
  characters. Those are set only by a check that let a history pass, so the meter or the cap has changed
  since (`Budget.RepeatNeedsNewMeter`, `CompactionPlugin.RepeatOverCap`).
- A keep-recent setting of zero or less indexes past the end of the history; the model returns `None`
  there, and a run counts it as a failure.

## Model

| member | source | states |
|---|---|---|
| ToolGroups.FindSplitPoint | plugins/context_compaction_plugin.py:2870-2902 | the loop returns the cut of `SplitPoint`, and reports the index error of a non-positive keep count instead of excluding it |
| ToolGroups.SplitDefined | plugins/context_compaction_plugin.py:2870-2883 | a cut exists exactly when the keep count is positive or covers the whole history |
| ToolGroups.SplitIsTight | plugins/context_compaction_plugin.py:2881-2902 | the cut keeps at least the wanted count, never falls on a tool result, and goes back no further than tool groups demand: each message pulled in makes calls or is followed by a result |
| ToolGroups.PairedIsScanned | plugins/context_compaction_plugin.py:2904-2912 | for every history, each tool result belongs to an assistant call through an unbroken run of results exactly when one left-to-right scan finds its id open |
| ToolGroups.PairedConcat | plugins/context_compaction_plugin.py:4026-4110 | joining two well-shaped lists keeps every tool result with its call |
| ToolGroups.PairedCut | plugins/context_compaction_plugin.py:2881-2902 | cutting at a message that is not a tool result keeps every result with its call on both sides |
| ToolGroups.PairedWithoutReminders | plugins/context_compaction_plugin.py:4012-4024 | removing task reminders from the front of a list parts no result from its call, whatever follows |
| ToolGroups.SpliceKeepsPairsIff | plugins/context_compaction_plugin.py:2720-2727 | putting a new front before a history's tail keeps the shape if and only if every result leading that tail finds its call in the new front |
| Round.CutIsClean | plugins/context_compaction_plugin.py:3330-3350 | whenever a run goes on, its cut lies strictly between the system prompt and the end and is not a tool result |
| Round.HandledMember | plugins/context_compaction_plugin.py:3926-3972 | whatever the ledger decided, no kept message has the tool role and none passes for a summary |
| Round.PreservedMember | plugins/context_compaction_plugin.py:3218-3256 | a preserved task is a message of the old part with its role and metadata, never a summary; with hub tasks being user messages it is a user message |
| RoundEffects.SwapKeepsPairs | plugins/context_compaction_plugin.py:2720-2727 | the swap of any round into a history that still starts with its snapshot keeps every tool result with its call, including results appended during the run |
| RoundEffects.SwapKeepsPairsIff | plugins/context_compaction_plugin.py:2720-2727 | into any other history it does so if and only if the results right after the baseline find their calls open at the end of the replacement |
| Runs.RunsKeepPairs | plugins/context_compaction_plugin.py:3320-3350 | the same over any number of rounds, rollovers, appends and resets, from any well-shaped history, one that already holds a summary included |
| Staging.TracesKeepPairs | plugins/context_compaction_plugin.py:2661-2762 | over every interleaving, from and to any well-shaped history: as long as each applied stage finds the calls of the results after its baseline, every tool result stays with its call, also in the snapshots in flight |
| Staging.ApplyKeepsPairsIff | plugins/context_compaction_plugin.py:2716-2727 | applying a stage keeps the shape if and only if the results after the baseline find their calls |
| Staging.StepKeepsShapeIff | plugins/context_compaction_plugin.py:2661-2762 | every event keeps the shape of all the engine holds, except exactly an apply that fails this condition |
| Staging.FirstUnsafeApplyOrphans | plugins/context_compaction_plugin.py:2716-2727 | in every interleaving the first apply that fails it does part a result from its call |
| Staging.PlainNextIsSafe | plugins/context_compaction_plugin.py:2716-2727 | a message right after the baseline that is no tool result makes the apply safe |
| Staging.PrefixIntactIsSafe | plugins/context_compaction_plugin.py:2716-2727 | so does a history that still starts with the snapshot |
| Staging.StepKeepsInv | plugins/context_compaction_plugin.py:2661-2762 | with no condition on the environment, rollovers included, a stage is always the replacement of a snapshot the conversation went through, with the right baseline, and unless the history was replaced it is still snapshot plus what was appended |
| Staging.ApplyIsSwap | plugins/context_compaction_plugin.py:2682-2739 | applying empties the slot; it leaves the history alone exactly when it is empty, of another session or shorter than the baseline, and otherwise yields the replacement and everything after the baseline |
| Staging.EventIsStep | plugins/context_compaction_plugin.py:3503-3507 | every event of the interleaved engine, stale swaps and rollovers included, is a step of a sequential run or changes no history |
| Staging.TracesKeepInv | plugins/context_compaction_plugin.py:2661-2762 | the invariant in every reachable state of every interleaving |
| Staging.EveryApplyIsSwap | plugins/context_compaction_plugin.py:2682-2739 | in every interleaving each apply is a discard or an exact swap with nothing after the baseline lost or reordered |
| Staging.UndisturbedStaysIntact | plugins/context_compaction_plugin.py:1743-1766 | when no run starts while one is staged, and no reset and no rollover replaces the history under a run or a stage, what is after the baseline is exactly what was appended since the snapshot |
| Staging.RoundFromRest | plugins/context_compaction_plugin.py:2696-2706 | a run from rest, applied in its own session, swaps its snapshot and keeps what arrived meanwhile; applied in another session it changes nothing |
| StagingLimits.ResetInPlaceOrphans | plugins/context_compaction_plugin.py:2708-2727 | a reset within the session of a staged run, then growth past the baseline: the swap goes through and orphans a tool result |
| StagingLimits.OverlappingRunsOrphan | plugins/context_compaction_plugin.py:1747-1766 | a second run started while one is staged orphans a tool result: the start guard looks only at the run in progress |
| StagingLimits.RollUnderRunOrphans | plugins/context_compaction_plugin.py:2487-2493 | a rollover while a run is under way orphans a tool result once that run's stage is applied |
| OperatorWords.CollectOperatorWordRecords | plugins/context_compaction_plugin.py:3043-3072 | the loop returns the trusted records of all messages in order and the sum of the earlier omission counts |
| OperatorWords.TrustedOnlyFilters | plugins/context_compaction_plugin.py:3025-3041 | exactly the records with a human source, a time and a text are believed, in order |
| OperatorWords.BoundOperatorWordRecords | plugins/context_compaction_plugin.py:3074-3091 | the loop returns `Bound`, and retained plus omitted equals everything seen |
| OperatorWords.BoundIsLongestSuffix | plugins/context_compaction_plugin.py:3079-3089 | `Bound` is the one longest suffix within 30 records and 8000 characters |
| OperatorWords.BoundAbsorbs | plugins/context_compaction_plugin.py:3079-3091 | bounding a bounded list with new records equals bounding everything at once |
| OperatorWords.RoundsAreOneBound | plugins/context_compaction_plugin.py:3043-3091 | any number of rounds equals one bound of the whole chronological list, with the exact omission count |
| OperatorBlocks.StripBlocks | plugins/context_compaction_plugin.py:3141-3154 | the loop returns the text without operator-word blocks, including the unclosed-block case |
| OperatorBlocks.NoMarkerSurvives | plugins/context_compaction_plugin.py:3141-3154 | no opening marker is left in the text, whatever the summarizer wrote |
| OperatorBlocks.ClosedBlockCutOut | plugins/context_compaction_plugin.py:3148-3154 | a closed block is cut out with its markers and what surrounds it closes up |
| OperatorBlocks.UnclosedBlockCuts | plugins/context_compaction_plugin.py:3145-3147 | an unclosed one takes everything after it along, and space before it, and nothing else |
| RoundEffects.KeptWordsCountTwice | plugins/context_compaction_plugin.py:4043-4045 | a round on the live prefix changes the number of records accounted for by exactly those carried by messages it keeps verbatim; any round, stale ones included, conserves it if and only if the prefix it overwrites has as many as its snapshot and what it keeps verbatim |
| RoundEffects.SwapWordCount | plugins/context_compaction_plugin.py:2720-2727 | the exact count after any swap: the records of the snapshot, again those of messages kept verbatim, and those after the baseline |
| Staging.ApplyCountsWords | plugins/context_compaction_plugin.py:2716-2727 | the same of the engine's apply, with the exact difference |
| StagingLimits.ResetInPlaceForgets | plugins/context_compaction_plugin.py:2708-2727 | a reset within the session of a staged run: the swap goes through and forgets the operator record the new history held |
| RoundLimits.KeptRecordCountsTwice | plugins/context_compaction_plugin.py:3926-3928 | a history of three messages on which a round counts a record twice |
| RoundEffects.SwapKeepsWords | plugins/context_compaction_plugin.py:3351-3358 | after a swap the summary carries the longest suffix of all older records and the exact number omitted, whatever summary the history was loaded with |
| Runs.RunsKeepWords | plugins/context_compaction_plugin.py:3351-3358 | over any run, from any history: records held, records omitted and records lost before loading add up to all records ever seen, and after a round the summary carries the longest suffix of the older ones |
| RoundEffects.CarriesLongestSuffix | plugins/context_compaction_plugin.py:3074-3091 | the invariant behind it: every record is accounted for once, and a summary within the caps carries the one longest suffix of the older records |
| Staging.TracesKeepWords | plugins/context_compaction_plugin.py:3351-3358 | the same over every interleaving whose applied stages find their snapshot, the longest suffix after each swap and rollover included |
| Runs.RunsAccountWords | plugins/context_compaction_plugin.py:3351-3358 | over any run, wherever its rollovers cut: the records of the history, bounded, are those ever seen, bounded, and with the omission counts all are accounted for once |
| OpenState.SanitizedTokensKnown | plugins/context_compaction_plugin.py:3185-3198 | every issue number and commit id of a sanitized state, over its whole text, has evidence |
| OpenState.KnownTokensHaveSource | plugins/context_compaction_plugin.py:3161-3185 | evidence comes from one message: an ordinary one, or the state of an earlier summary |
| OpenState.OrdinaryIsKnown | plugins/context_compaction_plugin.py:3161-3185 | every message that is neither a system prompt nor a summary counts as evidence |
| OpenState.SanitizeKeepsExactlySupported | plugins/context_compaction_plugin.py:3185-3198 | a line is in the sanitized state if and only if it is a trimmed candidate line that is not blank, not a marker and fully supported |
| RoundState.ProposedStateGetsIn | plugins/context_compaction_plugin.py:3476-3492 | an OPEN STATE of good lines at the end of the summarizer's text, each token of which an ordinary message mentions, is read back word for word from the leading summary after the swap |
| RoundState.RoundStateIff | plugins/context_compaction_plugin.py:3111-3139 | in general a line is in the state after a swap if and only if it is a trimmed line after the last OPEN STATE line and before the next closing line of the block-free text, and is fully supported |
| OpenState.LastMarkerIsLast | plugins/context_compaction_plugin.py:3119-3128 | the marker that counts is the last one |
| OpenState.FirstMarkerIsFirst | plugins/context_compaction_plugin.py:3130-3137 | and the closing line the first after it |
| EvidenceTokens.TokensDistribute | plugins/context_compaction_plugin.py:3180-3185 | issue and commit recognisers with the source's look-arounds never match across a line feed |
| EvidenceTokens.CommitIff | plugins/context_compaction_plugin.py:3182-3185 | a run of hexadecimal digits is a commit id exactly when it has 7 to 40 of them, in either case |
| EvidenceTokens.IssueStands | plugins/context_compaction_plugin.py:3181-3181 | a number sign and digits, alone, are an issue number |
| RoundEffects.SwapGroundsState | plugins/context_compaction_plugin.py:3476-3492 | after a swap, whatever the summarizer wrote, each token of the OPEN STATE was in a message or in an OPEN STATE of the snapshot |
| Rollover.RollGroundsState | plugins/context_compaction_plugin.py:2452-2471 | every token of an OPEN STATE after a rollover was in a message or a state before it, or comes from shortening a kept summary |
| Rollover.RollInventsIff | plugins/context_compaction_plugin.py:2515-2527 | a token that was nowhere before is in an OPEN STATE after a rollover if and only if a kept summary over 8000 characters yields it when shortened |
| RoundLimits.CutInventsIssue | plugins/context_compaction_plugin.py:2515-2527 | a history of three messages on which the rollover turns issue #12 into issue #1 |
| Runs.RunsStayGrounded | plugins/context_compaction_plugin.py:3156-3198 | over any run of rounds and rollovers, from any history, each token of every OPEN STATE occurred in an ordinary message of this or an earlier history, in a state the conversation was given, or in a state a rollover shortened |
| Staging.TracesStayGrounded | plugins/context_compaction_plugin.py:3156-3198 | the same over every interleaving, stale swaps included |
| Budget.TriggerBelowCap | plugins/context_compaction_plugin.py:1352-1397 | whatever the window, ratio and manual setting, the trigger is between zero and the hard cap and below a known window; it is manual exactly when that is strictly lower |
| Budget.CapIsWindowOrCeiling | plugins/context_compaction_plugin.py:1352-1357 | the cap is at most a known window and at most 272000 and is one of the two; for an unknown window it is 100000 |
| Budget.TriggerIsLeastLimit | plugins/context_compaction_plugin.py:1359-1397 | the trigger is the least of 272000, the share of a known window or 100000, and a manual setting, with the policy that set it |
| Budget.ShareIsRatio | plugins/context_compaction_plugin.py:1377-1379 | the share is the clamped ratio of the window, rounded down |
| Budget.ClampIsNearest | plugins/context_compaction_plugin.py:1377-1377 | clamping leaves a value within its bounds alone and otherwise gives the nearer bound |
| Budget.OutgoingIsLarger | plugins/context_compaction_plugin.py:1215-1236 | the outgoing count is the larger of the estimate and a provider count that is still valid |
| Budget.EstimateIsScaled | plugins/context_compaction_plugin.py:1204-1213 | the prompt estimate is the scaled estimate of the history, rounded down |
| Budget.SignatureDecidesWeight | plugins/context_compaction_plugin.py:1194-1202 | histories with the same length and characters have the same outgoing estimate on the same meter |
| Budget.RepeatNeedsNewMeter | plugins/context_compaction_plugin.py:2235-2241 | a repeat the guard lets through was preceded by a pass of the same turn under which this history would have passed, and is over the cap now only because the meter or the cap has changed |
| CompactionPlugin.RepeatOverCap | plugins/context_compaction_plugin.py:2235-2241 | a run of the plugin in which a guarded repeat goes through over the cap: the user switches to a model with a smaller window between two tool calls |
| Budget.CalibrationIsExact | plugins/context_compaction_plugin.py:1238-1247 | after a request within the calibration range the sent history weighs exactly the reported count and appends only add to it |
| Budget.CalibrationIsBounded | plugins/context_compaction_plugin.py:1238-1247 | whatever was reported, the scale stays between 0.10 and 1.50 and the count is fresh again |
| CompactionPlugin.StaleIsEstimated | plugins/context_compaction_plugin.py:1215-1236 | after a swap the effective and the outgoing count are both the estimate, so judging the rollover by the effective count is judging the outgoing one |
| CompactionPlugin.Compactor.EnforceBudget | plugins/context_compaction_plugin.py:2220-2408 | against arbitrary changes at every await: a boundary let pass has its outgoing estimate below a known window and below 272000, or below 100000 for an unknown window, except exactly a tool call whose turn and history signature are those of an earlier recorded pass; at most three attempts, then one rollover; a refusal means all attempts were made and the rollover was not enough, raised, or had fewer than three messages |
| CompactionPlugin.Compactor.Attempt | plugins/context_compaction_plugin.py:2265-2337 | one attempt waits for a run under way, then applies its stage, or else forces a run, waits for that and applies its stage; it raises exactly when the await it makes is cancelled |
| CompactionPlugin.Compactor.MeasuredAttempt | plugins/context_compaction_plugin.py:2338-2343 | an attempt that changed the history makes the provider's count stale, and is measured by the outgoing count after it |
| CompactionPlugin.Compactor.ForceAttempts | plugins/context_compaction_plugin.py:2264-2374 | the attempts end at the first that gets under the cap or is cancelled, and only with the prompt still over the cap are they all spent |
| CompactionPlugin.Compactor.LastResort | plugins/context_compaction_plugin.py:2376-2408 | the rollover lets the boundary pass exactly under the cap, and refuses when it was not enough, raised, or had fewer than three messages |
| CompactionPlugin.Compactor.BeforeRequest | plugins/context_compaction_plugin.py:2156-2180 | with the plugin enabled, also when applying the stage raises, a request is sent only with its outgoing estimate below a known window and below 272000, or below 100000 for an unknown window; it is cancelled only after all attempts and a rollover that was not enough, raised, or had fewer than three messages |
| CompactionPlugin.Compactor.RolloverWithSummary | plugins/context_compaction_plugin.py:2410-2493 | the method is the specified rollover event: a history of three or more messages is replaced at once, any stage is dropped and the provider count is stale; a shorter one is untouched |
| Rollover.FindSplit | plugins/context_compaction_plugin.py:2425-2428 | the loop returns the group cut for one to four messages or its raw fallback |
| Rollover.RawSplitIsGroupOrCount | plugins/context_compaction_plugin.py:2425-2428 | the cut is the group boundary where that leaves something to replace, and never a tool result then; otherwise it is the raw count or everything but the first message |
| Rollover.RollKeepsPairsIff | plugins/context_compaction_plugin.py:2425-2435 | a rollover keeps the shape if and only if its kept window, reminders aside, is well shaped on its own |
| Rollover.GroupRollKeepsPairs | plugins/context_compaction_plugin.py:2425-2435 | so it does whenever the cut does not fall on a tool result |
| Rollover.RollOnResultOrphans | plugins/context_compaction_plugin.py:2425-2435 | and a cut on a tool-role result always orphans that result |
| RoundLimits.RawCountOrphans | plugins/context_compaction_plugin.py:2426-2428 | a history of one call and its four results that the raw count cuts between call and results |
| Rollover.RollWordCount | plugins/context_compaction_plugin.py:2444-2451 | a rollover forgets exactly the records of a first message that is no system prompt and counts again exactly those of the live tasks it keeps |
| RoundLimits.FirstWordsForgotten | plugins/context_compaction_plugin.py:2444-2446 | a history of three messages whose first record a rollover forgets |
| Rollover.RollKeepsWords | plugins/context_compaction_plugin.py:2444-2451 | with a system prompt, something to replace and no records on live tasks, a rollover keeps all operator records accounted for |
| Rollover.RollAccounts | plugins/context_compaction_plugin.py:2444-2451 | wherever it cuts, unless the first message or a live task carries records, none is lost or counted twice |
| Rollover.LastState | plugins/context_compaction_plugin.py:2452-2463 | the state of the last summary that has one |
| Rollover.PriorStateIsLast | plugins/context_compaction_plugin.py:2452-2463 | the prior state is that of the last summary that has one |
| Rollover.NoteStateWins | plugins/context_compaction_plugin.py:2464-2472 | an OPEN STATE in the note takes the place of the prior state |
| Rollover.NoteSurvivesIff | plugins/context_compaction_plugin.py:2464-2472 | the recovery note, the latest user request at its head, becomes the rollover's summary whole if and only if it quotes no operator-words marker and no OPEN STATE line, and then the state comes from the last summary |
| Rollover.StateCarriesOver | plugins/context_compaction_plugin.py:2452-2472 | with such a note a sanitized state comes through a rollover word for word |
| Rollover.BuildRollover | plugins/context_compaction_plugin.py:2419-2486 | the pieces put together are the specified parts, built by the compacted-history builder |
| KeepRecent.KeepRecentCount | plugins/context_compaction_plugin.py:1813-1850 | the largest count above the floor whose real cut fits a quarter of the threshold, or the floor limited by the history length when none fits |
| KeepRecent.OverrunNeverFits | plugins/context_compaction_plugin.py:1834-1841 | the first loop's early stop is sound: no larger count could have fitted |
| KeepRecent.KeepCountUnique | plugins/context_compaction_plugin.py:1813-1850 | exactly one count qualifies |
| KeepRecent.KeepCountMeaning | plugins/context_compaction_plugin.py:1829-1849 | in plain terms: more than two messages are kept only if what the cut really keeps, scaled, fits a quarter of the threshold, and every larger number within setting and history overruns it |
| KeepRecent.BaseKeepIsLarger | plugins/context_compaction_plugin.py:1823-1825 | the base count is the setting or one message for each 100K of the window, whichever is more |
| KeepRecent.ScaleMeetsReport | plugins/context_compaction_plugin.py:1830-1833 | scaled, the estimate of the history is the provider's count where that is lower |
| KeepRecent.FloorAndTop | plugins/context_compaction_plugin.py:1834-1837 | at least two messages are kept or the setting if that is lower, at most the setting or all there are |
| CompactedHistory.BuildCompactedHistory | plugins/context_compaction_plugin.py:3974-4142 | the recursive builder terminates and returns the layout for the first number of dropped tasks that needs no further drop |
| CompactedHistory.DropsAreForced | plugins/context_compaction_plugin.py:4112-4138 | each drop happens only while the estimate is at or above the cap and more than one task remains, it stops as soon as neither holds, and the last task is never dropped |
| CompactedHistory.DropNoteIsExact | plugins/context_compaction_plugin.py:3999-4008 | the drop note tells the exact number: notes are equal only for equal numbers, and empty only for none |
| CompactedHistory.OneReminder | plugins/context_compaction_plugin.py:4009-4110 | besides a flagged system prompt, the result holds one reminder when a task or an old reminder existed, else none: a new one of the surviving tasks, or the newest old one |
| SummaryContents.OpensWithSummary | plugins/context_compaction_plugin.py:4031-4033 | whatever its other parts, a summary message opens with prefix, summary, the note on dropped tasks and suffix |
| SummaryContents.ShowsRecords | plugins/context_compaction_plugin.py:3093-3109 | after that it shows every record it carries, in order, each with its time, its source and its whole text |
| SummaryContents.BlockShowsOmissions | plugins/context_compaction_plugin.py:3099-3103 | and says how many more there were |
| SummaryContents.RemindsOfEach | plugins/context_compaction_plugin.py:4073-4104 | the reminder names every task it stands for: its number, its sender and its first 200 characters |
| SummaryContents.SwapSaysSummary | plugins/context_compaction_plugin.py:3476-3492 | the leading summary after a swap opens with what the round made of the summarizer's text, shows the records it carries, and has them, the omission count, the round and the message counts in its metadata |
| SummaryContents.SwapShowsTasks | plugins/context_compaction_plugin.py:4058-4104 | every ledger-kept message and every undropped task stands in the swapped history, and so does the reminder of those tasks |
| SummaryContents.WrittenTextStands | plugins/context_compaction_plugin.py:3456-3475 | unmarked notes, coordination block and summarizer text stand in the leading summary verbatim and in this order |
| SummaryContents.RollSaysNote | plugins/context_compaction_plugin.py:2464-2486 | the leading summary after a rollover opens with what is left of the recovery note and shows its records |
| CompactedHistory.StateSurvivesLayout | plugins/context_compaction_plugin.py:4031-4041 | splitting the built summary message returns exactly the given state, for every summary text and operator block |
| OpenState.FooterRoundTrip | plugins/context_compaction_plugin.py:3111-3139 | printing a sanitized state under any text and parsing it back returns the state, even when the text holds marker lines |
| OpenState.SanitizeSanitizes | plugins/context_compaction_plugin.py:3185-3198 | every sanitized text satisfies what the round trip asks |
| OpenState.SanitizeIdempotent | plugins/context_compaction_plugin.py:3185-3198 | sanitizing twice is sanitizing once |
| ToolCallIds.Resolver.Resolve | kollabor/acp_server.py:71-86 | one event updates the four tables as specified and returns the active id |
| ToolCallIds.ResolveStream | kollabor/acp_server.py:60-86 | resolving a stream event by event gives the specified ids |
| ToolCallIds.TablesDescribe | kollabor/acp_server.py:60-86 | after any stream the tables say which invocation each source is in and whether it has started or completed |
| ToolCallIds.SameIdIffSameInvocation | kollabor/acp_server.py:71-86 | two events get the same wire id if and only if they share a source id and an invocation, as defined on the stream alone |
| ToolCallIds.IdsByExample | kollabor/acp_server.py:71-86 | four short streams: progress and result share the start's id, a second start and a permission after a result get new ones, a start after a permission does not |
| ToolCallIds.ScopesAreApart | kollabor/acp_server.py:74-78 | ids of different sessions or scopes never coincide, and a replay gives the same ids |
| SessionRegistry.StepKeepsInvIff | kollabor/acp_server.py:142-242 | every step keeps the registry invariant, except exactly a restoration that finds another live session under its interim id |
| SessionRegistry.TracesKeepInv | kollabor/acp_server.py:142-242 | so over every interleaving without such a restoration the invariant holds |
| SessionRegistry.SilentDeadLoseNobody | kollabor/acp_server.py:207-242 | it is enough that no engine answers a restoration once it was shut down |
| SessionRegistry.NoEngineIsLost | kollabor/acp_server.py:536-556 | an engine not yet shut down successfully is registered under its own id and no other key |
| SessionRegistry.AcceptedEnters | kollabor/acp_server.py:142-172 | every accepted request to open or restore enters one live session under its generated id, disturbs no entry and waits for it to open |
| SessionRegistry.AdoptionEnters | kollabor/acp_server.py:150-172 | over every run an adoption that ends well enters the adopted session, usable from then on, and a second one is refused |
| SessionRegistry.AttachedAdopts | kollabor/acp_server.py:150-162 | an attached connection that holds and adopts nothing starts adopting, and otherwise refuses |
| SessionRegistry.FailureStops | kollabor/acp_server.py:173-191 | a failed open, save, resumption or replay goes on to shut its engine down, with its lock still held |
| SessionRegistry.SuccessGoesOn | kollabor/acp_server.py:207-242 | what goes well goes on to its end, a restoration over taking its id, and unlocks it there |
| SessionRegistry.TeardownUnlists | kollabor/acp_server.py:536-556 | a teardown that ends well leaves its engine dead and under no key; one that fails changes no entry |
| SessionRegistry.CloseReachesTeardown | kollabor/acp_server.py:508-534 | a close of a usable id reaches the teardown of the session it names, whatever its awaits do |
| SessionRegistry.DrainReachesTeardown | kollabor/acp_server.py:562-573 | end of input reaches the teardown of every session it finds registered |
| SessionRegistry.RestoreNeverOverwrites | kollabor/acp_server.py:207-242 | a restoration takes an id that names nothing and leaves the entry of every other live session alone |
| SessionRegistry.AttachedHoldsOne | kollabor/acp_server.py:150-166 | an attached connection never holds more than one session, and none while it adopts one |
| SessionRegistry.NothingStaysLocked | kollabor/acp_server.py:209-242 | once every request has ended, no id is left locked for restoration |
| SessionRegistry.DeadAnswerLosesLive | kollabor/acp_server.py:229-231 | a run of the registry in which a shut-down engine does answer and a live session drops out |
| AgentServer.Agent.NewSession | kollabor/acp_server.py:142-172 | the request's first stretch is the specified step, is refused exactly for bad input or a second attached session, and keeps the invariant |
| AgentServer.Agent.LoadOrResume | kollabor/acp_server.py:193-215 | the same for restoring, refused exactly when attached, live, locked, not stored or invalid; a refused one leaves no lock |
| AgentServer.Agent.CloseSession | kollabor/acp_server.py:508-534 | the same for closing, refused exactly for unknown and locked ids |
| AgentServer.Agent.DrainSession | kollabor/acp_server.py:562-573 | end of input closes a session, or only shuts it down while its id is being restored |
| AgentServer.Agent.Continue | kollabor/acp_server.py:142-242 | whichever await ends, well or not, the step is the specified one and keeps the invariant unless it loses a live session |
| TriggerGate.GateIsHistory | plugins/context_compaction_plugin.py:1422-1445 | after a swap the gate's three fields are a function of the counts seen since |
| TriggerGate.FiresIff | plugins/context_compaction_plugin.py:1422-1475 | after a swap the trigger fires if and only if the count is over the threshold, the turn gate passes, and some earlier count was below the threshold or some count reached a tenth of the threshold above the first fresh one |
| TriggerGate.OpenFiresIff | plugins/context_compaction_plugin.py:1422-1475 | without a pause every look over the threshold that passes the turn gate fires |
| TriggerGate.RemembersLastTrigger | plugins/context_compaction_plugin.py:1474-1475 | the gate remembers the count of the last look that fired |
| TriggerGate.NoEarlyTrigger | plugins/context_compaction_plugin.py:2752-2755 | the same over every run since the last applied round, up to the next overflow error or session switch |
| CompactionPlugin.Compactor.ShouldCompact | plugins/context_compaction_plugin.py:1399-1475 | the method moves the gate and answers as specified, with the turn gate worked out from the history |
| CompactionPlugin.HumanTurnsAddUp | plugins/context_compaction_plugin.py:1451-1455 | human turns add up message by message, one for each user message that is no hub message |
| CompactionPlugin.Compactor.ForgetPause | plugins/context_compaction_plugin.py:1724-1727 | an overflow error forgets the pause; a session switch does the same |
| CompactionPlugin.Compactor.StartCompaction | plugins/context_compaction_plugin.py:1743-1766 | a run starts exactly when none is in progress and compaction is not switched off or is forced |
| CompactionPlugin.Compactor.BeginRun | plugins/context_compaction_plugin.py:3303-3406 | the stretch up to the summarizer: snapshot, keep count, cut, operator words and routing are those of the round, and an impossible cut ends the run |
| CompactionPlugin.Compactor.EndRun | plugins/context_compaction_plugin.py:3428-3511 | the stretch after it: a too short summary counts as a failure, the third switches compaction off, anything else stages exactly the round's replacement |
| CompactionPlugin.Compactor.ApplyPending | plugins/context_compaction_plugin.py:2661-2762 | the method is the specified apply, and marks the count stale and the round applied exactly when it swapped |
| RoundBuilder.Prepare | plugins/context_compaction_plugin.py:3329-3406 | the loops before the summarizer compute the round's parts and the messages for the summarizer, or nothing exactly when there is nothing to cut |
| RoundBuilder.RoundIsRouted | plugins/context_compaction_plugin.py:3397-3406 | the three lists of a round are the messages on the three routes, so every message of the old part takes one |
| RoundBuilder.Assemble | plugins/context_compaction_plugin.py:3476-3492 | stripping, splitting, sanitizing and building give the round's replacement |
| Round.TextSurvivesIff | plugins/context_compaction_plugin.py:3456-3480 | the text of notes, coordination block and summary becomes the round's summary whole if and only if it holds no operator-words marker and no OPEN STATE line |
| RoundLimits.NotesLoseCoordination | plugins/context_compaction_plugin.py:3456-3477 | notes that quote the operator-words marker without closing it: the coordination block after them is lost |
| StopLadder.WaitForExit | kollabor/cli.py:1622-1634 | polls until the pid looks gone or the budget is spent, and the answer is true of the last look |
| StopLadder.HardKill | kollabor/cli.py:1846-1863 | SIGKILL only to a process just verified, after SIGTERM and a full expired wait, at most once |
| StopLadder.SameMeans | kollabor/cli.py:1842-1843 | one process is two readable looks within five seconds, with the same program and arguments |
| StopLadder.TermThenKill | kollabor/cli.py:1877-1902 | SIGTERM only to a process just verified, then the above; a failure is a refusal of the guard or both waits spent |
| StopLadder.StopAgent | kollabor/cli.py:1793-1904 | for every behaviour of the pid over time: every signal hits a process just verified as the selected one, in order and at most once each; an acknowledged shutdown gets its whole grace wait before the first signal, and none if the pid looks gone during it; success means the selected process is gone for good if it may be signalled for as long as it holds the pid; one that holds it throughout and may not be signalled is always reported as stopped |
| StopLadder.ForbiddenLooksStopped | kollabor/cli.py:1836-1841 | a process that may not be signalled is reported as stopped and still holds its pid |
| Routing.PartitionByLedger | plugins/context_compaction_plugin.py:3865-3958 | the loop splits the messages by the ledger's verdict, in order |
| Routing.JudgeIff | plugins/context_compaction_plugin.py:3901-3926 | keep wins, then eviction of all known entries, then a summary with a body; anything else is left to the summarizer |
| Routing.KeptSaysAll | plugins/context_compaction_plugin.py:3961-3972 | a kept message stays as it is; a tool result becomes a user message that quotes it whole under its ids |
| Routing.RewrittenSaysSummaries | plugins/context_compaction_plugin.py:3929-3947 | a rewritten message says every summary the agent wrote for it, under its id |
| Routing.FindLatest | plugins/context_compaction_plugin.py:3218-3225 | the loop finds the latest message of each live task |
| Routing.SortLatest | plugins/context_compaction_plugin.py:3227-3229 | sorting the latest messages by position |
| Routing.ExtractPreservable | plugins/context_compaction_plugin.py:3200-3270 | preserved excerpts and summarizable rest, in order |
| Routing.Excerpt | plugins/context_compaction_plugin.py:3232-3251 | an excerpt has at most 4000 characters, keeps role, task and records, and changes only oversized messages |
| Routing.ExcerptQuotes | plugins/context_compaction_plugin.py:3237-3250 | an excerpt names its task and quotes over 3700 characters of the beginning, exactly 4000 in all |
| Routing.EveryMessageIsRouted | plugins/context_compaction_plugin.py:3397-3406 | each message goes to the ledger alone, to the preserved tasks or to the summarizer, and to both of the last exactly when it is an oversized preserved task |
| Routing.RoutesKeepOrder | plugins/context_compaction_plugin.py:3397-3406 | order is kept on each route |
| Routing.RoutesAreTheLists | plugins/context_compaction_plugin.py:3397-3406 | the lists built are the messages on the routes |
| Routing.LatestExists | plugins/context_compaction_plugin.py:3218-3225 | every live task with a message has a latest one |
| Routing.PreservedAreNewestTasks | plugins/context_compaction_plugin.py:3218-3229 | at most 24 messages, one per live task and its latest; a live task passed over is older than all of them and only passed over when there are 24 |
| Coordination.SelectBlocks | plugins/context_compaction_plugin.py:1592-1607 | the selection is a newest run of at most 32 blocks in order, only its oldest block cut, within 16000 characters with two for each gap |
| Coordination.SelectionUnique | plugins/context_compaction_plugin.py:1592-1607 | nothing else meets that description: the selection is determined |
| Coordination.OldestIsForced | plugins/context_compaction_plugin.py:1598-1604 | the oldest block is cut only when it does not fit whole |
| Coordination.SelectionFits | plugins/context_compaction_plugin.py:1592-1607 | as joined in the summary, five characters apart where the budget counts two, the blocks take at most 16093 characters |
| EmergencySummary.BuildEmergencySummary | plugins/context_compaction_plugin.py:2529-2659 | the loops return the specified note |
| EmergencySummary.NoteIsBounded | plugins/context_compaction_plugin.py:2544-2554 | the note and its wrapper never exceed the limit, for any messages |
| EmergencySummary.LatestRequestComesFirst | plugins/context_compaction_plugin.py:2628-2657 | the latest user request is the first line after the header and is cut only when it cannot fit whole |
| EmergencySummary.LatestUserIsLast | plugins/context_compaction_plugin.py:2629-2636 | the latest request is the last eligible user item, and none exists only when there is no such item |
| EmergencySummary.LeadingRequestIsLast | plugins/context_compaction_plugin.py:2562-2636 | the request that leads the note is the last user message that is neither synthetic nor blank nor rejected by the hub heuristic, whole |
| EmergencySummary.OthersNewestFirst | plugins/context_compaction_plugin.py:2628-2645 | after it come the newest eight items, newest first, the request not again |
| EmergencySummary.LinesQuote | plugins/context_compaction_plugin.py:2647-2657 | each line names its role and quotes its text from the start: whole, 1200 characters, or until the note is full |
| EmergencySummary.HeaderLeavesRoom | plugins/context_compaction_plugin.py:2544-2554 | with the engine's own limit there is always room for a request |
| EmergencySummary.NoteIsNeverEmpty | plugins/context_compaction_plugin.py:2436-2442 | the note is never empty, so the rollover's fixed fallback text is never used |
| SystemdWords.ReplacementsAreOneEscape | kollabor/service.py:60-62 | the three sequential replacements equal one character-wise escape |
| SystemdWords.PrintedChar | kollabor/service.py:60-62 | how each single character is printed |
| SystemdWords.RoundTripIff | kollabor/service.py:79-80 | reading the printed list back returns it if and only if no argument holds a line feed; otherwise the line is unreadable |
| SystemdWords.NeverContinues | kollabor/service.py:60-62 | no printed line goes on in the next: the escape never leaves a backslash open before a line feed |
| SystemdWords.EncodeInjective | kollabor/service.py:79-80 | different lists without line feeds are printed differently |

## Left out

- Summarizer calls, provider retry and model resolution: the summary is an arbitrary string.
- The hub text heuristics, the block extraction by regular expression and the context service: function parameters and a map.
- `\w` and `\d` of the issue pattern: a lexicon parameter that only has to treat a line feed as neither.
- Floating point: the scales and ratios are exact reals.
- Logging, checkpoints, status texts, vault snapshots and display.
- The end-of-turn hook (session budgets, coordination deferrals, asking the model first): only its parts that move the gate or the meter are modelled.
- Rollover.RollKeepsWords: what the leading summary carries is stated for histories with a system prompt and something to replace; for the others `Rollover.RollAccounts` and `Rollover.RollWordCount` speak of the history as a whole.
- Runs.RunsKeepPairs: messages appended and histories loaded are assumed to be well shaped, and a rollover's kept window too, its raw count being able to part a group.
- Staging.TracesKeepWords: which records survive is stated for stages that find their snapshot; for stale ones only how many (`Staging.ApplyCountsWords`).
- CompactionPlugin.Compactor.EnforceBudget: the cap is the one read on entry, as in the code; a model switch during an await is not measured against the new window, a failure to create the background task is not modelled, and guard fields found after an await are assumed to come from a check that let a history pass.
- SessionRegistry.TracesKeepInv: sessions are values named by position rather than heap objects, the prompt and permission traffic is left out, and end of input may reach sessions in any order.
- ToolCallIds.SameIdIffSameInvocation: the name-based UUID of section 5.5 of RFC 9562 is taken to be injective.
- StopLadder.StopAgent: guard and signal are one step, zombies are not told apart, time is counted in polls, and a look-alike with the same executable and arguments started within five seconds passes the guard as in the code.
- SystemdWords.RoundTripIff: `$` expansion in ExecStart and numeric escapes are not part of the reader.
- Presence files, sockets, service installation and the rest of the command line.
