# Agent-session harness: a Dafny model

A model of the code in `src/agent/` that runs an agent session, and proofs of what that code promises. One
module per source component:

| file | component |
|---|---|
| `Transcript.dfy` | messages, tool calls and their effect classes, harness markers |
| `Chronology.dfy`, `ChronologyTheorems.dfy` | forked histories read back from the live list and the branches |
| `Derivation.dfy`, `RunSpans.dfy`, `AttemptTypes.dfy` | send-contract attempts, nudges, redos and outcomes derived from a history, and what each of them means |
| `Fork.dfy`, `ForkSafety.dfy` | the fork point, the fork, and what no fork may lose |
| `Runner.dfy`, `RunEnds.dfy`, `RedoBound.dfy`, `ReadBack.dfy` | the run loop with its nudges and contract redos, when it ends, its bounds, and its reconstruction |
| `DynamicTools.dfy` | loaded tools that follow the transcript |
| `Scheduler.dfy`, `LlmScheduler.dfy` | admission, shares, escalation, throttle backoff, model health and probes: the state functions, and the object that updates them in place |
| `Admissions.dfy`, `Settling.dfy`, `Registrations.dfy`, `Priorities.dfy`, `Probes.dfy`, `SingleProbe.dfy`, `ProbeWindows.dfy`, `ModelHealth.dfy` | what every step and every run of the scheduler keeps |
| `ModelFallback.dfy` | choosing a chain member, a request's pass over its chain, the fetch-shaped fallback |
| `RequestRetry.dfy`, `RetryRules.dfy`, `RetryTheorems.dfy` | the attempt loop of one request: when it goes on and where to, commit, billing, fallovers |
| `RepetitionGuard.dfy` | the online detector of periodic output |
| `CallKey.dfy`, `Replay.dfy` | replay keys and the replay store |
| `CacheBreakpoints.dfy` | prompt-cache breakpoints of chat-completions requests |

Code that loops or updates fields is a method or a class here, proved equal to a state function; the theorems are
lemmas about those functions. The clock, the agent's turns, the outcome of an attempt, timers and random draws are
parameters. Over whole runs they are arbitrary sequences: turns of the agent (`Trace`), steps of the scheduler
(`After`), worlds met by a request's attempts (`Run`), events of a session (`Play`), calls of a session (`After` in
`Replay`).

Main results, each for every input or every run:

- The chronology of a stored session is its history, event for event, and the stored state determines the
  history; dropping the excluded spans of any stored rows leaves a legal history that ends in the same transcript.
  A fork's span is excluded exactly for one of four reasons, or when the message it was cut after lands in one.
- A derivation files one attempt for each boundary of a run before which a complete ending stands, in order; its
  failure types say exactly what the ending and the answered sends since the boundary before were.
- Forking at the fork point keeps every other call that took effect exactly when no such call follows the
  gated one, and no earlier cut would; it keeps calls and results paired, and keeps the interjections exactly when
  none repeats across the cut.
- Deriving a session of any number of finished runs from what it stored gives back its runners' own rows, nudges,
  redos and outcome. A run makes at most one contract redo more than it delivered messages, and ends only on a valid
  ending, an abort, or with its budget and its redos spent.
- Every scheduler request is in one place, once; every admission went to the highest class, first come first served,
  of those admissible then; no step that frees, registers, raises or recovers leaves an admissible waiter beside a free
  slot; slots and shares stay within their caps; an escalation holds for every waiter under its
  key until it is cleared; no half-open probe is ever lost, and there is a second one exactly when a step overtakes
  one whose flag an outcome cleared; after a strike on an unhealthy model nobody is sent to it until its window opens;
  model health is a closed form of the outcome history.
- A chain serves its first member without a fault, or probes its head; another one can take a request over exactly
  when one could serve without the member that had it.
- A request retries, moves on or ends after an attempt exactly as its failure, the time left, the chain and its rules
  say. It shows its consumer one whole attempt, one tagged error or one stand-in; every attempt is billed at most
  once and none that reported usage goes unbilled; without refusal rules it leaves each member at most once.
- The repetition detector trips exactly where the text first turns periodic, however the text was split.
- Call keys are equal exactly when the calls mean the same; a repeated call is replayed at most once per lineage.
- The next request repeats the lasting cache breakpoints exactly when this one does not end in a marked assistant turn.

Where the code and its comments differ the model follows the code:

- `src/agent/model-fallback.ts:35-40` and `:617-620` give members other than the head one attempt per pass; the code
  at `:651-652` gives every member the same quota (`WithinQuota`). With a quota of two the next member is served twice
  in one pass (`ServedTwice`); the comment is right exactly for a quota of at most one (`OneEachExactlyWhen`).
- `src/agent/scheduler.ts:690-695` takes a failure of an unhealthy model for its probe. A request from before the
  outage that fails late clears the flag too, so two requests admitted as probes can be out at once (`TwoProbesOut`).
  There is a second probe exactly when a step sends one out over one whose flag is clear (`SecondProbe`,
  `OneProbeExactlyWhen`), and never while an outcome that clears the flag is followed at once by the release of the
  probe (`PromptMeansOneProbe`).
- `src/agent/scheduler.ts:1034-1049` reads a share's fraction off the first admissible waiter that asks for it. When
  waiters ask for one share under different fractions, the pump of another group can make the first inadmissible and
  leave the next eligible, unadmitted, until the next pump (`TwoFractionsStall`). `RestExactlyWhen` says when that
  happens; with one fraction a share it never does (`StepsRest`).
- A failed background probe does not pump the groups; `PumpIsDone` is about the end of a pump.

## Model

| member | source | states |
|---|---|---|
| `Chronology.SortRecovers` | src/agent/contract.ts:374 | branch rows in any order sort back into the order of the forks |
| `Chronology.ExcludedBranchNumbers` | src/agent/contract.ts:370-392 | the backward loop over the shapes finds the excluded branches; an unknown transcript length answers as every length past the newest fork does; which they are is `ExcludedExactlyWhen` |
| `Chronology.LengthDoesNotMatter` | src/agent/contract.ts:361-373 | any two lengths past the newest fork exclude the same branches |
| `Chronology.Unwind` | src/agent/contract.ts:407-425 | the walk from the newest branch back recovers the earlier lists |
| `Chronology.ChronologyOf` | src/agent/contract.ts:407-434 | the emitted items are those of the reconstruction |
| `Chronology.RunShape` | src/agent/fork.ts:206-259 | over every run of appends and forks branch numbers rise and indices fit the lists they cut |
| `ChronologyTheorems.ChronologyInvertsRun` | src/agent/contract.ts:394-434 | the chronology of a session's final state is its history, each message tagged with the branch it finally landed in |
| `ChronologyTheorems.HistoryIsDetermined` | src/agent/contract.ts:394-434 | two histories with the same final state are the same |
| `ChronologyTheorems.ExcludedIsSuffix` | src/agent/contract.ts:361-392 | in every reconstructed list the excluded messages are a suffix |
| `ChronologyTheorems.CountedChronologyIsARun` | src/agent/contract.ts:407-434 | filtering the excluded items of any stored rows leaves a legal history ending in the same transcript with exactly the counted branches |
| `ChronologyTheorems.CountedRunOfRun` | src/agent/contract.ts:613 | the same for a session's own rows, whose indices need no clamping |
| `ChronologyTheorems.ShapesSuffice` | src/agent/contract.ts:361-392 | the shapes alone decide which of a session's branches count |
| `ChronologyTheorems.ExcludedExactlyWhen` | src/agent/contract.ts:299-392 | of every history and any order of its rows: a fork is excluded exactly for an edit, an addition, a revival or an abort, or when the message it was cut after finally lands in an excluded fork; a message exactly when the fork it lands in is |
| `Derivation.DeriveContractEvents` | src/agent/contract.ts:603-706 | the loop over the counted items computes the attempts, outcome, nudges and redos of the walk; what they are is `EveryAttemptTells`, `WalkCounts` and `OutcomeIsWorst` |
| `Derivation.AttemptNumbersAreUnique` | src/agent/contract.ts:685-696 | attempt numbers are unique per branch and redo, whatever the messages claimed |
| `Derivation.NoCollisionNoChange` | src/agent/contract.ts:685-696 | numbers that do not collide are kept |
| `Derivation.RenumberedInOrder` | src/agent/contract.ts:685-696 | a group whose numbers collide is numbered from 0, one by one, in the order of production |
| `Derivation.OutcomeIsWorst` | src/agent/contract.ts:698-703 | a session is as bad as its worst run |
| `RunSpans.WalkReads` | src/agent/contract.ts:613-684 | a run is under way exactly when no record turn came after the last run start; the attempt under way holds exactly the counted messages since the last boundary that no fork took back |
| `RunSpans.WalkCounts` | src/agent/contract.ts:613-684 | redos and nudges count those met in a run; an attempt has the number and the variant of the last prompt, unnumbered ones counted on, unless a fork or a run start came after it |
| `RunSpans.WalkDelivers` | src/agent/contract.ts:677-682 | a run has delivered exactly when a posting call of a model message was answered later in it without an error |
| `AttemptTypes.TypesExplain` | src/agent/contract.ts:507-534 | each failure type of an ending, said over the indices of the span: the last answered send failed, some send was answered, the text and its markup; in order of precedence |
| `AttemptTypes.EveryAttemptTells` | src/agent/contract.ts:486-545 | one attempt for each boundary, and the end, where the attempt under way ends with a complete model message, in order, and no other; each has the failure types, silence, branch, redo, number and variant of its messages and boundaries |
| `AttemptTypes.IncompleteHasNoOutcome` | src/agent/contract.ts:551-571 | a run whose last ending was cut off has no outcome; one whose last ending is complete has one |
| `AttemptTypes.ExcludedLeaveNoTrace` | src/agent/contract.ts:613 | an excluded item changes nothing that is derived |
| `Forks.CollectResults` | src/agent/fork.ts:121-175 | the last result of every call id |
| `Forks.ForkFloor` | src/agent/fork.ts:93-104 | the floor is past the last run start and the harness-made messages after it |
| `Forks.FindGated` | src/agent/fork.ts:121-175 | the last assistant message that holds the gated call |
| `Forks.FindForkPoint` | src/agent/fork.ts:121-175 | the loop computes the fork point, with the sibling edit of a gated call; it is safe by `ForkIsSafe`, least by `PointIsLeast` |
| `Forks.EditSiblings` | src/agent/fork.ts:216-235 | the edited message keeps the calls not removed and their results |
| `Forks.AgentSession.Say` | src/agent/fork.ts:206-259 | an append grows the live list and the history |
| `Forks.AgentSession.ForkSession` | src/agent/fork.ts:206-259 | a fork is refused, changing nothing, exactly on the four errors; else it stores the tail as the next branch and leaves the kept list |
| `Forks.NextNoIsNew` | src/storage/database.ts:10930-10942 | the number given to a branch is positive and above every other |
| `ForkSafety.PointIsClean` | src/agent/fork.ts:121-175 | the fork point never falls between a message and its results |
| `ForkSafety.FloorIsRight` | src/agent/fork.ts:87-104 | the floor is past the last run start and exactly the harness-made messages that follow it |
| `ForkSafety.EffectMeans` | src/agent/fork.ts:106-120 | a post took effect unless its result is an error, `no_reply` never does, another tool unless it is redo-safe |
| `ForkSafety.PointIsLeast` | src/agent/fork.ts:106-175 | every cut from the floor up to the fork point would discard a call that took effect, or a result of its message |
| `ForkSafety.EditExactlyWhen` | src/agent/fork.ts:121-175 | the gated message is edited exactly when it is in the run and another call of it took effect |
| `ForkSafety.RefusedOnlyAtEnd` | src/agent/fork.ts:206-213 | a fork at its fork point is refused exactly when that leaves nothing to discard |
| `ForkSafety.ForkIsSafe` | src/agent/fork.ts:106-175 | every other call that took effect is kept with its result, exactly when none of them follows the gated call's message in the run |
| `ForkSafety.UngatedForkIsSafe` | src/agent/redo.ts:61-76 | the fork of a contract redo, which gates no call, loses nothing that took effect |
| `ForkSafety.LateEffectIsLost` | src/agent/fork.ts:121-175 | an irreversible call made after the gated one is lost to the fork |
| `ForkSafety.ForkKeepsShape` | src/agent/fork.ts:206-239 | the list a fork leaves is well formed: unique calls, each result behind the call it answers |
| `ForkSafety.KeptCallsKeepResults` | src/agent/fork.ts:206-239 | a kept call keeps every result it had |
| `ForkSafety.EditedMessageIs` | src/agent/fork.ts:216-235 | an edited message loses its text and exactly the gated call |
| `ForkSafety.GatedIsGone` | src/agent/fork.ts:216-239 | no message the fork leaves holds the gated call |
| `ForkSafety.InterjectionsSurvive` | src/agent/fork.ts:237-239 | the interjections of the live list are unchanged exactly when none of the discarded ones also sits before the cut |
| `ForkSafety.RepeatIsDropped` | src/agent/fork.ts:237-239 | an interjection on both sides of the cut is delivered once less |
| `ForkSafety.DistinctSurvive` | src/agent/fork.ts:237-239 | interjections delivered once each survive every fork, once each |
| `Runners.FindFailurePoint` | src/agent/runner.ts:620-628 | one past the last delivered message |
| `Runners.FindLastAssistant` | src/agent/runner.ts:639-645 | the last assistant message |
| `Runners.CheckAborted` | src/agent/runner.ts:670-695 | one of the last five assistant messages was aborted |
| `Runners.SessionRunner.Force` | src/agent/runner.ts:493-508 | a nudge: counted, and prompted only after an assistant message |
| `Runners.SessionRunner.Redo` | src/agent/redo.ts:61-84 | the contract redo forks at the fork point, marks the failure point and resets the budget, or ends the run |
| `Runners.SessionRunner.Judge` | src/agent/runner.ts:322-387 | what the loop does with a settled turn |
| `Runners.SessionRunner.Drive` | src/agent/runner.ts:304-401 | the loop over settled turns is the trace, and stops where the trace ends |
| `RunEnds.ValidMeans` | src/agent/runner.ts:647-658 | a transcript ends validly exactly when its last assistant message sends, or declines to |
| `RunEnds.NoReplyMeans` | src/agent/runner.ts:390-391 | a run has a reply exactly when it ended validly and did not decline with nothing sent before |
| `RunEnds.WasAbortedMeans` | src/agent/runner.ts:670-695 | an aborted assistant message has fewer than five after it |
| `RunEnds.FailurePointMeans` | src/agent/runner.ts:615-628 | the message before the failure point was delivered, and none from it on |
| `RunEnds.TurnEndsExactlyWhen` | src/agent/runner.ts:322-387 | a turn ends the run exactly on a valid ending, an abort, or with the budget spent and no redo left; else it nudges while the budget lasts, and then redoes |
| `RunEnds.NudgeMeans` | src/agent/runner.ts:493-508 | a nudge carries its number in the budget, and says whether a message had been sent |
| `RunEnds.RunEndsRight` | src/agent/runner.ts:304-401 | over every run the nudges are `maxRetries` for each redo and those of the budget under way; a run that ended neither validly nor aborted has spent its last budget and its redo |
| `RedoBound.DeliveryIsKept` | src/agent/fork.ts:121-175 | a delivered message lies before the cut of a contract redo |
| `RedoBound.ContractForkKeepsFailurePoint` | src/agent/runner.ts:615-628 | a contract redo discards no delivered message and leaves the failure point where it was |
| `RedoBound.TraceBounded` | src/agent/runner.ts:354-380 | over a run the failure point never moves back, and the redo and nudge bounds hold throughout |
| `RedoBound.RunIsBounded` | src/agent/runner.ts:354-380 | contract redos are at most one more than the messages delivered, nudges at most `maxRetries` per span |
| `ReadBack.SessionReadsBack` | src/agent/contract.ts:565-706 | deriving a session of finished runs gives back what its runners counted: all rows in order, prompts, redos, and the worst of the five outcomes |
| `ReadBack.RunReadsBack` | src/agent/contract.ts:565-706 | of a session's only run every attempt comes back under its very number, and the outcome is the runner's: validity, silence, delivery, prompts and redos decide it |
| `ReadBack.NudgesArePrompts` | src/agent/runner.ts:493-508 | the runner's nudge count is the transcript's exactly when every nudge followed an assistant message |
| `ReadBack.AssistantEndingsPrompt` | src/agent/runner.ts:493-508 | which holds when every turn ends in one |
| `DynamicTools.DynamicToolRegistry.constructor` | src/agent/dynamic-tools.ts:90-101 | a new registry follows the empty transcript |
| `DynamicTools.DynamicToolRegistry.Load` | src/agent/dynamic-tools.ts:151-172 | names load one by one, and `current` stays the loaded part of the catalog |
| `DynamicTools.LoadIsUnion` | src/agent/dynamic-tools.ts:151-172 | the loaded set gains exactly the names the catalog has; every name is reported once, as added, loaded already or unknown |
| `DynamicTools.DynamicToolRegistry.SeedFromTranscript` | src/agent/dynamic-tools.ts:181-196 | seeding adds exactly what the tool results say was loaded |
| `DynamicTools.DynamicToolRegistry.UnloadDiscarded` | src/agent/dynamic-tools.ts:206-226 | unloads what only discarded messages loaded, keeping `current` in catalog order |
| `DynamicTools.UnloadIsDifference` | src/agent/dynamic-tools.ts:206-226 | the set loses exactly the named tools that need not stay, and exactly those of the catalog are reported |
| `DynamicTools.LoadFollows` | src/agent/dynamic-tools.ts:151-196 | a load with its tool result leaves the set a reseeded registry would hold, exactly when the result names what was added |
| `DynamicTools.ForkFollows` | src/agent/dynamic-tools.ts:198-226 | after any fork, unloading leaves the set a registry seeded from the kept list would hold |
| `DynamicTools.ForkWithTools` | src/agent/factory.ts:2663-2676 | a session and its registry stay in step through a fork |
| `DynamicTools.CurrentIsLoaded` | src/agent/dynamic-tools.ts:107-109 | a tool is current exactly when the catalog has it and its name is loaded |
| `LlmSchedulers.LlmScheduler.constructor` | src/agent/scheduler.ts:368-380 | the declared groups, and `default` |
| `LlmSchedulers.LlmScheduler.Ask` | src/agent/scheduler.ts:418-465 | a request is registered at the higher of its own and its pinned class, or rejected at once |
| `LlmSchedulers.LlmScheduler.Abort` | src/agent/scheduler.ts:449-459 | a waiter that gives up leaves the queue |
| `LlmSchedulers.LlmScheduler.RaiseKey` | src/agent/scheduler.ts:473-492 | escalation only raises, pins the key, and pumps the groups it changed |
| `LlmSchedulers.LlmScheduler.Note` | src/agent/scheduler.ts:552-591 | an outcome on the group and the model axis |
| `LlmSchedulers.LlmScheduler.NoteModel` | src/agent/scheduler.ts:594-706 | an outcome on a model's health |
| `LlmSchedulers.LlmScheduler.FireProbeTimer` | src/agent/scheduler.ts:757-794 | a background probe goes out only for an unhealthy, unflagged model whose window is open |
| `LlmSchedulers.LlmScheduler.EndProbe` | src/agent/scheduler.ts:795-828 | a background probe's answer is an outcome of its model |
| `LlmSchedulers.LlmScheduler.SettleStale` | src/agent/scheduler.ts:839-854 | a released probe slot settles its probe |
| `LlmSchedulers.LlmScheduler.GiveBack` | src/agent/scheduler.ts:1092-1114 | a slot is given back once, its probe settled, and the group comes to rest (`GiveBackRests`) |
| `LlmSchedulers.LlmScheduler.Shutdown` | src/agent/scheduler.ts:974-989 | every waiter is rejected, every group |
| `LlmSchedulers.LlmScheduler.Step` | src/agent/scheduler.ts:337-1118 | each call and timer changes the object as the step function says |
| `LlmSchedulers.LlmScheduler.Drive` | src/agent/scheduler.ts:337-1118 | whatever is asked of a new scheduler, its books balance, every admission was in turn and no probe is lost |
| `LlmSchedulers.FindBest` | src/agent/scheduler.ts:1033-1064 | the scan, counting each share once, finds the best waiter |
| `LlmSchedulers.LlmScheduler.PumpGroup` | src/agent/scheduler.ts:1016-1118 | the pump loop leaves the state that admitting the best admissible waiter, one at a time, leaves |
| `Admissions.BestIsFirst` | src/agent/scheduler.ts:1026-1064 | the chosen waiter is eligible and, numbers being distinct, ahead of every other eligible one; none is chosen exactly when none is eligible |
| `Admissions.AccountedIsDistinct` | src/agent/scheduler.ts:438-464 | while the books balance, as they do in every reachable state, the waiters of a group have distinct numbers |
| `Admissions.AdmissionsInTurn` | src/agent/scheduler.ts:1016-1072 | over every run, each admission went to the highest class and lowest number of the waiters eligible at that moment, with a slot free and no backoff on |
| `Admissions.PumpIsDone` | src/agent/scheduler.ts:1016-1072 | when a pump ends the queue is empty, the group full or backing off, or nothing left eligible |
| `Settling.StepsComeToRest` | src/agent/scheduler.ts:337-1118 | after a slot is given back, a registration, an escalation that raised a waiter, a recovery or a timer, each group concerned came to rest: nobody waits, it is full or backing off, or nobody is eligible |
| `Settling.StepsRest` | src/agent/scheduler.ts:337-1118 | and it is at rest when the step is over: always after a release or a registration, and after the others when its waiters ask for each share under one fraction |
| `Settling.RestExactlyWhen` | src/agent/scheduler.ts:1033-1049 | a group that came to rest with a slot free stays at rest, whatever probes go out elsewhere, exactly while no share opens to an admissible waiter |
| `Settling.GiveBackRests` | src/agent/scheduler.ts:1092-1114 | a slot given back wakes the waiters of its group |
| `Settling.AskRests` | src/agent/scheduler.ts:418-465 | a registered request waits only if nobody of its group can be admitted |
| `Settling.TwoFractionsStall` | src/agent/scheduler.ts:1034-1049 | a group left with an eligible waiter beside a free slot, by two fractions of one share |
| `Settling.AbortLeaves` | src/agent/scheduler.ts:449-459 | a waiter that gives up is out of the queue and rejected, the others stay in order |
| `Settling.StopIsFinal` | src/agent/scheduler.ts:974-989 | a stopped scheduler has no waiter, and never admits anyone again |
| `Registrations.EntriesTellRequests` | src/agent/scheduler.ts:418-465 | over every run, who waits or holds a slot does so for the request of that number: its key, model, share and group, at its class or above |
| `Registrations.RegistersAt` | src/agent/scheduler.ts:424-429 | a request registers at the higher of its class and its key's pin; a cleared pin is gone |
| `Registrations.OutcomeOnGroup` | src/agent/scheduler.ts:552-591 | 429 and 503 count as throttles and back the group off, anything else starts the count over |
| `Admissions.CeilingDoubles` | src/agent/scheduler.ts:559-578 | over any outcomes, the longest wait doubles with every throttle in a row, up to the group's longest |
| `Admissions.ShareCapMeans` | src/agent/scheduler.ts:187-194 | a share may hold the whole part of its fraction of the slots, and always one |
| `Admissions.ShareHasRoom` | src/agent/scheduler.ts:187-194 | an eligible waiter's share has a slot left |
| `Admissions.RunsStayInOrder` | src/agent/scheduler.ts:337-1118 | over every run each request is in one place once, `active` counts the active entries within `max_in_flight`, shares stay within their caps, and admissions are in turn |
| `Admissions.ThrottlePauses` | src/agent/scheduler.ts:559-588 | a throttle pauses the group for half to all of its exponential ceiling, and nobody is admitted until then |
| `Admissions.RetryAfterPauses` | src/agent/scheduler.ts:559-588 | a server-given wait is honoured in full exactly within the group's longest, which also bounds the pause; nobody is admitted until then |
| `Priorities.PumpShrinks` | src/agent/scheduler.ts:1016-1118 | a pump only takes waiters out of the queues, and leaves every pin |
| `Priorities.EscalatePins` | src/agent/scheduler.ts:467-492 | an escalation raises every waiter under its key, in every group, and pins the key |
| `Priorities.EscalationHolds` | src/agent/scheduler.ts:467-501 | over every run until the pin is cleared, each waiter under the key, registered before or after, is of the class or above |
| `Probes.NoProbeIsLost` | src/agent/scheduler.ts:594-854 | in every reachable state a set probe flag means an unhealthy model and, until the stop, a held probe slot or a running background probe; an unhealthy model with a prober has its next probe pending |
| `Probes.FlaggedModelWaits` | src/agent/scheduler.ts:1003-1013 | while the flag is set no waiter of the model is admitted |
| `Probes.StaleProbeSettled` | src/agent/scheduler.ts:830-854 | releasing a probe's slot settles the probe even without an outcome |
| `Probes.NeverGatedForever` | src/agent/scheduler.ts:830-854 | a model nobody is probing is admissible once its window opens |
| `SingleProbe.StraysMove` | src/agent/scheduler.ts:594-854 | probes out and flag move together, save that an outcome of a flagged model leaves a stray and letting go of a probe takes one back |
| `SingleProbe.SecondProbe` | src/agent/scheduler.ts:690-695 | from a reachable state with at most one probe out, a step makes two exactly when it sends one out over one whose flag is clear and does not let that one go |
| `SingleProbe.OneProbeExactlyWhen` | src/agent/scheduler.ts:690-695 | a run never has two probes of a model out exactly when no step of it overtakes one |
| `SingleProbe.PromptMeansOneProbe` | src/agent/scheduler.ts:690-695 | it never has while every outcome that clears the flag is followed at once by letting go of the probe |
| `SingleProbe.StrayIsOvertaken` | src/agent/scheduler.ts:1003-1013 | otherwise the next request on an idle group, once the window is open, is a second probe |
| `SingleProbe.TwoProbesOut` | src/agent/scheduler.ts:690-695 | a run of six steps that ends with two probes out |
| `ProbeWindows.StrikeSetsWindow` | src/agent/scheduler.ts:648-721 | a strike that makes or leaves a model unhealthy clears its flag and opens its next window one delay later |
| `ProbeWindows.NothingBeforeWindow` | src/agent/scheduler.ts:690-721 | from a strike on, until one delay later and while no other outcome of the model comes in, no waiter of it is admitted in any group, whatever else happens |
| `ProbeWindows.InconclusiveSetsWindow` | src/agent/scheduler.ts:638-646 | a throttled probe, and one let go without an outcome, are tried again one unchanged delay later |
| `ProbeWindows.NeutralKeepsWindow` | src/agent/scheduler.ts:626-636 | other failures leave the window as it is |
| `ProbeWindows.ProbeGoesOutExactlyWhen` | src/agent/scheduler.ts:757-794 | a background probe goes out exactly when its timer fires on an open window nobody probes through |
| `Registrations.AskSetsCap` | src/agent/scheduler.ts:419-424 | a request sets the longest probe delay of its model |
| `Registrations.StrikeDoubles` | src/agent/scheduler.ts:717-721 | a failed probe doubles the delay, up to that |
| `ModelHealth.StepCore` | src/agent/scheduler.ts:594-706 | only an outcome of the model moves its health, and content, aborted, refusal and 429 outcomes do not |
| `ModelHealth.HealthIsClosedForm` | src/agent/scheduler.ts:594-731 | health and probe delay are a closed form of the strikes since the last success |
| `ModelHealth.TextbookExactlyWhen` | src/agent/scheduler.ts:656-721 | the delay is min(base * 2^(n - threshold), cap) exactly for a threshold of at least 1 and a base within the cap |
| `ModelFallback.ChooseChainMember` | src/agent/model-fallback.ts:594-747 | returns what the selector `Choose` does, of which `ChoiceIsRight` says which member and which reason |
| `ModelFallback.ChoiceIsRight` | src/agent/model-fallback.ts:582-747 | a fallback is the first viable member and its reason a fault of the head; `all-unhealthy` exactly when none is viable, groups ignored, and the head is no canary |
| `ModelFallback.ReasonIsFirstFault` | src/agent/model-fallback.ts:714-732 | a fallback names the first fault of the head: refused, unwell, its group, the budget, the window, the quota |
| `ModelFallback.ServesWithoutFault` | src/agent/model-fallback.ts:657-740 | who serves has no fault, or is a head due for its probe; a member of a failed group serves only when all others have a fault or a failed group; a faulty one only when all are |
| `ModelFallback.LastChance` | src/agent/model-fallback.ts:741-747 | then it is the first open member, else the first that did not refuse, else the head |
| `ModelFallback.ChooseServes` | src/agent/model-fallback.ts:582-747 | the choice is the one member that serves while any can |
| `ModelFallback.NeverRuledOut` | src/agent/model-fallback.ts:741-747 | no attempt goes to a refused or excluded member while another is open |
| `ModelFallback.ResolveModelChain` | src/agent/model-fallback.ts:552-572 | the head and its listed fallbacks, each once; an unknown name fails the chain |
| `ModelFallback.ChainIsDistinct` | src/agent/model-fallback.ts:544-572 | a chain holds each model once, the head first |
| `ModelFallback.ChainKeepsOrder` | src/agent/model-fallback.ts:544-572 | in the order in which they are first listed |
| `ModelFallback.RequestAttemptState.Resolve` | src/agent/model-fallback.ts:366-469 | one dispatch: the member, the pass it updates, and where a failure could go |
| `ModelFallback.FalloverExactlyWhen` | src/agent/model-fallback.ts:425-457 | another member can take the request after a failure, or a refusal, exactly when one could serve with the served key ruled out, quotas and failed groups aside; the next attempt goes elsewhere exactly when another key serves then |
| `ModelFallback.DispatchServes` | src/agent/model-fallback.ts:404-424 | an attempt goes to who serves in the pass; when none can and a new pass finds one, a new pass begins with it |
| `ModelFallback.OneNeverFallsOver` | src/agent/model-fallback.ts:366-383 | a chain of one never falls over |
| `ModelFallback.FalloverNeedsOpenServed` | src/agent/model-fallback.ts:436-457 | another member can take the request only if the served one was neither refused nor excluded |
| `ModelFallback.WithinQuota` | src/agent/model-fallback.ts:645-652 | in every reachable pass, started over or not, no member, head or not, has more attempts than the quota beyond those it got because none was viable |
| `ModelFallback.ServedTwice` | src/agent/model-fallback.ts:645-652 | a pass that serves a member other than the head twice |
| `ModelFallback.OneEachExactlyWhen` | src/agent/model-fallback.ts:35-40 | one attempt per pass for the members after the head holds of every pass exactly for a quota of at most one |
| `ModelFallback.FetchAttempt` | src/agent/model-fallback.ts:900-954 | each way out of an attempt notes its outcome and gives its slot back, once |
| `ModelFallback.RunFetchWithFallback` | src/agent/model-fallback.ts:858-959 | the loop over the chain makes the run `Fetch` specifies, and holds no slot at its end, having held one at a time |
| `ModelFallback.FetchAttemptsOnce` | src/agent/model-fallback.ts:846-959 | each member is attempted at most once, and each slot taken is given back once before the next |
| `ModelFallback.FetchGivesUpLast` | src/agent/model-fallback.ts:846-959 | the call gives up only when its rounds are used up or no untried member is viable |
| `ModelFallback.FetchEndsRight` | src/agent/model-fallback.ts:900-959 | the call ends with the first round that got a value, was aborted or met a content failure; every round before moved on |
| `ModelFallback.RoundNotes` | src/agent/model-fallback.ts:900-954 | a value is noted as a success, an environmental failure or a throw as a strike, the rest as neutral |
| `RequestRetry.CollectStream` | src/agent/request-retry.ts:940-1004 | the buffered events of an attempt, up to its error or trip |
| `RequestRetry.Request.HandleEnvironmental` | src/agent/request-retry.ts:1260-1395 | stall, spent budget, degenerate output: fall over, end, or retry, exactly as `EnvironmentalRule` says |
| `RequestRetry.Request.HandleRefusal` | src/agent/request-retry.ts:1397-1460 | a refusal falls over, follows its rule, or fails |
| `RequestRetry.Request.Mark` | src/agent/request-retry.ts:1094-1232 | the marks and the bill of a failed attempt |
| `RequestRetry.Request.HandleDone` | src/agent/request-retry.ts:1017-1080 | a clean end commits the whole buffer, or is re-driven after a budget cut |
| `RequestRetry.Request.Drive` | src/agent/request-retry.ts:818-1491 | the attempt loop ends in the delivery, the bill and the state that the attempt rules give, attempt by attempt |
| `RetryRules.FailureMeans` | src/agent/request-retry.ts:1094-1148 | class, failure and stall of a failed attempt, from its events: a trip is environmental unless the caller aborted; an abort is when the member was silent past its deadline or the budget ran out; anything else is the failure it was |
| `RetryRules.EndlessMeans` | src/agent/request-retry.ts:1088-1092 | a stream without an end is an environmental failure |
| `RetryRules.CompleteMeans` | src/agent/request-retry.ts:1013-1019 | an attempt is complete exactly when its stream ran through to `done` |
| `RetryRules.EnvironmentalRule` | src/agent/request-retry.ts:1260-1395 | it moves on exactly for a stall, time up or too many trips, when another member can take over; else it retries, unless time or trips ran out or the caller cuts the wait |
| `RetryRules.ContentRule` | src/agent/request-retry.ts:1462-1490 | it moves on exactly when another member can take over |
| `RetryRules.RefusalRule` | src/agent/request-retry.ts:1397-1460 | it follows its rule while there is time: starts over, moves on or is withheld; without one it moves on exactly when allowed and possible |
| `RetryRules.AbortRule` | src/agent/request-retry.ts:1487-1490 | an abort is never retried |
| `RetryRules.DoneRule` | src/agent/request-retry.ts:1017-1080 | a complete stream is delivered, unless it was truncated and is driven again |
| `RetryRules.CostStops` | src/agent/request-retry.ts:827-838 | a retry that fails the cost check ends the request |
| `RetryRules.PreflightRule` | src/agent/request-retry.ts:766-785 | a request that fails the check beforehand is never sent |
| `RetryRules.ExcludedRule` | src/agent/request-retry.ts:1131-1293 | a failed attempt rules its member out exactly for a stall, or to move on |
| `RetryRules.GroupRule` | src/agent/request-retry.ts:1132-1286 | it fails the member's group exactly for a stall, a listed status, or an environmental failure of the last try |
| `RetryRules.RefusedRule` | src/agent/request-retry.ts:1404-1437 | the member has refused exactly after a refusal that does not start the request over |
| `RetryRules.BillRule` | src/agent/request-retry.ts:1165-1240 | a failed attempt cut on the wire is billed as an estimate, any other for the usage its failure reports, if any |
| `RetryTheorems.RequestCommitsWhole` | src/agent/request-retry.ts:618-625 | the consumer sees nothing, or every event of the last attempt ending in `done`, or one tagged error, or the stand-in |
| `RetryTheorems.BillsAreRight` | src/agent/request-retry.ts:1174-1240 | each attempt is billed at most once, for its own usage, and no issued attempt with reported usage goes unbilled |
| `RetryTheorems.LeavesEachOnce` | src/agent/request-retry.ts:1284-1484 | without refusal rules every fallover rules out a member that was open, so each is left at most once |
| `RetryTheorems.TripsAreBounded` | src/agent/request-retry.ts:1276-1311 | a pending request has at most three repetition trips since it last left a member for them: the fourth leaves or ends; at most sixteen re-drives of a truncated turn |
| `RetryTheorems.TripsFitChain` | src/agent/request-retry.ts:1276-1310 | the degenerate attempts of a request are bounded by its chain |
| `RetryTheorems.RequestPass` | src/agent/request-retry.ts:821-1491 | the pass of a request is one the steps of a pass reach, so the quota bounds its attempts on every member |
| `RepetitionGuard.FirstTripIsExact` | src/agent/repetition-guard.ts:8-16 | the trip is at the first unit where any period reaches its threshold, with the smallest such period, and there is none exactly when no prefix qualifies |
| `RepetitionGuard.FirstIsUnique` | src/agent/repetition-guard.ts:63-90 | there is only one such trip |
| `RepetitionGuard.SplitDoesNotMatter` | src/agent/repetition-guard.ts:62-90 | what a text trips does not depend on how it is split into deltas |
| `RepetitionGuard.TripMeansCopies` | src/agent/repetition-guard.ts:10-14 | a period trips exactly when the text ends in `min_repeats` copies of its unit and `min_chars` units repeat |
| `RepetitionGuard.CounterIsExact` | src/agent/repetition-guard.ts:43-52 | the 32-bit counters compare as the runs themselves, or the threshold is out of their reach |
| `RepetitionGuard.BlockState.Count` | src/agent/repetition-guard.ts:72-85 | the loop over the periods finds the smallest that trips and keeps every counter |
| `RepetitionGuard.BlockState.Keep` | src/agent/repetition-guard.ts:86-88 | the ring holds the last units |
| `RepetitionGuard.RepetitionDetector.Push` | src/agent/repetition-guard.ts:63-90 | a delta trips exactly where the block's whole text does; other blocks are untouched |
| `CallKey.PrintIsInjective` | src/agent/late-input.ts:74-81 | a printed value is the text of no other value, at every depth |
| `CallKey.SortIsRight` | src/agent/late-input.ts:79 | sorting members by key keeps what the object means |
| `CallKey.CanonicalIsMeaning` | src/agent/late-input.ts:73-81 | canonical texts are equal exactly when the values mean the same |
| `CallKey.KeyIsIdentity` | src/agent/late-input.ts:83-95 | keys are equal exactly when names are and arguments mean the same, a top-level `analysis` aside |
| `Replay.ReplayStore.Get` | src/agent/late-input.ts:135-143 | the stored result within its age; a stale entry is dropped |
| `Replay.ReplayStore.Put` | src/agent/late-input.ts:145-147 | a newer execution replaces the entry |
| `Replay.LineageCallCount` | src/agent/late-input.ts:160-172 | the other calls of the live list with the key |
| `Replay.TranscriptArguments` | src/agent/late-input.ts:102-111 | the call's arguments as the transcript holds them |
| `Replay.ReplayTools.Start` | src/agent/late-input.ts:660-680 | a call is passed through, answered from the store, or executed |
| `Replay.ReplayTools.Finish` | src/agent/late-input.ts:681-684 | a result that is no error is stored |
| `Replay.KeyIsTranscripts` | src/agent/late-input.ts:668-672 | a call runs under the key of its block in the transcript |
| `Replay.SiblingsExecute` | src/agent/late-input.ts:673-680 | calls of the live list that share a key all execute |
| `Replay.ServedIsLatest` | src/agent/late-input.ts:124-147 | a call is answered exactly when it may be, is alone with its key, and the key's latest success is within its age; the answer is that result |
| `Replay.ReplayedAtMostOnce` | src/agent/late-input.ts:654-684 | over every run, forks included, no two calls of the live list with one key were both answered from the store |
| `Replay.LogIsSuccesses` | src/agent/late-input.ts:681-684 | the executions a call may be answered from are exactly the calls that came back without an error, in order |
| `Replay.ReplayableMeans` | src/agent/late-input.ts:660-667 | five tools never replay; another does exactly when its call is redo-safe or repeatable |
| `CacheBreakpoints.MarkChatMessage` | src/agent/cache-breakpoints.ts:438-456 | the marker goes on the last non-empty text |
| `CacheBreakpoints.Scan` | src/agent/cache-breakpoints.ts:483-494 | the first trigger, and the first summary up to it |
| `CacheBreakpoints.FindTargets` | src/agent/cache-breakpoints.ts:481-524 | the positions to mark: system, summary and stable ones with enough tokens up to them, and the last, as `Targets` defines them |
| `CacheBreakpoints.TriggerIsFirst` | src/agent/cache-breakpoints.ts:485-494 | the trigger is the first message that opens one |
| `CacheBreakpoints.SummaryIsFirst` | src/agent/cache-breakpoints.ts:485-494 | the summary is the first up to it |
| `CacheBreakpoints.StableIsSecondUser` | src/agent/cache-breakpoints.ts:495-505 | the stable position is the user message with exactly one between it and the first trigger, unless it is the summary |
| `CacheBreakpoints.TargetsExactly` | src/agent/cache-breakpoints.ts:507-524 | exactly these are targets: leading system message, summary and stable position with 1024 tokens up to them; in a request of 1024, the last message and the one before the last answer |
| `CacheBreakpoints.LastTextIs` | src/agent/cache-breakpoints.ts:438-456 | the marker goes on the last text part with text |
| `CacheBreakpoints.InjectChatCompletionsBreakpoints` | src/agent/cache-breakpoints.ts:474-535 | exactly the markable targets are marked, in any order |
| `CacheBreakpoints.BreakpointsRepeat` | src/agent/cache-breakpoints.ts:458-473 | the next request repeats the system, summary, stable and last-message marks exactly when this one does not end in a marked assistant message |
| `CacheBreakpoints.PrefillIsNotRepeated` | src/agent/cache-breakpoints.ts:458-473 | a request that ends in the start of an answer: its last mark is not repeated |
| `CacheBreakpoints.InjectionErases` | src/agent/cache-breakpoints.ts:432-456 | without markers, and with text as one part, the output is the input |

## Left out

- Real timers, promises, abort signals and stream plumbing: steps are atomic and take the time as a parameter. A
  group's re-pump timers are the `PumpTimer` step, which may come at any time.
- Provider SDKs, SQLite, logging, the live event bus, the request ring and the console snapshot are not part of this model.
- Text classification (error classes, HTTP statuses in messages, tool-call markup, context mimicry, `error` results,
  the summary and trigger openings): verdicts are inputs.
- The first-token deadline and the wall-clock budget of a request are verdicts of its worlds; their lengths, the
  jittered local backoff and the re-arming of the budget are left out, so nothing is said about total time.
- RequestRetry: an attempt on which the fallback resolver itself throws before it names a member is left out.
- RedoBound.RunIsBounded: assumes unique call ids and results that directly follow their message (`Faithful`).
- RedoBound.RunIsBounded: refusal redos, late input, operator stops and LLM failures, which reset or end the budget, are left out of the runner.
- ReadBack.RunReadsBack: assumes that each turn's last assistant message is the model's own and complete (`ProperTurn`).
- ReadBack.SessionReadsBack: assumes the same of every run, and that every run ended before the next began.
- ForkSafety.ForkIsSafe: assumes unique call ids and results that directly follow their message. The runner modelled
  here never gates a call (`UngatedForkIsSafe`); only a refusal redo does (`src/refusals/soft-redo.ts:118`), and whether
  the agent can go on after a refused call is decided in code that is not part of this model.
- ForkSafety.InterjectionsSurvive: the failing side needs one message object delivered twice, which
  no fork makes out of messages delivered once each (`DistinctSurvive`).
- Derivation.DeriveContractEvents: the time, served-model and wire-model columns of an attempt are left out.
- Admissions.RunsStayInOrder: a request rejected before it is registered takes no number and is not counted.
- Probes.FlaggedModelWaits: is about one pump, the only place where a waiter is admitted.
- ModelHealth.HealthIsClosedForm: the model's probe cap must stay the same over the run.
- Replay.ReplayedAtMostOnce: a call starts after its message is on the live list; synthetic calls made before the agent exists are left out.
- CallKey.KeyIsIdentity: numbers are the texts the printer writes for them, so `0` and `-0` are one value.
- CacheBreakpoints: the Responses and Anthropic injectors, which mark other positions, are left out.
- The late-input correction queue, the irreversibility hold and the redo from scratch.
- Cost spans, budgets, per-user selection, thinking degradation and model prompts: composition over modules that are not part of this model.
