# Verification of the autonomy runtime

A Dafny model of five parts of the runtime whose guarantees have to survive interleavings,
crashes, streaming or plugins that answer whatever they like, with proofs of those guarantees.

`dafny verify dfyconfig.toml` checks everything. Wherever Dafny would try an induction of its own,
`{:induction false}` switches it off: every induction is written out. Plugins, the planner, the provider's stream, the bridge process and the world are
parameters of the theorems (function values or arbitrary inputs), so every statement holds whatever
they do.

## The parts

**Inbox and graceful drain** (`Inbox*.dfy`, `Boot*.dfy`). `InboxMemory` has one function
per critical section of the inbox's mutex or call on the message store. `InboxProtocol`
interleaves them: any number of goroutines, each with a program counter between two sections; a
crash drops all memory and keeps the rows. The class in `Inbox` runs the same sections on the
maps of all agents, method by method, and `InboxRefinement` shows that its consumer loop, run
alone, is a run of the protocol. The protocol keeps a history that no step reads. `lapsed` in it
is the one gap of the design: a start that finds the consumer flag still set although that
consumer has already decided to put its message back and leave (`src/inbox.go:347-397`).
`StrandedExactlyWhenLapsed` proves that at rest a message is left over exactly in that case, and
`AStartCanLapse` gives a run. `InboxHeld` says what a pause does to messages that start no new run.
`BootRecovery` are the two passes of a new process, the second beside what the first has started, and
`BootTheorems` what they mean in the protocol: whom they start is who is ever started, and so what is
left over.

**Conversation of a run** (`Chat*.dfy`). `ChatEvents.Batch` defines the conversation of a whole
stream declaratively: which events begin a row, which row an event belongs to, what a row says.
`ChatFold` is the incremental accumulator with its shared group objects. What a live run has
stored is proved equal to the declarative conversation, at the end and after every prefix.

**Plans** (`Text.dfy`, `Plan*.dfy`, `LineageTheorems.dfy`, `BlankInputs.dfy`, `ExecutionTheorems.dfy`).
Reading and printing bindings, the static lineage check, the executor, and type soundness: what an
accepted plan cannot run into (`LineageTheorems`), and which of its inputs may be blank (`BlankInputs`).
`ExecutionTheorems` tells a run by what the capabilities answered.

**Decision loop** (`Evidence.dfy`, `Verification.dfy`, `Decisions.dfy`, `ApprovalGate.dfy`,
`DecisionLoop.dfy`, `GateRefinement.dfy`, `Acceptance.dfy`, `Verdicts.dfy`). Evidence slots and
verdicts, the rules of each decision type, the loop with its budget, and the confirmation gate over
whole message histories and restarts, with workers that outlive the loop that dispatched them.
`GateRefinement` shows that the loop, message after message and across restarts, is a run of the
gate's protocol. `Acceptance` and `Verdicts` say what the checks accept and what a verdict means
without the checks' own predicates.

**Bridge** (`Bridge*.dfy`). A buffered stream with a one-slot wake-up (`BridgeStream`),
request/response correlation with a shutdown that steals the waiting callers (`BridgeTransport`), and
the two together (`BridgeRuns`): the lines of the bridge, one reader, a shutdown, and one stream for
each run.

## Where the code does less than it says

Each with an input that shows it and the exact condition. The model follows the code.

- `src/inbox.go:90-93` says only new runs are held while draining; `start` asks `holdStart` for
  every kind (`src/inbox.go:262`). A delegation to an idle worker is held with the rest
  (`InboxHeld.ADelegationIsHeld`). A message that is no new run gets through a pause if and only if a
  consumer is there that claims again, and no held run stands before it
  (`InboxHeld.HeldUnlessAConsumerIsThere`).
- `src/inbox.go:147-173`, `src/inbox.go:391-407`: a drain that ends inside a consumer's hold window
  leaves the requeued row without an owner (`InboxTheorems.StrandedExactlyWhenLapsed`,
  `InboxTheorems.AStartCanLapse`).
- `src/agent_init.go:84` sets the confirmation gate in memory only, and `restoredAgent`
  (`src/agent_resume.go:141-153`) rebuilds the agent without it. After a restart a gated agent's plans
  run unconfirmed, whether the user's approval starts the loop again (`src/autonomy.go:346` finds
  nothing pending) or `src/graceful.go:435-487` does. `docs/agent-initialization.md` says of this that a
  confirmation is then an ordinary instruction. `ApprovalGate.GateEndsWithItsProcess` and
  `ApprovalGate.UnconfirmedExactlyAfterARestart`: exactly in the processes after the first.
- `src/plan_lineage.go:234-248` accepts an output by its alias, `src/plan_lineage.go:159` reads the
  key as written: `LineageTheorems.AliasIsNotRead` is the exact condition and
  `LineageTheorems.AnAliasCanFail` an accepted plan that fails.
- `src/plan_lineage.go:144-147` promises that an empty value is reported; that is done for step
  outputs only (`src/plan_lineage.go:163`). `BlankInputs.BlankExactly` says which inputs reach a
  capability blank, and `BlankInputs.AnEmptyFieldIsHandedOver` is an accepted plan with one.
- `src/graceful.go:31-33` says nothing a caller handed over is lost. For an agent with an open message
  that fails exactly if it was cut and none of its cut runs goes on or, if it was not cut, if none of its
  tasks is open any more (`BootRecovery.LeftWithoutAConsumer`, `BootTheorems.BootLeavesExactly`). The
  second needs one task only: an instruction accepted during a drain waits behind a run of the same
  task, that run writes the task's end over the `pending` of the acceptance (`src/autonomy.go:267-269`,
  `src/db/sqlite_store.go:783`), and `src/graceful.go:383` skips it
  (`BootTheorems.AnInstructionOfAnEndedTaskIsLeft`). `BootRecovery.AnAcceptedInstructionIsLeft` is the
  first, with two tasks.
- `src/bridgesdk/transport.go:319-321` calls the wake-up race-free; it is for one consumer at a
  time, which is how `src/bridgesdk/agent.go:237-267` uses it (`BridgeStream.NoLostWakeUp`). Two at
  once can lose one (`BridgeStream.TwoConsumersCanLoseOne`); `BridgeStream.WokenExactly` is the
  condition on a state, for any number.
- `src/completion_contract.go:317-320` says a restated contract changes nothing. That is so exactly if
  it is no longer than what is pinned (`Verification.RestatedNeverChanges`); a longer one - a later
  run's first answer, or the first answer after a contract sent with the task - adds the criteria
  beyond it (`Verification.ALongerRestatementAdds`).

## Model

| member | source | states |
|---|---|---|
| InboxTheorems.AtMostOneConsumer | src/inbox.go:258-274 | however many goroutines start an agent, at most one drains it, and exactly while `running` is set |
| InboxTheorems.HandedOverInOrder | src/inbox.go:325-377 | ids are handed over strictly increasing within a process; across crashes never backwards, and a repeat is a row some crash left running |
| InboxTheorems.ReclaimTakesNoLiveClaim | src/inbox.go:329-335 | taking back a dead process's claims happens at most once per process, before its first claim, while no goroutine holds a message |
| InboxTheorems.PutBackKeepsThePlace | src/inbox.go:347-361 | a held message that is put back is the very next one to be claimed |
| InboxTheorems.StrandedExactlyWhenLapsed | src/inbox.go:391-407 | at rest and not paused, a started agent has an open message if and only if its latest start was lost on a leaving consumer |
| InboxTheorems.NoMessageForgotten | src/inbox.go:251-274 | in every reachable state an open message has a consumer that will claim or was overtaken by an enqueue, a start under way, or a held agent - unless the start lapsed; and held agents are owed a resume |
| InboxTheorems.PauseEndsInTheWindow | src/inbox.go:296-312 | from any state where a consumer stands alone at a new run's hold check, a pause that begins and ends around the check loses the start |
| InboxTheorems.AStartCanLapse | src/inbox.go:347-360 | a reachable state at rest with an instruction left queued |
| InboxTheorems.EndedRowsStay | src/store.go:73-83 | over any run, crashes included, no row is lost or re-addressed, and an ended one never moves |
| InboxTheorems.AheadOverARun | src/store.go:90-95 | ended messages plus messages in front stay constant over any run while the message is open |
| InboxTheorems.AheadIsExact | src/inbox.go:234-249 | if the answer is n, exactly n messages end before this one is handed over, through holds, put-backs and crashes |
| InboxTheorems.NoNewRunWhilePaused | src/inbox.go:276-294 | while paused a new run is handed over only if it had passed its hold check before the pause and was already on its way |
| InboxTheorems.ReceiptsAreExact | src/inbox.go:197-214 | a caller gets its own outcome only; a delivery never blocks; its waiter is never missed; who releases a caller last is no longer the consumer |
| InboxTheorems.OneOutcome | src/inbox.go:362-376 | a caller that has its outcome never gets another |
| InboxTheorems.EndsAsAnswered | src/inbox.go:430-441 | a message ends done if its handler gave no error, stopped if it gave one and was cancelled, failed otherwise, and no other row moves |
| InboxTheorems.HeldByKind | src/inbox.go:276-294 | a claimed message is put back exactly if the runtime is paused and it is an instruction or an observation |
| InboxTheorems.ACallerIsTold | src/inbox.go:413-463 | a run from the initial state in which a delegated prompt fails, is recorded so, and its caller is told |
| InboxHeld.APauseStopsAnIdleAgent | src/inbox.go:258-294 | while paused, an agent that nobody is about to claim for is handed nothing, of whatever kind, over any run that stays paused |
| InboxHeld.HeldUnlessAConsumerIsThere | src/inbox.go:347-361 | a message that is no new run can be handed over before the pause ends if and only if a consumer is there that claims again (or a start is past its hold check) and no open new run the pause holds back stands before it |
| InboxHeld.ADelegationIsHeld | src/inbox.go:90-93 | a reachable paused state in which a delegation to an idle worker waits, and no run that stays paused hands it over |
| Inbox.Inbox.EnqueueMessage | src/inbox.go:147-174 | the new row, waiter and generation, and the start that follows, on this agent's slice; others only see an id used up |
| Inbox.Inbox.Start | src/inbox.go:258-294 | held while paused, nothing while a consumer runs, else the flag is taken with the current generation |
| Inbox.Inbox.ResumePaused | src/inbox.go:300-312 | every held agent is released, and exactly those without a consumer are started |
| Inbox.Inbox.BeginDrain | src/graceful.go:155-176 | every agent's slice is paused, and nothing else |
| Inbox.Inbox.FinishDrain | src/graceful.go:197-217 | ends an active drain and resumes what it held; an inactive one changes nothing |
| Inbox.Inbox.ClaimNextMessage | src/store.go:69-72 | takes the oldest queued row of the agent, or none when there is none |
| Inbox.Inbox.RequeueRunningMessages | src/store.go:81-83 | the agent's running rows are queued again, and no other row moves |
| Inbox.Inbox.TakeWaiter | src/inbox.go:451-457 | answers whether somebody waits for this message, who is then registered no more |
| Inbox.Inbox.ClearRunning | src/inbox.go:395-400 | the flag is cleared, and the answer is whether the generation moved since the consumer captured it |
| Inbox.Inbox.QueueIsDry | src/inbox.go:379-389 | whether the agent has no queued row |
| Inbox.Inbox.Admit | src/inbox.go:347-361 | a new run is put back and remembered while paused, anything else goes on |
| Inbox.Inbox.Process | src/inbox.go:413-449 | the waiter is taken, and the row is done exactly if the handler gave no error, stopped exactly if it gave one and was cancelled, failed exactly if it gave one and was not |
| Inbox.Inbox.Drain | src/inbox.go:328-407 | run alone: handles in arrival order exactly the queued messages up to the first run a pause holds back, ends each row, tells exactly the waiting callers, and is a path of the protocol's sections |
| Inbox.Inbox.CountMessagesAhead | src/store.go:90-95 | the number of open rows of the agent with a smaller id |
| InboxRefinement.PathIsARun | src/inbox.go:328-377 | every path of the consumer method is a run of the protocol from any reachable state that shows its start |
| BootRecovery.ResumeAcceptedInstructions | src/graceful.go:363-412 | picks exactly the open tasks whose agent has a queued and no running message |
| BootRecovery.ResumeInterruptedRuns | src/graceful.go:435-487 | picks exactly the resumable tasks whose own run was cut, not too long ago |
| BootRecovery.InterruptedRunSince | src/graceful.go:509-532 | the latest time a run of this task was cut, or none |
| BootRecovery.Boot | src/autonomy.go:154-160 | both passes, the second on what it reads anew: no task that ended or that a person stopped is picked, and the agents started are exactly those that at the first reading had queued messages only and an open task, or a cut run of a resumable task that is young enough - whatever the agents of the first pass have done meanwhile; on one reading no task is picked twice |
| BootRecovery.OneTaskPerAgent | src/graceful.go:509-532 | with one task on the agent: a cut one is started exactly if healing is on, it may be resumed and its cut is young; one that was not cut exactly if it is open |
| BootRecovery.AnAcceptedInstructionIsLeft | src/graceful.go:363-412 | two tasks on one agent: an accepted instruction that nobody is started for |
| BootTheorems.BootDecides | src/graceful.go:350-481 | after a crash, with nobody else addressing the agent and however often the passes start it, what is left at rest is what they left unstarted, untouched, or what a lapsed start left |
| BootTheorems.BootLeavesExactly | src/graceful.go:31-33 | an agent with an open message has one left at rest exactly if it was cut and no cut run of its tasks goes on, or was not cut and has no open task, or its start lapsed |
| BootTheorems.ASecondStartIsIdle | src/graceful.go:481 | starting an agent whose consumer is at work changes neither rows nor memory nor goroutines |
| BootTheorems.AnInstructionOfAnEndedTaskIsLeft | src/graceful.go:379-385 | one task, nothing cut: a reachable state whose restart starts nobody and rests with an accepted instruction queued, whatever the task ended as |
| ChatFold.ChatAggregator.Add | src/llm_message.go:77-109 | the mutated groups and index, and the rows returned, are the functional fold's |
| ChatFold.ChatAggregator.Flush | src/llm_message.go:131-143 | returns the rows still open, in order, and marks them written |
| ChatFold.FlushedOnce | src/llm_message.go:131-143 | flushed a second time there is nothing to write, and a flush changes nothing else |
| ChatTheorems.FoldIsTheGrouping | src/llm_message.go:77-129 | after any stream every group is its declarative row and the index names the row of each call id seen |
| ChatConversation.StoredIsCurrent | src/llm_message.go:56-67 | after any prefix exactly the complete rows are stored, none stale |
| ChatConversation.ThinkingRowsAreFinal | src/llm_message.go:64-67 | a thinking row once written never changes |
| ChatConversation.StreamingIsBatch | src/llm_message.go:34-54 | everything written live, then flushed, is the conversation of the whole stream with seqs 1..n |
| ChatConversation.ThoughtsAreConserved | src/llm_message.go:169-182 | the thinking rows in order spell exactly the concatenated thoughts |
| ChatConversation.OneRowPerCall | src/llm_message.go:89-106 | each non-empty call id has exactly one row, with its last result, last name and first arguments |
| ChatEvents.LastResultIsLast | src/llm_message.go:225-228 | the result of a row is its last one, or there is none |
| ChatEvents.LastNameIsLast | src/llm_message.go:217-219 | the name of a row is its last non-empty one |
| ChatEvents.FirstArgsAreFirst | src/llm_message.go:220-224 | the arguments of a row are the first that are not null |
| ChatEvents.ThoughtsShareARow | src/llm_message.go:77-88 | two thoughts are in one row if and only if no tool row begins between them |
| ChatEvents.CallsShareARow | src/llm_message.go:89-106 | two tool events are in one row if and only if they carry the same non-empty call id |
| ChatEvents.ThinkingRowLasts | src/llm_message.go:184-214 | a thinking row has the first duration reported, or else the whole milliseconds between the first and last time its events know, if any |
| ChatTrace.AggregateChatMessages | src/llm_message.go:37-54 | folding a whole stream at once gives its conversation |
| ChatTrace.LlmTrace.Emit | src/llm_trace.go:117-144 | keeps stored rows and raw stream up to date with the events seen; a closed trace ignores the event |
| ChatTrace.LlmTrace.Finish | src/llm_trace.go:171-210 | leaves the whole conversation and, when kept, the whole raw stream in the store, numbered from 0 |
| PlanInput.AcceptedPrintsBack | src/plan_input.go:189-225 | every accepted binding prints back as its trimmed text |
| PlanInput.StepRoundTrip | src/plan_input.go:201-211 | a step binding is read back as printed if and only if the name is usable and the key non-empty, without dot, blank or tab, and not ending in white space |
| PlanInput.WorldRoundTrip | src/plan_input.go:212-221 | an asset id is recovered whole, dots included, exactly if it is not empty |
| PlanInput.StepBindingIsUnambiguous | src/plan_input.go:174-176 | no two outputs of usable names print alike |
| PlanInput.MarshalRoundTrip | src/plan_input.go:143-150 | an input survives its JSON form if and only if it is a trimmed binding or a plain literal |
| PlanInput.StoredInputIsStable | src/plan_input.go:58-122 | what a plan may write is stored in a form that reads back the same, a binding staying a binding |
| PlanInput.LiteralIsItsText | src/plan_input.go:96-122 | a literal is the text of what was written, plain or under "value" |
| PlanInput.RefusedExactly | src/plan_input.go:73-94 | refused are exactly the objects with neither source nor value and the sources that are no text or blank |
| PlanLineage.ValidatePlanLineage | src/plan_lineage.go:29-112 | accepts exactly the plans with usable unique names, bindings to declared outputs of earlier steps or the world, and every input declared and required one supplied |
| Acceptance.LineageIsSound | src/plan_lineage.go:29-112 | the check accepts a plan if and only if its names are usable and its own, every input is declared and every required one there, and every binding reads the world or a declared output of an earlier step |
| Acceptance.EveryStepCanBeBound | src/plan_lineage.go:38-52 | whatever a step of an accepted plan is called, a binding to its outputs can be written |
| PlanExecution.ResolveStepInputs | src/plan_lineage.go:127-142 | resolves all inputs or none |
| PlanExecution.ExecuteAction | src/action.go:56-100 | the record of one action: what its capability was called with and what it answered, failure included; one that cannot be called has failed and reported nothing |
| PlanExecution.ExecuteSteps | src/runtime.go:176-204 | runs the actions in order up to the first failure, and fails if and only if a step could not be called or its capability answered that it failed |
| ExecutionTheorems.ReachedExactly | src/runtime.go:189-201 | an action comes to its turn if and only if every step before it could be called and did not answer that it failed |
| ExecutionTheorems.RecordSaysWhatHappened | src/action.go:88-98 | every action that came to its turn has its record, with the input, output and failure of its own call |
| ExecutionTheorems.ResolvesExactly | src/plan_lineage.go:144-196 | an input has a value if and only if the plan writes it, the first record of the bound step reports it and it is not blank, or the asset has it - and which |
| ExecutionTheorems.TaskIdIsFilledIn | src/action.go:102-123 | the task id is there exactly if it is declared, the task has one and the plan gave none; nothing else changes |
| ExecutionTheorems.CalledWithWhatIsGiven | src/plan_lineage.go:124-142 | each input of a call is what the plan, the earlier steps or the world give for it, and there is no other |
| LineageTheorems.BindingFindsItsProducer | src/plan_lineage.go:148-174 | in an accepted plan every step binding finds exactly one prior record: that of the one earlier step of that name, which ran and did not fail |
| LineageTheorems.NothingIsMissing | src/plan_lineage.go:149-168 | no binding of an accepted plan is unreadable or finds nothing produced, whatever the capabilities do |
| LineageTheorems.ProducerIsThere | src/plan_lineage.go:155-168 | for any plan: a binding finds no producer exactly if no earlier step has the name |
| LineageTheorems.CallsAreComplete | src/plan_lineage.go:98-109 | a capability of an accepted plan is called with every required field under its name or an alias, and nothing but the step's inputs and the task id |
| LineageTheorems.BoundValueIsHandedOver | src/plan_lineage.go:159-166 | a bound value is the producer's, verbatim and never blank |
| LineageTheorems.AliasIsNotRead | src/plan_lineage.go:159-162 | with a producer that reports as it declares, an accepted binding has a value if and only if its key is a declared name |
| LineageTheorems.AnAliasCanFail | src/plan_lineage.go:86-88 | an accepted plan that fails although every capability reports what it declares |
| BlankInputs.BlankExactly | src/plan_lineage.go:144-147 | a called capability of an accepted plan gets an input blank if and only if its literal or its World Model field is blank and the task id does not take its place; never from a step |
| BlankInputs.AnEmptyFieldIsHandedOver | src/plan_lineage.go:178-196 | an accepted plan whose step is called with an empty World Model field |
| LineageTheorems.PlannedSteps | src/runtime.go:240-253 | one planned row for each action that executes, with ids of their own |
| LineageTheorems.PlannedOrExecuted | src/runtime.go:343-353 | a planned row has a record exactly if its action was reached, and then one, that action's |
| Evidence.TaskStepOutputs | src/verification.go:435-481 | one entry for each step that has an ok row: the capability and output, verbatim, of its last ok row, ordered by the first |
| Evidence.ProducedIsLatest | src/verification.go:462-479 | the incremental evidence meets that definition over the raw rows |
| Evidence.FailuresDoNotCount | src/verification.go:464-466 | a row that is not ok, or has no name, changes nothing wherever it stands |
| Evidence.BindingReadsTheLast | src/verification.go:435-439 | a slot is empty exactly if its step never had an ok row, and else holds what the last one reported |
| Evidence.LatestIsUnique | src/verification.go:435-439 | the rows determine the evidence |
| Verification.VerifyDone | src/verification.go:202-229 | a done holds up if and only if the contract is not empty and every criterion passes; every verdict is recorded |
| Verification.PassIsConfirmed | src/verification.go:231-356 | any criterion passes if and only if its slot reads and the authority behind the slot states the fact: for a step's output the one tool that checks its kind, asked about exactly that output; for the World Model the asset's field |
| Verdicts.StepPassMeans | src/verification.go:312-357 | a criterion over a step's output passes if and only if the one declared tool of the output's kind was asked about what the step reported and states the fact |
| Verdicts.StepFailMeans | src/verification.go:312-357 | it fails if and only if that tool contradicts it; missing evidence, no tool, two tools or no answer are inconclusive |
| Verdicts.WorldVerdictMeans | src/verification.go:281-310 | over the World Model: inconclusive exactly if it cannot be judged, else passing exactly if the asset is there and its field as expected |
| Verdicts.TheCheckerAnswers | src/verification.go:114-147 | the tool asked is the one that checks the kind, and it is asked in the input of that kind |
| Verdicts.InputIsChosen | src/verification.go:149-165 | the evidence goes into the first input of its kind that bears its name, else into the first of its kind |
| Verdicts.CanAskMeans | src/verification.go:368-433 | a reader is called exactly if it is a tool this runtime runs that takes the evidence and requires nothing else |
| Verification.ReaderGetsTheSlot | src/verification.go:368-433 | once the reference is non-blank resolution cannot fail, and the reader is called with exactly the producer's output and at most the task id |
| Verification.OtherStepsDoNotMatter | src/verification.go:312-318 | the verdict depends on the bound step's last success alone |
| Verification.OneToolAnswers | src/verification.go:114-147 | a kind has a tool if and only if exactly one checks it |
| Verification.FindTool | src/verification.go:116-147 | going through the tools finds that one, or none |
| Verification.ContractStore.Pin | src/completion_contract.go:321-343 | the first criterion of a position is kept; a longer contract adds what lies beyond |
| Verification.ContractStore.List | src/completion_contract.go:348-374 | reads the pinned contract in order |
| Verification.ContractOnlyGrows | src/store.go:181-184 | however many contracts follow, the pinned one only grows at its end |
| Verification.FirstContractCounts | src/completion_contract.go:317-320 | each position is what the first contract that reached it said |
| Verification.RestatedNeverChanges | src/completion_contract.go:317-320 | however many contracts follow, the pinned one is unchanged if and only if none is longer |
| Verification.ALongerRestatementAdds | src/completion_contract.go:317-320 | a second contract that adds a criterion |
| Verification.ValidateCompletionContract | src/verification.go:550-570 | accepts exactly the contracts whose slots are readable, fit this plan's own step if they name one, and name no check |
| Acceptance.ContractMeans | src/verification.go:550-570 | a contract is accepted if and only if each criterion has no slot, or a readable one that names the world or - if a step of this plan - a declared output, and no check of its own |
| Decisions.ValidateDecision | src/decision_rules.go:90-97 | decides exactly the requirements of the decision's type |
| Decisions.PlanEvidenceRefsExist | src/decision_rules.go:125-146 | every reference of every step is an id the decision carries |
| Decisions.NeedOptionsAreChoices | src/decision_rules.go:276-300 | none, or two to nine options, none blank and no two alike |
| Acceptance.RulesMean | src/decision_rules.go:90-300 | a decision is accepted by its type's rules if and only if it meets them, written out for each type |
| Acceptance.AcceptedMeans | src/runtime.go:131-154 | what is recorded meets its rules, has a sound plan and - the first of a run - a contract that can be judged; and all such is |
| ApprovalGate.NoStepUnconfirmed | src/autonomy.go:430-491 | over whole histories with restarts: in the process that initialised the agent a step runs only of a plan that passed its checks and was paused on, then confirmed while it was the one pending, then released |
| ApprovalGate.ReleasedOnce | src/autonomy.go:433-444 | a plan is released at most once and each step of it runs at most once, restarts or not |
| ApprovalGate.ApprovedMeansPending | src/autonomy.go:343-348 | an outstanding confirmation always has the plan it was given for |
| ApprovalGate.GateEndsWithItsProcess | src/agent_resume.go:141-153 | an accepted plan is dispatched unconfirmed if and only if the process is not the one that initialised the agent; there an approval changes nothing |
| ApprovalGate.UnconfirmedExactlyAfterARestart | src/agent_init.go:110-119 | a gated agent can run an unconfirmed capability step in a process if and only if it is not the first |
| DecisionLoop.MaxSteps | src/autonomy.go:701-711 | the budget is at least one, and the environment's when that is positive |
| DecisionLoop.TaskRun.Execute | src/runtime.go:125-204 | a refused decision leaves everything as it was; an accepted one is recorded with its rows, pins on the first cycle, and runs its steps linked to those rows or is verified |
| DecisionLoop.TaskRun.RecordPlan | src/runtime.go:131-163 | a decision is recorded exactly if it passes every check, with one row for each step that no other plan has, and the first cycle pins its contract |
| DecisionLoop.TaskRun.RunRecorded | src/runtime.go:164-204 | a recorded decision's steps are run with its rows and kept, or its done is verified |
| DecisionLoop.TaskRun.ExecuteApproved | src/autonomy.go:433-445 | the pending plan, and no other, leaves the gate and runs |
| DecisionLoop.CycleIsLinked | src/runtime.go:343-353 | in every cycle of a run a row of its plan has a record exactly when its action was reached, and then one |
| DecisionLoop.CycleMissesNothing | src/runtime.go:131-163 | a cycle that ran unconfirmed had passed every check, and no binding of a step that came to its turn was unreadable or found nothing produced |
| DecisionLoop.OnlyConfirmedRuns | src/autonomy.go:430-491 | in a gated run whose planner answers the known types, a cycle that ran any step ran the confirmed plan |
| DecisionLoop.TaskRun.PauseOn | src/autonomy.go:475-491 | the plan is on record, none of it has run, and it is the one pending |
| DecisionLoop.TaskRun.RunLoop | src/autonomy.go:400-564 | ends within its budget; each cycle's decision answers all results before it and runs as decisions run; the contract is what the first cycle pinned; the task ends completed, blocked or waiting for input exactly as its last answer says if that held up, unverified exactly if it was a done that did not, failed otherwise; and `completed` if and only if the last decision is a well-formed done and every criterion of a non-empty contract passed |
| DecisionLoop.TaskRun.ProcessInstruction | src/autonomy.go:324-362 | the same for one message, an approval confirming only a pending plan |
| GateRefinement.CallIsAGateRun | src/autonomy.go:324-362 | processing one message is a run of the gate's protocol from any state at the same gate, in which workers run exactly the recorded steps |
| GateRefinement.HistoryIsAGateRun | src/autonomy.go:400-564 | so are an agent's messages, in any number and with restarts anywhere between them |
| GateRefinement.EveryCycleWasConfirmed | src/autonomy.go:430-491 | in the process that initialised a gated agent, every cycle of every message that has run a step ran a plan that was checked, paused on, confirmed while pending, and released |
| BridgeStream.InOrderThenTheEnd | src/bridgesdk/transport.go:335-375 | under all interleavings delivered plus buffered is what was pushed, in order; the first result is the one told, and only after all events |
| BridgeStream.NoLostWakeUp | src/bridgesdk/transport.go:328-404 | with one consumer at a time, one that stays parked has nothing to get |
| BridgeStream.TwoConsumersCanLoseOne | src/bridgesdk/transport.go:319-333 | with two consumers at once a wake-up is lost in a concrete run |
| BridgeStream.WokenExactly | src/bridgesdk/transport.go:319-333 | in any state, without a further event or result a parked consumer can be woken if and only if the slot is full or a signal is owed |
| BridgeStream.OneConsumerGetsAll | src/bridgesdk/transport.go:356-375 | a run in which one consumer, asking again and again, gets every event and then the end |
| BridgeStream.RunStream.SetResult | src/bridgesdk/transport.go:342-353 | the first result is kept, and only that one is to be signalled |
| BridgeStream.RunStream.Next | src/bridgesdk/transport.go:356-375 | the oldest buffered event, the result once there is none, or nothing yet |
| BridgeStream.RunStream.Drain | src/bridgesdk/transport.go:356-375 | one consumer alone gets all events in order and then the end |
| BridgeTransport.HeldOnce | src/bridgesdk/transport.go:246-274 | a request is in one hand at most, and a new id is nobody's |
| BridgeTransport.ChannelIsFree | src/bridgesdk/transport.go:166-180 | a send and a close always find an empty, open channel: nothing blocks and nothing is both sent to and closed |
| BridgeTransport.RunEndsOnce | src/bridgesdk/transport.go:182-188 | a run's stream is finished at most once |
| BridgeTransport.NobodyIsForgotten | src/bridgesdk/transport.go:198-219 | a waiting call has its answer, a close, or somebody who owes it one; a call's answer is its own |
| BridgeTransport.AfterShutdownNobodyWaits | src/bridgesdk/transport.go:80-111 | once what the shutdown took is released, no call and no stream is left waiting, and nobody registers any more |
| BridgeTransport.ShutdownCompletes | src/bridgesdk/transport.go:136-146 | after the shutdown each release leaves one less to release and no other step adds to it |
| BridgeTransport.SomethingCanBeReleased | src/bridgesdk/transport.go:140-146 | as long as something is to be released, a step that releases it is possible |
| BridgeTransport.AnswerIsFinal | src/bridgesdk/transport.go:204-219 | an answered or closed channel never changes but by being received |
| BridgeTransport.Transport.Begin | src/bridgesdk/transport.go:236-249 | a fresh id in exactly one map, or a refusal when closed |
| BridgeTransport.Transport.TakeResult | src/bridgesdk/transport.go:166-176 | the request leaves its map, and which map it was in is told |
| BridgeTransport.Transport.Steal | src/bridgesdk/transport.go:92-111 | closes and takes everybody who waits; the second time nobody |
| BridgeRuns.ResultAfterItsEvents | src/bridgesdk/transport.go:149-188 | a run told the bridge's result is told that of its own request, after every event the bridge sent for it before that result, in order, and no other |
| BridgeRuns.AnswerIsTheFirstResult | src/bridgesdk/transport.go:166-219 | a call that has an answer has what the first result line for its request said, success or error; until then its channel or the reader holds the same |
| BridgeRuns.AnErrorIsTold | src/bridgesdk/transport.go:198-219 | a run in which the bridge answers a call with an error and the caller is told an error |
| BridgeRuns.OnlyItsOwnEvents | src/bridgesdk/transport.go:149-164 | what a run has been delivered is always a beginning of what the bridge sent for its request |
| BridgeRuns.ParkedHasEverything | src/bridgesdk/transport.go:356-404 | a run's consumer that stays parked has everything sent so far, its result has not come, and the bridge is not shut down |
| BridgeRuns.EachRunIsAStream | src/bridgesdk/transport.go:221-249 | each run's stream behaves as a stream by itself, whatever reader, shutdown and other runs do |
| BridgeRuns.WritersAreNeverStuck | src/bridgesdk/transport.go:149-188 | whoever holds an event or a result for a run finds its stream there to write to |

## Left out

- `Inbox.Stop` and the `current` map of cancel functions: a handler's answer is an arbitrary pair of failed and cancelled instead.
- Failing stores: every store call succeeds. Several processes on one store are not modelled.
- One agent at a time: the protocol interleaves the goroutines of one agent; other agents only use up ids. The class covers all agents, one section at a time.
- Inbox.Inbox.Drain: states the result when nobody else acts meanwhile; what others do in between is the protocol's, for all interleavings.
- Teardown (`RestartDrain.stop`), the safety timer's race with being stopped, and the fields of `RestartStatus`: `canRestart` is an instantaneous fact with no lasting property.
- `drained` and the agent's state: not a faithful busy flag, so no loan exclusivity is claimed.
- BootRecovery.Boot: between the two readings only what belongs to agents the first pass has started may change. Resuming an agent is assumed to succeed.
- Fair scheduling: progress is stated as what holds at rest and as measures that fall, not as liveness.
- JSON text of rows, the saturation of very long durations, log lines, and which error message is reported first.
- Letter case beyond ASCII in capability names and in `matches`.
- An empty World Model, a runtime without capability factory, and a runtime without an execution store (a confirmed plan with id 0 is then checked again).
- A panicking capability: it counts as one that fails.
- `needNotAskRuntimeToAuthorizeAWorker`: the keyword match on prose is one arbitrary boolean of the decision.
- Parsing of contracts and decisions from JSON, provenance ids, evidence items beyond their ids, execution interactions.
- DecisionLoop.TaskRun.RunLoop: a cancelled loop's worker is taken to run its plan through, and its cycle is not in the history; a worker that goes on beside later messages is in `ApprovalGate`.
- `planStepProgress` and `fillExecuted` (`src/api_service.go`): merging planned and executed rows for display.
- Bridge: parsing and writing lines; a failed write is a step that may happen. What an event says beyond its identity.
- HTTP, CLI, SQL, provider sessions, prompts, runtime accounts, gateway and watcher packages.
