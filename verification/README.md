# Smart-account sequencer: a Dafny model

This project models the contracts that release a plan of steps in order on NEAR,
and proves what a plan's author relies on. The core is the smart account: every
step of a plan is registered as a yielded receipt, the first is resumed, and each
later one is resumed only after the call before it has resolved. Between wake-up
and resolution a step may have to pass a gate, have its arguments filled in from
values saved by earlier steps, be sent through an adapter, or pass a postcheck.
Receipts come back one at a time, in any order, with any outcome; a yielded receipt
may time out at any moment.

## How the model is laid out

| files | content |
|---|---|
| `Prelude`, `Types` | shared vocabulary, widths of integers, the domain types |
| `NamespaceKeys` | the string keys `{namespace}#{step_id}` and the slice of a map one namespace owns |
| `Decimal`, `PreGates`, `Materialize`, `TemplateProofs`, `Ladder` | the gate and value-threading engine |
| `Sequencer`, `Account` | what each entry point and callback does, as functions on one namespace and on the whole account |
| `SmartAccount` | the contract as a class over mutable maps, each method proved against those functions |
| `Interpreter` | the reference: a sequential interpreter of a plan that knows no queue, registration or yield |
| `RunInvariant`, `RunShapes`, `RunProofs`, `RunEndings`, `Links` | what every event keeps, for one namespace |
| `Protocol`, `ProtocolSteps` | the account and its environment as a transition system with histories; its invariant |
| `Theorems`, `Completion`, `AssertedResults` | the results about automation runs over all schedules |
| `Decisions`, `Postchecks`, `SentCalls` | what makes a step go on, and every call ever sent, in terms of the reply and of the step as declared |
| `Acceptance`, `TriggerHistory` | exactly when each entry point accepts a call; what triggers and templates say, read off the events |
| `OneAtATime`, `ManualNamespaces`, `QueueOwners`, `ManualRuns` | manual namespaces: exactly when runs keep out of each other's way, and what they then do |
| `Overlaps`, `StaleReceipts` | schedules on which they do not, and exactly which old receipts are harmful |
| `Gas`, `Adapters` | gas budgets, the polling adapter and the wrapping adapter |
| `SimpleSemantics`, `SimpleSequencer`, `SimpleHistory`, `LockStep`, `SimpleOneAtATime` | the small sequencer, its bijection, the simulation between the two sequencers, and what it carries over |
| `Correlate`, `ReceiptTree` | pairing callbacks with data receipts; the receipt tree and its verdict |

A schedule is any finite sequence of events: calls of the entry points with any
arguments, timeouts, and deliveries of any outstanding receipt with any reply. A
call that panics leaves the state as it was; in the classes it returns `ok == false`.
Who calls, whether the caller is authorized and the account's balance are arguments
of the event. `Protocol.World` adds, per automation
namespace, the history of the run fired last: the calls it sent, the replies it was
given, the result bytes of the steps that passed, and whether a yield timed out.

Taken from NEP-519 (section "Specification"): a yielded callback runs exactly once,
with Ok if it was resumed and Err if it timed out, and a resumed yield cannot time
out. Callbacks are called only by the receipts the contract itself builds, and do
not run out of gas.

Assumed of the environment (`Protocol.Allowed`): account ids and trigger ids contain
no `#`, and a deleted trigger id is created again only when no receipt of its earlier
runs is outstanding. Both are checkable before the call. How far they are needed is
proved: `Account.NamespacesCollideIff` says which trigger ids get in each other's way,
`StaleReceipts.StaleDisturbsIff` which outstanding receipts can disturb a run fired over
them, and `StaleReceipts.ReuseBreaksRun` gives a schedule that breaks only the second
assumption and on which a step is skipped. That a firing namespace is quiet is then
proved, not assumed.

## Where the code is subtler than its documentation

- A gated step's resume reserve does not always cover the gate call and its callback:
  it does if and only if the gate's gas plus 5 is at most the policy's overhead, so
  never for a Direct step; and the gate callback's own gas covers the dispatch for
  Direct steps only (`Gas.ReserveCoversGatedIff`, `Gas.GateCallbackCoversIffDirect`).
- A halt stops gate and target calls for good, but the postcheck of an Asserted step
  that was already in flight still goes out (`RunEndings.LateReceipt`).
- Saved values are scanned again by later substitutions, so the order of the
  substitutions can matter when a saved value contains `$`
  (`TemplateProofs.SavedDollarBreaksOrder`).
- The pairing of callbacks with data receipts is a maximum one for every order of the
  rows; sorting them first is needed only for a deterministic result.
- "One step after the other" holds in an automation namespace unconditionally
  (`OneAtATime.AutomationOneAtATime`). In a manual namespace, and in the small sequencer,
  it holds if and only if every run is started while no step of the caller is on its way
  (`OneAtATime.OneAtATimeIff`, `SimpleOneAtATime.SimpleOneAtATimeIff`); the guard in
  `start_sequence_release` checks the queue only, which is gone once the last step has
  been taken. Otherwise a step can be released before its predecessor has been called
  (`Overlaps.OverlapReleasesEarly`).
- After a manual halt the leftover steps stay registered. A run's queue can be taken by
  receipts that are not its own if and only if there is a queue and, when the run was
  started, a step outside its order was registered or some step was on its way
  (`QueueOwners.QueueTakenByOthersIff`; a schedule: `Overlaps.LeftoverDropsQueue`).
- The result an Asserted step saves is the empty return of its last callback, not the
  target's bytes (`AssertedResults.AssertedSavesEmpty`).
- A deleted and recreated trigger cannot fire until the row its predecessor left under
  the same nonce is pruned (`Completion.TriggerFiresIff`).

## Model

| member | source | states |
|---|---|---|
| `Decisions.GateDecides` | contracts/smart-account/src/lib.rs:917-1055 | in every reachable world and for every reply to the gate of a registered step: the target is called, with the declared receiver, method, deposit and gas and arguments made from the saved values, iff the reply is a success of at most 16384 bytes denoting a value at least the declared minimum and at most the declared maximum (where present) and the arguments can be made; otherwise nothing is sent, and step, receipt, queue, saved values and the run in flight are gone, DownstreamFailed at this step |
| `Decisions.WakeUpDecides` | contracts/smart-account/src/lib.rs:709-828 | the wake-up receipt: a step no longer registered does nothing, a timed-out one is given up on as ResumeFailed, a gated one asks its gate, any other one is called or given up on |
| `Decisions.AssertedReplyDecides` | contracts/smart-account/src/lib.rs:1106-1144 | the postcheck is asked iff the target's answer is a success of at most 16384 bytes, whatever it says; the bytes expected are those declared |
| `Decisions.LastReceiptDecides` | contracts/smart-account/src/lib.rs:831-894 | a step of a run in flight passes iff the answer it is judged by is a success of at most 16384 bytes: the bytes are saved under the declared name and the next step is woken up, or the run completes; otherwise the run is over, DownstreamFailed at this step |
| `Decisions.EverySendIsOwn` | contracts/smart-account/src/lib.rs:773-827 | in any namespace a receipt sends at most one call: the gate or target call of the step registered for it, or the postcheck of the call sent before |
| `Postchecks.PostcheckDecides` | contracts/smart-account/src/lib.rs:1152-1234 | over the two receipts of a postcheck and whatever happens between them: the step passes iff the answer is a success of at most 16384 bytes equal to the step's expected_return; otherwise the run is DownstreamFailed at this step and nothing is sent for it until its namespace is fired again |
| `SentCalls.EveryCallIsExplained` | contracts/smart-account/src/lib.rs:2831-2890 | every call ever sent for a run belongs to a step k of its plan: gate and postcheck calls go where the step says; a Direct or Asserted target call goes to target and method with plain arguments, an Adapter one to adapter and adapter method with the whole call wrapped, the full deposit and 320 TGas more; the arguments are made from what the first k steps returned |
| `SentCalls.SameArrival` | contracts/smart-account/src/lib.rs:2637-2648 | under all three policies the call that reaches the target, once an adapter makes the call it was handed, is the step's: receiver, method, filled-in arguments, deposit and gas |
| `Acceptance.ExecuteStepsIff` | contracts/smart-account/src/lib.rs:624-662 | execute_steps goes through iff it is authorized, the plan is non-empty and valid, no id repeats or is taken, and no release is pending |
| `Acceptance.RunSequenceIff` | contracts/smart-account/src/lib.rs:2416-2482 | in every reachable world a release starts iff it is authorized, names only registered steps, at least one, none is pending, and the first step is still yielded |
| `Acceptance.OwnerCallsIff` | contracts/smart-account/src/lib.rs:1248-1374 | when each template and trigger call of the owner goes through; a trigger is deleted only while no run row of it is in flight |
| `TriggerHistories.TriggerTerms` | contracts/smart-account/src/lib.rs:1313-1374 | over every schedule a trigger has the terms of the creation it goes back to and has started exactly as many runs as it was fired since, at most max_runs |
| `TriggerHistories.PlanIsLastSaved` | contracts/smart-account/src/lib.rs:2036-2063 | the plan a run follows is what the owner had saved last, under the trigger's sequence id, when the run was fired |
| `TriggerHistories.TriggerRecordsLastRun` | contracts/smart-account/src/lib.rs:3099-3147 | in every reachable world a trigger names its last run and its outcome truthfully, also after the row was pruned; a trigger never fired says nothing |
| `Theorems.RunRefinesInterpreter` | contracts/smart-account/src/lib.rs:709-894 | for every allowed schedule and every continuation of the replies, the calls a run has sent (step, arguments, deposit, gas) are a prefix of what a sequential interpreter of its plan sends with the same replies |
| `Theorems.RunEqualsInterpreter` | contracts/smart-account/src/lib.rs:2998-3147 | a run that did not fail to resume and has no receipt of its own due has done exactly what the interpreter does; it is Succeeded iff all steps passed, and DownstreamFailed with exactly the first step whose gate, materialization, target or postcheck failed |
| `Theorems.ResumeFailsOnlyByTimeout` | contracts/smart-account/src/lib.rs:738-771 | a run ends as ResumeFailed only if a yielded step timed out, and then names a step of its plan |
| `Theorems.PunctualRunIsExact` | contracts/smart-account/src/lib.rs:709-894 | as long as no yield of the run timed out, its calls and its status are exactly the interpreter's |
| `Completion.FinishedRunStaysExact` | contracts/smart-account/src/lib.rs:1880-1902 | the calls and the ending of a run that completed or failed downstream equal the interpreter's at every later time, its row pruned or not, until its namespace is fired again |
| `AssertedResults.AssertedSavesEmpty` | contracts/smart-account/src/lib.rs:847-866 | on the account: when the receipt by which an Asserted step passes comes in, what is then held under the step's declared name is empty, or the run is over and nothing is held |
| `Theorems.RunDepositBound` | contracts/smart-account/src/lib.rs:2056-2063 | the deposits a run attaches to targets never exceed the total its template was saved with, hence never the balance checked at firing |
| `Theorems.InFlightShape` | contracts/smart-account/src/lib.rs:2416-2482 | while a run is in flight there is one k: steps before k have passed and are gone, exactly the steps from k on are registered, the queue is exactly the steps after k, only step k is past its yield, and the saved values are exactly those of the passed steps |
| `Theorems.NotInFlightCleared` | contracts/smart-account/src/lib.rs:3099-3165 | outside flight no step, queue or saved value of an automation namespace is in the account |
| `Theorems.TargetsUseSavedValues` | contracts/smart-account/src/lib.rs:2750-2771 | every target call of an automation run is the call of the next step of its plan, materialized against exactly the fold of the earlier steps' saved results |
| `RunInvariant.LastWriterWins` | contracts/smart-account/src/lib.rs:2700-2736 | of several steps saving under one name, the last one's bytes are the value |
| `RunInvariant.OnlyDeclaredNames` | contracts/smart-account/src/lib.rs:2700-2736 | a saved name is the declared name of some step that passed |
| `Completion.HaltIsFinalForever` | contracts/smart-account/src/lib.rs:3099-3165 | once a run left flight and until its namespace is fired again: only postcheck calls go out, its row keeps status and failed step or is pruned, and nothing of it is registered, queued or saved |
| `Completion.CurrentStepProgresses` | contracts/smart-account/src/lib.rs:831-894 | a run in flight always has a receipt of its current step to deliver, and delivering it ends the run or strictly lowers (unresolved steps, remaining phases) |
| `Completion.OthersDoNotDelay` | contracts/smart-account/src/lib.rs:709-771 | every other event leaves that measure as it is or ends the run |
| `Completion.RunsAreBounded` | contracts/smart-account/src/lib.rs:2998-3147 | a run of n steps stays in flight for fewer than 6n receipts of its current steps, whatever else happens in between |
| `Completion.EveryRunCanEnd` | contracts/smart-account/src/lib.rs:2998-3147 | from every reachable world a run in flight is driven to an end by its own receipts, whatever the replies |
| `Completion.TriggerAgreement` | contracts/smart-account/src/lib.rs:1990-2146 | a trigger is in flight iff some run of it is, that run is the only one and stored under the current nonce, runs_started never exceeds max_runs, and its template exists |
| `Completion.TriggerFiresIff` | contracts/smart-account/src/lib.rs:2036-2115 | in every reachable world a trigger fires iff it is authorized, exists, is idle, has runs left, the balance covers threshold and template total, and no row of an earlier trigger holds its next namespace |
| `Completion.MethodsApply` | contracts/smart-account/src/lib.rs:2360-2412 | the receipt assumptions of the contract methods hold in every reachable world |
| `ProtocolSteps.NextKeeps` | contracts/smart-account/src/lib.rs:1248-1374 | every event, including create, overwrite, delete and prune, keeps the global invariant and changes only the namespace it works on |
| `ProtocolSteps.NextFresh` | contracts/smart-account/src/lib.rs:2065-2074 | a namespace its trigger has yet to use never has a receipt outstanding |
| `ProtocolSteps.ReachableInvariant` | contracts/smart-account/src/lib.rs:709-894 | every world of every allowed schedule satisfies the invariant |
| `OneAtATime.OneAtATimeIff` | contracts/smart-account/src/lib.rs:2416-2482 | over every schedule: a namespace has at most one step on its way at all times iff every release accepted in it started while none was |
| `OneAtATime.AutomationOneAtATime` | contracts/smart-account/src/lib.rs:1990-2146 | automation namespaces meet that condition by themselves |
| `OneAtATime.OneStepIff` | contracts/smart-account/src/lib.rs:2421-2425 | one event keeps one step at a time unless it starts a release beside a step on its way |
| `ManualNamespaces.ManualBijection` | contracts/smart-account/src/lib.rs:2360-2412 | in a manual namespace, overlapping runs and leftover steps included, each registered step has its one receipt and each receipt its step |
| `ManualNamespaces.QueueFollowsStep` | contracts/smart-account/src/lib.rs:3077-3092 | with quiet starts the queue is at all times what the latest run declared behind the step that is on its way |
| `ManualNamespaces.ReleasedByPredecessor` | contracts/smart-account/src/lib.rs:2998-3075 | with quiet starts, outside the start of a run a step is released only by the successful resolution of the step declared just before it in the same run |
| `SimpleOneAtATime.SimpleOneAtATimeIff` | simple-example/contracts/simple-sequencer/src/lib.rs:351-395 | the same condition, exact, for each caller of the small sequencer |
| `SimpleOneAtATime.SimpleReleasedByPredecessor` | simple-example/contracts/simple-sequencer/src/lib.rs:397-419 | with quiet runs, a step is woken up only by the success of the step its run declared just before it |
| `Overlaps.OverlapReleasesEarly` | simple-example/contracts/simple-sequencer/src/lib.rs:351-436 | a schedule of accepted calls from the initial state, in both contracts, on which a step is released although its predecessor has never been called |
| `Overlaps.LeftoverDropsQueue` | contracts/smart-account/src/lib.rs:738-752 | a schedule from the initial state, in both contracts, on which a step left over from a halted run takes the next run's queue with it |
| `QueueOwners.QueueTakenByOthersIff` | contracts/smart-account/src/lib.rs:738-771 | after a manual release, a receipt that is not of the run can take its queue iff there is one and, at the call, a step outside the order was registered or some step was on its way |
| `QueueOwners.OnlyOwnReceipts` | contracts/smart-account/src/lib.rs:831-894 | otherwise every change to the queue and the saved values is a receipt of the run's own steps |
| `ManualRuns.ManualRunRefinesInterpreter` | contracts/smart-account/src/lib.rs:616-662 | a plan executed by one call in an empty manual namespace sends, until it ends, a prefix of what the interpreter sends with the same replies |
| `ManualRuns.ManualRunEqualsInterpreter` | contracts/smart-account/src/lib.rs:616-662 | and exactly that, with the same ending, unless a yield timed out |
| `StaleReceipts.StaleDisturbsIff` | contracts/smart-account/src/lib.rs:709-894 | an outstanding receipt of an earlier run can disturb a run fired over it iff it is past its dispatch, or its step's name is in the new plan (with a gate, if it waits for one) |
| `StaleReceipts.HarmlessReceipt` | contracts/smart-account/src/lib.rs:715-721 | any other old receipt comes to nothing, however far the new run has got |
| `StaleReceipts.StaleReceiptSkipsStep` | contracts/smart-account/src/lib.rs:831-894 | an old result under the first step's name releases the new run's second step although its first was never called, for every plan of two or more steps |
| `StaleReceipts.ReuseBreaksRun` | contracts/smart-account/src/lib.rs:1365-1374 | a schedule from the initial state whose only event not allowed is the reuse of a trigger id with an old result out, on which this happens |
| `RunProofs.DeliverCurrentKeeps` | contracts/smart-account/src/lib.rs:709-1150 | any receipt of the current step, with any reply, keeps shape, values and correspondence with the interpreter |
| `RunProofs.DeliverTimedOutKeeps` | contracts/smart-account/src/lib.rs:738-771 | a timed-out step halts the run without sending anything and leaves at most the current chain behind |
| `RunProofs.ResolvedKeeps` | contracts/smart-account/src/lib.rs:831-894 | resolution saves, then releases exactly the next step, completes, or halts, as the interpreter does |
| `RunEndings.LateReceipt` | contracts/smart-account/src/lib.rs:715-721 | what a receipt arriving after the run does, exactly: its chain goes away or its own postcheck plays out |
| `RunEndings.HaltIsFinal` | contracts/smart-account/src/lib.rs:923-936 | one late receipt sends no gate or target call, keeps the row and leaves the namespace empty |
| `RunEndings.LateReceiptKeeps` | contracts/smart-account/src/lib.rs:1106-1150 | late receipts keep the calls a prefix of the interpreter's |
| `RunEndings.FiredKeeps` | contracts/smart-account/src/lib.rs:2076-2132 | a fired run starts in flight at its first step, in step with the interpreter |
| `RunEndings.CurrentReceiptProgresses` | contracts/smart-account/src/lib.rs:917-1055 | per phase: resume, gate, target, postcheck and resolve each lower the measure or end the run |
| `RunShapes.FireExact` | contracts/smart-account/src/lib.rs:2076-2115 | registering a whole plan and resuming its first step, in closed form |
| `RunShapes.WokenShape` | contracts/smart-account/src/lib.rs:3077-3092 | taking the next queued step moves the shape from step k to step k + 1 |
| `Interpreter.InterpretDeposits` | contracts/smart-account/src/lib.rs:2195-2226 | whatever the replies, a plan pays its targets at most its total |
| `Links.DeliverKept` | contracts/smart-account/src/lib.rs:709-1234 | in any namespace, manual ones included, a delivered receipt keeps registered steps tied to their own receipts and lets a run only stay or end |
| `Links.ReleasePlanGrown` | contracts/smart-account/src/lib.rs:624-662 | registering a plan creates receipts under fresh yields of its own namespace only |
| `Account.AutomationNamespaceInjective` | contracts/smart-account/src/lib.rs:3178-3180 | an automation namespace determines its trigger and its run nonce |
| `Account.ManualIsNotAutomation` | contracts/smart-account/src/lib.rs:3174-3180 | manual and automation namespaces are disjoint |
| `Account.NamespacesCollideIff` | contracts/smart-account/src/lib.rs:3178-3184 | two runs' step keys can be mistaken for each other iff they are the same run or one trigger id begins with the other, a colon, its nonce and a `#` |
| `Account.CollidingStepsCleared` | contracts/smart-account/src/lib.rs:3149-3165 | and then clearing the one namespace unregisters every step of the other |
| `Account.PutFrame` | contracts/smart-account/src/lib.rs:3149-3184 | what one namespace does is invisible to every separate one |
| `NamespaceKeys.SharedKeyIff` | contracts/smart-account/src/lib.rs:3182-3184 | two namespaces share a step key iff one extends the other by a `#` |
| `NamespaceKeys.HashFreeSeparate` | contracts/smart-account/src/lib.rs:3182-3184 | different `#`-free namespaces never share a key |
| `NamespaceKeys.SliceFrame` | contracts/smart-account/src/lib.rs:3149-3165 | replacing or clearing one namespace's steps keeps all others |
| `SmartAccounts.SmartAccount.RegisterStep` | contracts/smart-account/src/lib.rs:670-698 | one step registered under a fresh yield, or a panic that changes nothing |
| `SmartAccounts.SmartAccount.ExecuteSteps` | contracts/smart-account/src/lib.rs:624-662 | all steps registered and the first resumed, or nothing |
| `SmartAccounts.SmartAccount.RunSequence` | contracts/smart-account/src/lib.rs:703-706 | release of registered steps in the given order |
| `SmartAccounts.SmartAccount.ExecuteTrigger` | contracts/smart-account/src/lib.rs:1990-2146 | all guards, the new row, the trigger's counters and the released plan, or no change |
| `SmartAccounts.SmartAccount.OnStepResumed` | contracts/smart-account/src/lib.rs:709-828 | missing step, timeout, gate and dispatch branches, with the calls sent |
| `SmartAccounts.SmartAccount.OnPreGateChecked` | contracts/smart-account/src/lib.rs:917-1055 | missing step, rejected gate and dispatch branches (in terms of reply and step: Decisions.GateDecides) |
| `SmartAccounts.SmartAccount.OnAssertedRunPostcheck` | contracts/smart-account/src/lib.rs:1106-1144 | postcheck call on success, failure otherwise; no stored state is read (in terms of reply and step: Decisions.AssertedReplyDecides) |
| `SmartAccounts.SmartAccount.OnAssertedEvaluatePostcheck` | contracts/smart-account/src/lib.rs:1152-1234 | empty success iff the bytes match exactly (in terms of reply and step: Postchecks.PostcheckDecides) |
| `SmartAccounts.SmartAccount.OnStepResolved` | contracts/smart-account/src/lib.rs:831-894 | save and progress, or halt (in terms of reply and step: Decisions.LastReceiptDecides) |
| `SmartAccounts.SmartAccount.DeliverReceipt` | contracts/smart-account/src/lib.rs:709-1234 | the callback a chain is due, by its phase |
| `SmartAccounts.SmartAccount.ProgressAfterSuccessfulResolution` | contracts/smart-account/src/lib.rs:2998-3075 | next step resumed, run completed, or run halted because the next step cannot be resumed |
| `SmartAccounts.SmartAccount.TakeNextQueuedStep` | contracts/smart-account/src/lib.rs:3077-3092 | front of the queue taken, an emptied queue removed |
| `SmartAccounts.SmartAccount.FinishAutomationRun` | contracts/smart-account/src/lib.rs:3099-3147 | only a run in flight is finished; its steps, queue and trigger are released |
| `SmartAccounts.SmartAccount.ClearRegisteredNamespace` | contracts/smart-account/src/lib.rs:3149-3165 | exactly the namespace's steps are removed |
| `SmartAccounts.SmartAccount.HaltSequence` | contracts/smart-account/src/lib.rs:1060-1098 | the common halt path: step, queue and saved values go, the run is finished |
| `SmartAccounts.SmartAccount.SaveStepResult` | contracts/smart-account/src/lib.rs:2700-2736 | one name of the saved values is set |
| `SmartAccounts.SmartAccount.ClearSequenceContext` | contracts/smart-account/src/lib.rs:2742-2744 | the saved values of the namespace go |
| `SmartAccounts.SmartAccount.MaterializeStepCall` | contracts/smart-account/src/lib.rs:2750-2771 | the step with its template filled from the saved values of its namespace |
| `SmartAccounts.SmartAccount.DispatchStep` | contracts/smart-account/src/lib.rs:801-827 | the materialized call is sent, or the sequence is halted (in terms of reply and step: SentCalls.EveryCallIsExplained) |
| `SmartAccounts.SmartAccount.ResumeRegisteredStep` | contracts/smart-account/src/lib.rs:2817-2829 | a registered step that is still yielded is resumed |
| `SmartAccounts.SmartAccount.RegisterStepInNamespace` | contracts/smart-account/src/lib.rs:2360-2412 | a new key, a new yield, or a panic on a taken key |
| `SmartAccounts.SmartAccount.StartSequenceRelease` | contracts/smart-account/src/lib.rs:2416-2482 | the guards of a release, the queue and the first wake-up |
| `SmartAccounts.SmartAccount.ValidateSequenceTemplateInputs` | contracts/smart-account/src/lib.rs:2195-2226 | the loop accepts iff every call is valid, ids are unique and the checked sum of deposits fits |
| `SmartAccounts.SmartAccount.SaveSequenceTemplate` | contracts/smart-account/src/lib.rs:1248-1281 | a validated template is stored |
| `SmartAccounts.SmartAccount.DeleteSequenceTemplate` | contracts/smart-account/src/lib.rs:1283-1294 | only a template no trigger refers to is deleted |
| `SmartAccounts.SmartAccount.CreateBalanceTrigger` | contracts/smart-account/src/lib.rs:1313-1363 | a new trigger over an existing template |
| `SmartAccounts.SmartAccount.DeleteBalanceTrigger` | contracts/smart-account/src/lib.rs:1365-1374 | only a trigger not in flight is deleted |
| `SmartAccounts.SmartAccount.PruneFinishedAutomationRuns` | contracts/smart-account/src/lib.rs:1880-1902 | exactly the terminal rows go |
| `Materialize.MaterializeLoop` | types/src/types.rs:380-404 | the rewriting loop computes the substitutions one after the other, stopping at the first failure |
| `TemplateProofs.LoopIsSimultaneous` | types/src/types.rs:380-404 | on templates, values and names without the delimiters, the sequential loop equals one simultaneous replacement of all declared holes |
| `TemplateProofs.LoopFailsAtFirst` | types/src/types.rs:386-401 | the loop's error is that of the first substitution that fails on the original template: missing value, failing op, absent or consumed hole |
| `TemplateProofs.MaterializeSucceedsIff` | types/src/types.rs:380-404 | the loop succeeds iff no substitution fails |
| `TemplateProofs.OrderIndependent` | types/src/types.rs:380-404 | with distinct references the order of the substitutions does not matter |
| `TemplateProofs.SavedDollarBreaksOrder` | types/src/types.rs:396-401 | a saved value that looks like a placeholder makes the order decide between success and failure |
| `TemplateProofs.RawSplices` | types/src/types.rs:415-415 | around any text without a dollar sign: Raw puts the saved bytes, whatever they are, quotes included, in place of the quoted placeholder |
| `TemplateProofs.QuotientSplices` | types/src/types.rs:416-428 | DivU128 puts the quotient there as a quoted decimal number |
| `TemplateProofs.ShareSplices` | types/src/types.rs:430-448 | PercentU128 puts the share there as a quoted decimal number |
| `Ladder.DivIsFloor` | types/src/types.rs:416-428 | DivU128: exact floor, printed so that it reads back; fails on an unreadable value first, on a zero denominator next, and on nothing else |
| `Ladder.PercentIsFloor` | types/src/types.rs:430-448 | PercentU128: exact floor, never above the value, each error exactly when it is due, overflow iff n * bps reaches 2^128 |
| `Ladder.PaidIsShares` | types/src/types.rs:430-448 | a ladder of PercentU128 steps over one saved value goes through iff the value is readable, every rung is at most 10000 and no product overflows, and its parsed outputs are the floors |
| `Ladder.LadderSplitsBalance` | types/src/types.rs:430-448 | with rungs totalling 10000 the ladder goes through iff the value is readable and no product overflows, and its parsed outputs sum to at most the value and leave less than one unit per rung |
| `Decimal.PrintReadsBack` | types/src/types.rs:216-233 | a printed number, quoted or bare, parses to itself iff it fits u128 |
| `Decimal.PrintReadsBackSigned` | types/src/types.rs:222-233 | the same for i128 with its asymmetric range |
| `Decimal.ParsedTextIsCanonical` | types/src/types.rs:216-233 | whatever parses is, up to sign, zeros, blanks and quotes, the display form of its value |
| `Decimal.PaddedReadsBack` | types/src/types.rs:216-233 | a number is read through one pair of quotes or none, Unicode white space around it and a plus sign |
| `Decimal.DigitsAreDecimal` | types/src/types.rs:428-428 | numbers are printed with the ten decimal digits, most significant first |
| `PreGates.LexLessIff` | types/src/types.rs:197-209 | bytes are compared at the first place where they differ, a proper prefix coming first |
| `PreGates.PrintedSignedNumbers` | types/src/types.rs:176-196 | on signed numbers in range the i128 gate is the closed interval test |
| `PreGates.InRangeIff` | types/src/types.rs:148-211 | a gate passes iff the reply denotes a value between the denotations of whichever bounds are present |
| `PreGates.RejectedIff` | types/src/types.rs:148-211 | below, above and error exactly; the lower bound is judged before the upper one is read |
| `PreGates.PrintedNumbers` | types/src/types.rs:148-220 | on printed numbers the u128 gate is the closed interval test |
| `Gas.ValidStepIff` | contracts/smart-account/src/lib.rs:2228-2278 | a step is accepted iff everything it calls is named, gas is asked for wherever it must be, its gate has a bound and at most 100 TGas, and its reserve fits into 980 TGas |
| `Gas.ReserveCoversUngated` | contracts/smart-account/src/lib.rs:2374-2379 | every accepted step reserves at most 980 TGas, which covers an ungated dispatch with 20 TGas to spare, 10 through the authorizer |
| `Gas.GateCallbackCoversIffDirect` | contracts/smart-account/src/lib.rs:793-797 | the gate callback's gas covers the dispatch iff the policy is Direct |
| `Gas.ReserveCoversGatedIff` | contracts/smart-account/src/lib.rs:781-799 | a gated step's reserve covers gate and callback iff the gate's gas plus 5 is at most the policy's overhead |
| `Gas.RequestGas` | contracts/smart-account/src/lib.rs:2831-2890 | the gas of the outgoing call agrees with the gas accounting of its policy |
| `Adapters.BudgetIff` | contracts/demo-adapter/src/lib.rs:46-53 | the callback budget is the gas given beyond the target's and 30 TGas, and must come to 40 |
| `Adapters.PollingReturnsIff` | contracts/demo-adapter/src/lib.rs:90-143 | the retry loop returns iff one of the polls its budget and attempts pay for shows the number, and otherwise panics for the reason due |
| `Adapters.PollingStaysWithinBudget` | contracts/demo-adapter/src/lib.rs:114-143 | each callback runs on its own shrunken budget and attaches all of it but 15 TGas, at least 50, and no deposit |
| `Adapters.AdapterReturnsIff` | contracts/demo-adapter/src/lib.rs:38-110 | the whole adapter returns iff its checks pass, it has 70 TGas more than the target needs, the start succeeds, and one of the first min(5, (prepaid - gas - 70) / 25) polls shows the number; the whole deposit goes to the target |
| `Adapters.WrapSplitsDeposit` | contracts/compat-adapter/src/lib.rs:32-121 | the deposit is split into the wrapped amount and one yocto; exactly which parts are spent in each case, when it returns, and with which gas |
| `Adapters.SequencedAdaptersNeverStarve` | contracts/smart-account/src/lib.rs:2840-2849 | dispatched by the sequencer, neither adapter ever fails a budget check, and the polling adapter gets all five polls |
| `SimpleHistory.YieldBijection` | simple-example/contracts/simple-sequencer/src/lib.rs:173-241 | registered keys and outstanding receipts correspond one to one at every moment, overlapping runs and timeouts included, so a callback never finds its step gone |
| `SimpleHistory.CalledAtMostOnce` | simple-example/contracts/simple-sequencer/src/lib.rs:173-213 | each registration is called at most once, with the call registered, and only after it was released |
| `SimpleHistory.ReleasesFollowOrder` | simple-example/contracts/simple-sequencer/src/lib.rs:351-436 | the steps released since a run started are a prefix of its declared order and the queue is exactly the rest |
| `SimpleHistory.SimpleNextKeeps` | simple-example/contracts/simple-sequencer/src/lib.rs:104-241 | every event keeps the bijection, the counts and the order |
| `SimpleHistory.ProgressKeeps` | simple-example/contracts/simple-sequencer/src/lib.rs:397-436 | the next release is the next declared step, or the queue is dropped |
| `SimpleSequencers.SimpleSequencer.RegisterStep` | simple-example/contracts/simple-sequencer/src/lib.rs:315-349 | a new key and a new yield, or no change |
| `SimpleSequencers.SimpleSequencer.ExecuteSteps` | simple-example/contracts/simple-sequencer/src/lib.rs:104-134 | the loop registers all steps and starts the release, or rolls everything back |
| `SimpleSequencers.SimpleSequencer.RunSequence` | simple-example/contracts/simple-sequencer/src/lib.rs:163-170 | only the caller itself can start its release |
| `SimpleSequencers.SimpleSequencer.StartSequenceRelease` | simple-example/contracts/simple-sequencer/src/lib.rs:351-395 | the guards, the queue and the first wake-up |
| `SimpleSequencers.SimpleSequencer.ResumeRegisteredStep` | simple-example/contracts/simple-sequencer/src/lib.rs:438-449 | a registered step that is still yielded is resumed |
| `SimpleSequencers.SimpleSequencer.OnStepResumed` | simple-example/contracts/simple-sequencer/src/lib.rs:173-213 | missing step, timeout and dispatch branches |
| `SimpleSequencers.SimpleSequencer.OnStepResolved` | simple-example/contracts/simple-sequencer/src/lib.rs:216-241 | progress on success, queue dropped on failure |
| `SimpleSequencers.SimpleSequencer.ProgressAfterSuccessfulResolution` | simple-example/contracts/simple-sequencer/src/lib.rs:397-419 | next queued step resumed, or the queue dropped |
| `SimpleSequencers.SimpleSequencer.TakeNextQueuedStep` | simple-example/contracts/simple-sequencer/src/lib.rs:421-436 | front of the queue taken, an emptied queue removed |
| `LockStep.LockStepForever` | contracts/smart-account/src/lib.rs:624-894 | after every common sequence of calls, timeouts and receipts, a smart account used with direct steps only and the small sequencer accept the same events and send the same calls |
| `LockStep.SameMaps` | simple-example/contracts/simple-sequencer/src/lib.rs:351-436 | for every caller: the same registered steps, yields and calls, and the same queue |
| `LockStep.StepTogether` | simple-example/contracts/simple-sequencer/src/lib.rs:173-241 | one event keeps the two in step |
| `Correlate.CorrelateResumes` | observer/src/trace.rs:590-676 | the in-place loops leave the rows annotated exactly as the greedy pairing says; from unflagged rows, is_yield_resume ends up set iff an on_step_resumed row is paired with a promise resume (who is paired with whom: Correlate.PairingChoice) |
| `Correlate.FindBest` | observer/src/trace.rs:635-663 | the scan for the best unclaimed data row (which one that is: Correlate.BestNoWorse) |
| `Correlate.PairingChoice` | observer/src/trace.rs:617-675 | rows are served from the top: a callback stays unpaired iff no data row that could have woken it is still free; else it takes one of the latest block, in that block one with the flag it looks for if there is one, and the first of these |
| `Correlate.MarkedRows` | observer/src/trace.rs:665-673 | a paired callback carries the id and text of its data row and is a yield's resumption iff on_step_resumed was woken by a promise resume; a paired data row carries its own id; nothing else changes |
| `Correlate.RowOrder` | observer/src/trace.rs:453-459 | blocks never go back, nor timestamps within a block, nor receipt ids where both are equal |
| `Correlate.BestNoWorse` | observer/src/trace.rs:635-663 | no unclaimed data row that qualifies is a better partner than the one the scan ends with |
| `Correlate.BestIsBest` | observer/src/trace.rs:629-663 | the candidate chosen is unclaimed and nothing unclaimed is preferred to it; none is chosen iff none qualifies |
| `Correlate.GreedyChooses` | observer/src/trace.rs:617-675 | pairs obey receiver and block rules, are injective, and a row left free was refused by nobody it could have woken |
| `Correlate.GreedyIsMaximum` | observer/src/trace.rs:590-676 | no pairing under the same rules pairs more callbacks, whatever the order of the rows |
| `Correlate.SortSorts` | observer/src/trace.rs:453-459 | the rows end up in order and are a permutation |
| `Correlate.SortStable` | observer/src/trace.rs:453-459 | rows with equal keys keep their relative order |
| `Correlate.AnyStableSortAgrees` | observer/src/trace.rs:453-459 | sorted with equal keys in their order determines the rows, so any stable sort gives these |
| `Correlate.TraceIsDeterministic` | observer/src/trace.rs:453-461 | with distinct receipt ids the sorted and paired rows do not depend on the order in which rows were fetched |
| `ReceiptTrees.Walker.WalkReceipt` | web/trace.js:115-160 | the recursion over the shared visited set terminates on any graph and computes the walk |
| `ReceiptTrees.Walker.MapWalk` | web/trace.js:137-171 | a list of receipts is walked left to right with the same visited set |
| `ReceiptTrees.VisitsExactlyReachable` | web/trace.js:107-173 | on any graph, each receipt reachable from the transaction is visited exactly once and no other is |
| `ReceiptTrees.WalkAllFaithful` | web/trace.js:115-160 | an expanded node has its receipt's tag, refund flag and children in order; a missing node has no outcome |
| `ReceiptTrees.Scan.WalkNodes` | web/trace.js:208-215 | the two flags end up set iff some node calls for it |
| `ReceiptTrees.Classify` | web/trace.js:201-222 | the verdict over the flags of the tree, and UNKNOWN for an error response |
| `ReceiptTrees.ClassifyIsVerdict` | web/trace.js:201-222 | the verdict on the tree says of the reachable receipts: a failed transaction first, then a waiting receipt, then a failed one that is no refund, else success |
| `ReceiptTrees.VerdictOnTransaction` | web/trace.js:107-222 | HARD_FAIL iff the transaction failed; else PENDING iff some reachable receipt waits; else PARTIAL_FAIL iff some reachable receipt failed and is no refund; else FULL_SUCCESS; UNKNOWN iff there is no result |
| `ReceiptTrees.VerdictIgnoresOrder` | web/trace.js:201-222 | the verdict does not depend on the order in which roots and children are listed |

## Left out

- Theorems.RunEqualsInterpreter: reads the ending off the row, so it says nothing once the row is pruned; Completion.FinishedRunStaysExact covers that for runs that completed or failed downstream.
- ManualRuns.ManualRunRefinesInterpreter: stops at the event that ends the run, because a manual halt clears neither the step on its way nor the steps behind it, and what they then do is not part of the run.
- QueueOwners.QueueTakenByOthersIff: is about the queue; that the saved values, too, change only by own receipts is stated in one direction (QueueOwners.OnlyOwnReceipts).
- StaleReceipts.StaleDisturbsIff: judges one old receipt at a time against the run just fired; the schedule results exclude old receipts altogether, harmless ones included.
- TemplateProofs.OrderIndependent: asks that saved texts contain no `$`, which is sufficient, not necessary. A `$` completes a placeholder only when a quote stands before it and `{name}` with a quote behind it once the text is in place; those characters may come from the template around the hole, so an exact condition would be one on template and text together.
- Correlate.SortSorts: the library's stable sort is stood for by a stable insertion sort, which Correlate.AnyStableSortAgrees shows to be no restriction.
- Correlate.CorrelateResumes: the catalogue keeps row indices only and reads the other fields from the rows, which the loop does not change; delta times, gas and event fields of rows are not modelled.
- ReceiptTrees.Walker.WalkReceipt: outcomes and receipts are given as maps by id (of repeated ids the last one counts, as in the source), and decoded return values, logs and action summaries are not modelled.
- Materialize.MaterializeLoop: byte strings are sequences of characters, so the lossy decoding of invalid UTF-8 is not modelled.
- Adapters.AdapterReturnsIff: the JSON arguments are passed as what they decode to; the answers of the polled contract are a script.
- SmartAccounts.SmartAccount.ExecuteTrigger: whether the caller is the owner, the executor or holds a session grant is one Boolean input, and the counters of session and proxy grants are not modelled.
- Run completion is relative to receipts being delivered; the 200-block timeout clock is an event that may happen at any time.
- Authorizer routing (extension mode): a call is recorded with its target, method, arguments, deposit and gas; the extra hop appears only in the gas accounting.
- NEP-297 events, logs, runtime snapshots, JSON, Borsh and base64 encodings, time stamps and executor ids: telemetry and serialization.
- The late `sequence_completed` event of an already halted run: statements are about the run's status, not about events.
- Views, paginated lists and `migrate`: projections and field copying.
- Real gas metering, storage costs and balances between blocks.
- `echo`, `router`, `wild-router`, `pathological-router`, `recorder`, `authorizer`: leaf contracts; the first five are the environment.
- Fetching, streaming and rendering in `observer` and `web`: input, output and user interface.
