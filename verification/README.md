# Dreamify workflow model

A Dafny model of the durable Morpheus workflow: the bounded engine, the slice loop that drives it, the checks on
dashboards and edits, and six smaller algorithms of the web client and the sandbox service, with proofs of what they
guarantee.

## What is modelled

**The engine as a state machine** (`Machine.dfy`). A run has a durable part (status, recorded steps, reserved provider
calls, response) that survives a crash. An execution is one call of `execute`: its fields, its live locals
(`Point`) and a program counter whose values are the port calls of the source. `Act` is one atomic step, for every
reply a port can give. `Systems.dfy` puts any number of runs and executions over one store, one clock and one pool of
leases, with crashes, cancellations, supersessions and lease expiry between any two steps. A behaviour may allow
overlapping executions of one run, or be exclusive: an execution of a run begins only when no other one is live.

**The engine as a class** (`Engine.dfy`, over `Ports.dfy`). `Workflow` has the fields of the source's class and its
methods, loops included, calling the ports in the same order. A ghost execution moves along with the code, and
`Execute` is proved to be a history of the machine (`Histories.dfy`) from a fresh execution to its return, whatever
the ports answer and whoever else acts in between. So what is proved of the machine holds of the class.
`Progress.dfy` proves what every such history keeps and achieves, and that histories allow for everything that the
system's other actions may do. `Driver.dfy` is the slice loop on top.

**The main results.**

- Slicing is invisible (`Settling.dfy`, `Slicing.dfy`): with ports deterministic in their arguments and no crash,
  cancellation, deadline or capacity expiry, a run that is over has recorded the same results, reserved the same
  calls, and has the same status and response as one uninterrupted execution, a direct-style function of the ports
  that knows no store, no lease and no yield. Other runs may do anything meanwhile. `Reference.dfy` tells what a run
  does once more, straight from the context to the answer and without the machine's functions, and the uninterrupted
  execution is proved to do exactly that.
- At most once, at most five provider calls, with overlapping executions (`AtMostOnce.dfy`).
- At most 49 of the 64 slices are ever used, and at most 48 pauses are waited out in the life of a run however many
  slices crash and are repeated (`Progress.dfy`, `Driver.dfy`). A slice pauses only when it is full or for exactly as
  long as the pool asked, all rests together take ten minutes at most, and the driver finishes only with a run that is
  over or belongs to another executor (`Outcomes.dfy`, `Driver.dfy`).
- The synthesis step delivers exactly the first acceptable answer (`EditSafety.dfy`, `Reference.dfy`), and the analysis
  it works from is the result of the last execution (`Replay.dfy`).
- Every delivered edit keeps everything outside its target set (`EditSafety.dfy`, `Replay.dfy`).
- Cancellation is prompt (`Promptness.dfy`), statuses follow the table (`StatusHistory.dfy`), and leases balance
  (`Leases.dfy`), all with overlapping executions of a run allowed.
- With one live execution per run recorded results never change (`Replay.dfy`), each sandbox command is issued once
  and once more at most for each crash or store error (`SandboxBudget.dfy`), and at most two runs are inside the
  sandbox (`Leases.dfy`). For overlapping executions the last one is false of the code, and `Overlaps.dfy` has a
  behaviour that ends with three runs inside: the second execution of a run is granted the lease of the first, which
  gives it back. `Leases.dfy` states exactly which steps break the pool, and proves the bound without them.
- The overlap test decides sharing of grid cells and implies a packing bound (`Layout.dfy`).
- The CSV splitter undoes quoting as in section 2 of RFC 4180 (`CsvLine.dfy`); the dashboard merge is characterised
  item by item and idempotent (`DashboardMerge.dfy`); the JSON sanitiser and the code policy accept exactly the
  values and trees their rules describe (`Sanitizer.dfy`, `CodePolicy.dfy`); one edit message per turn
  (`EditCompletion.dfy`); stale runs and stale clicks never win (`StaleRuns.dfy`).

**Assumptions about the ports.** A call takes effect at once. Any call, and any check that the run is active, may
throw any fault (this covers the abort signal and timeouts), and a call of the store or the pool that throws may have
taken its effect before the reply was lost. `reserveProviderCall` answers `created` once per key; `claimRun` answers
`terminal` for terminal runs; `transition` respects `allowed_from`; a busy pool asks for a back-off of at least
fifteen seconds or names none, as both adapters do; a lease does not expire while an execution counts on it, since it
outlives the deadline of a run. `completeStep` is assumed only to overwrite; that a recorded value is never replaced
by another is proved.

**Exclusive behaviours.** A durable driver starts the next execution of a run after the last one ended, so the results
about recorded values, slicing, sandbox commands and the two runs in the sandbox are stated for behaviours in which an
execution begins only when no other one of its run is live. The rows say so.

**Where the code decides.** Fault codes are compared as text, so a sandbox result that reports the code `CANCELLED`
after a failed repair ends the run as cancelled, not as failed; the model follows the code (`CodeNamed`). A lease
counts as held once it is recorded; a lease whose recording failed stays with the pool until it expires, so the
balance of leases is stated for recorded ones.

## Model

| member | source | states |
|---|---|---|
| RunStatuses.TerminalIsSink | packages/contracts/src/run.ts:109-118 | the separately listed terminal set is exactly the set of statuses from which the transition table allows nothing |
| RunStatuses.TerminalIsForever | packages/workflow/src/state-machine.ts:3-15 | along any trace the table allows, a terminal status never changes |
| RunStatuses.CancellingNeverDelivers | packages/workflow/src/state-machine.ts:3-11 | no trace that visits cancelling reaches completed or awaiting input |
| StatusHistory.HistoryIsTrace | packages/workflow/src/engine.ts:277-296 | every status change of every run in every behaviour is one the table allows |
| StatusHistory.CancelledRunDeliversNothing | packages/workflow/src/engine.ts:677-690 | from cancelling on no response ever appears and the status stays on the cancelled side |
| StatusHistory.SupersededRunDeliversNothing | packages/workflow/src/testing/memory.ts:208-246 | once another run has taken the conversation, or cancellation was requested, no response of the run ever appears |
| StatusHistory.TerminalRunIsReplayed | packages/workflow/src/engine.ts:168-174 | an execution that begins on a terminal run makes no provider call, sandbox command, lease or record event and leaves the run as it is |
| StatusHistory.OutcomesAreFinal | packages/workflow/src/engine.ts:168-296 | an execution that reports a response, an end or a replay leaves its run in a terminal status for good |
| Dashboards.RefineConfiguration | packages/contracts/src/dashboard.ts:136-156 | the loop with its id set and counters reports one issue per repeated id, in order, and one per exceeded count; none exactly when ids are unique and counts in bounds |
| Dashboards.DuplicatesCount | packages/contracts/src/dashboard.ts:137-147 | the repeated-id issues are as many as components minus distinct ids, and there is none exactly when ids are pairwise distinct |
| Dashboards.CountKindCounts | packages/contracts/src/dashboard.ts:138-140 | the count compared with a limit is the number of components of that kind |
| Layouts.OverlapIsSharedCell | packages/workflow/src/engine.ts:126-130 | the four strict comparisons hold exactly when two components share a grid cell |
| Layouts.AnyOverlapIsNotDisjoint | packages/workflow/src/engine.ts:119-135 | a layout error is reported exactly when the components' cell sets are not pairwise disjoint |
| Layouts.HasOverlap | packages/workflow/src/engine.ts:119-135 | the nested index loop decides pairwise disjointness of the components' cells |
| Layouts.DisjointCellsAddUp | packages/workflow/src/engine.ts:119-135 | disjoint components cover as many cells as their widths times heights add up to |
| Layouts.PackingBound | packages/contracts/src/dashboard.ts:25-35 | a layout that passes the overlap test has total area at most 24 times its largest y plus height, which some component attains |
| EditSafety.EditCheckIsExact | packages/workflow/src/engine.ts:78-117 | the edit check passes exactly when there is a target and a dashboard, id, component ids, shell and untargeted components are kept, and no targeted identifier disappeared |
| EditSafety.SameSizeSubset | packages/workflow/src/engine.ts:97-102 | equal size and inclusion make two id sets equal |
| EditSafety.UntargetedIsUnchanged | packages/workflow/src/engine.ts:103-108 | after an accepted edit the component with an untargeted id is the original one |
| EditSafety.ChainKeepsFrame | packages/workflow/src/engine.ts:78-117 | through any chain of accepted edits the frame of the union of their target sets is kept |
| EditSafety.AcceptedIsSafe | packages/workflow/src/engine.ts:637-653 | an answer that passes the validation has the planned type, a disjoint layout and keeps the frame of the edit |
| EditSafety.AcceptanceIsExact | packages/workflow/src/engine.ts:637-653 | for every context within the schema, exactly the answers pass, and as they are, that have the response shape, the planned type, pairwise disjoint cells and, for an edit, the frame and all targets kept |
| EditSafety.FallbackIsSafe | packages/workflow/src/engine.ts:609-619 | the fallback keeps the whole original dashboard and is safe in the same sense |
| EditSafety.FallbackIsExact | packages/workflow/src/engine.ts:609-619 | there is something to fall back to exactly for a planned edit of an existing dashboard with a target, and it is that dashboard |
| Soundness.OnlyRejectedIsRepaired | packages/workflow/src/engine.ts:591-606 | in every behaviour a provider is asked to repair only an answer that is not acceptable for its context and plan |
| Replay.DeliveredResponseIsSafe | packages/workflow/src/engine.ts:564-692 | in every exclusive behaviour a delivered response that is no question has the recorded plan's type, no overlaps unless it is the original dashboard, and the frame of the recorded edit |
| Replay.DeliveredEditIsSafe | packages/workflow/src/engine.ts:564-692 | in every exclusive behaviour a delivered chart modification keeps the frame for the context the run recorded |
| Replay.AnalysisIsTheResult | packages/workflow/src/engine.ts:432-549 | in every exclusive behaviour a recorded analysis is the result of the recorded repaired execution, or of the first one if there is none, that execution succeeded, and code is repaired only after it failed |
| Control.ActFits | packages/workflow/src/engine.ts:155-308 | every step keeps the control invariant: step and locals match, sandbox steps hold a lease, values about to be recorded passed their checks, the command count is bounded by the progress |
| Soundness.SoundAlways | packages/workflow/src/engine.ts:155-308 | the control invariant and the shape of recorded results hold in every behaviour, overlapping executions included |
| Frames.ActKeeps | packages/workflow/src/engine.ts:746-836 | only recording a step changes results, only the reservation step the reserved calls, only claim, commit and the catch block the status |
| AtMostOnce.OnceAlways | packages/workflow/src/engine.ts:816-836 | for each call key at most one execution is about to invoke it, and only if nobody invoked it before |
| AtMostOnce.AtMostFiveProviderCalls | packages/workflow/src/engine.ts:35-40 | in every behaviour, with crashes, replays and overlapping executions, a run invokes each of five keys at most once and at most five in all |
| AtMostOnce.BudgetNeverExceeded | packages/workflow/src/testing/memory.ts:135-155 | an unreserved call always finds room, so the store's own budget check cannot fire |
| Promptness.ActPrompt | packages/workflow/src/engine.ts:789-804 | once cancellation is requested or the run is over no check passes, and every costly event uses up a check passed before |
| Promptness.CancellationIsPrompt | packages/workflow/src/engine.ts:655-804 | after a request to cancel, or the end of the run, any execution performs at most one more event among provider call, sandbox command, recorded step and delivered response |
| Promptness.NothingIsUnlogged | packages/workflow/src/engine.ts:340-398 | no step invokes a provider, starts a command, records a result, delivers a response or takes or returns a lease without the event that the bounds on the log count |
| Leases.LeasesAreReturned | packages/workflow/src/engine.ts:298-307 | every execution acquires at most one lease and, once it has returned in whatever way, released exactly what it acquired |
| Leases.PoolStepExactly | packages/workflow/src/engine.ts:298-307 | with overlapping executions, a step keeps every counted lease in a bounded pool if and only if it does not give back a lease that another execution still counts on |
| Leases.PoolAlways | packages/workflow/src/testing/memory.ts:349-394 | with one live execution per run and no expiry of held leases, every lease an execution counts on is in the pool and the pool never exceeds its slots |
| Leases.AtMostTwoRunsInside | packages/workflow/src/engine.ts:340-398 | with one live execution per run and no expiry of held leases, every sandbox command under way holds a lease of the pool, so at most two runs are inside one |
| Leases.AtMostTwoRunsUnlessTaken | packages/workflow/src/engine.ts:340-398 | the same with overlapping executions, as long as no step gives back a lease that another execution counts on |
| Overlaps.OverlapBreaksTheBound | packages/workflow/src/engine.ts:298-307 | a behaviour from new runs in which a resumed execution shares the first one's lease, loses it, and three runs end up inside the sandbox |
| Overlaps.SecondEnters | packages/workflow/src/testing/memory.ts:114-118 | a second execution by the same claimant is resumed, gets inside the profile command and is granted the lease already held |
| Replay.AdvanceFollows | packages/workflow/src/engine.ts:192-255 | recording the result of a step leads to the locals that a replay of the results gives |
| Replay.FollowsIsUnique | packages/workflow/src/engine.ts:192-255 | two executions at the same stage of the same results have the same locals |
| Replay.TiedAlways | packages/workflow/src/engine.ts:746-787 | in every exclusive behaviour the live execution's locals are the replay of the recorded results and the step it performs is not recorded yet |
| Replay.ResultsOnlyGrow | packages/workflow/src/engine.ts:746-787 | in exclusive behaviours, through crashes, yields and resumes, the recorded results grow and no recorded value changes |
| Replay.ResumedExecutionsAgree | packages/workflow/src/engine.ts:192-255 | in exclusive behaviours, executions before and after any number of resumes see the same context, profile, plan and analysis at the same stage |
| SandboxBudget.CommandsPerBreak | packages/workflow/src/engine.ts:899-909 | in exclusive behaviours a run issues each sandbox command once, and once more at most for each time an execution of it crashed or was left by an error |
| SandboxBudget.AtMostThreeCommands | packages/workflow/src/engine.ts:899-909 | in exclusive behaviours a run none of whose executions broke issues each command at most once and at most three in all, although every slice starts its count anew |
| SandboxBudget.CommandBudgetNeverExceeded | packages/workflow/src/engine.ts:899-909 | the guard against a fourth command of one execution is unreachable |
| SandboxBudget.ClarificationNeverMissing | packages/workflow/src/engine.ts:212-221 | the guard against a missing clarification payload is unreachable |
| SandboxBudget.AnalysisCodeNeverMissing | packages/workflow/src/engine.ts:437-445 | the guard against missing analysis code is unreachable, with overlapping executions as well |
| Settling.ReplayReaches | packages/workflow/src/engine.ts:746-752 | starting over with the recorded results leads an uninterrupted execution back to where they were recorded |
| Slicing.ActQuiet | packages/workflow/src/engine.ts:155-308 | no step of an undisturbed execution, yields included, changes how the run will end |
| Slicing.SlicingIsInvisible | packages/workflow/src/engine.ts:746-787 | for any step limits and capacity yields a run that is over left exactly the results, reservations, status and response of one uninterrupted execution |
| Slicing.IteratingFinishes | apps/web/workflows/morpheus.ts:11-22 | the first undisturbed execution that returns neither paused nor ignored leaves the run over with the uninterrupted results |
| Slicing.SlicingsAgree | packages/workflow/src/engine.ts:340-398 | two ways to slice a run, one of them possibly not at all, leave the same behind |
| Reference.UninterruptedIsStory | packages/workflow/src/engine.ts:155-308 | for all answers of the ports an uninterrupted execution records, reserves, answers and ends exactly as a straight-line account of the run says, which uses none of the machine's decisions |
| Reference.SlicedIsStory | packages/workflow/src/engine.ts:155-308 | however a run is sliced, once it is over it has left what that account says |
| Reference.SynthesisPerforms | packages/workflow/src/engine.ts:564-635 | the first acceptable answer is recorded as it is with no repair reserved, else the acceptable repair, and only if both fail the preserved dashboard of an edit or a fault |
| Reference.PreflightTold | packages/workflow/src/engine.ts:727-744 | the user is asked exactly for two or more assets that the prompt neither names nor combines, and offered every asset in order |
| Reference.ContextTold | packages/workflow/src/engine.ts:694-725 | a context passes exactly if it is within the schema and the byte limit and its asset ids are pairwise distinct, and is refused with the fault of the first rule it breaks |
| Reference.BytesAddUp | packages/workflow/src/engine.ts:706-714 | the aggregate size is the sum over all assets |
| Progress.SaneLink | packages/workflow/src/engine.ts:155-308 | the invariants of the machine hold along every history of an execution |
| Progress.OthersAreRelied | packages/workflow/src/ports.ts:46-65 | whatever the rest of an exclusive system does is what an execution's histories allow for |
| Progress.HistoryAdvances | packages/workflow/src/engine.ts:340-398 | a slice that pauses recorded a new step, or its back-off ends at least fifteen seconds later or at the end of the ten minutes, measured from the persisted start |
| Progress.PauseIsPaidFor | packages/workflow/src/engine.ts:344-391 | waiting out any pause leaves fewer pauses than there were before the slice |
| Progress.CrashKeepsPauses | packages/workflow/src/engine.ts:746-787 | a slice that crashes between any two port calls leaves the run fit for the next slice, with no pause gained |
| Progress.PausesAreBounded | packages/contracts/src/limits.ts:25-32 | a run has at most eight steps and forty back-offs to pause for |
| Outcomes.OutcomesAreSo | packages/workflow/src/engine.ts:155-308 | along every history an execution that reports a response, an end or a replay leaves the run over, with the reported status or response, and one that reports itself ignored leaves the run to another claimant |
| Outcomes.PauseIsAsked | packages/workflow/src/engine.ts:373-386 | a slice pauses for no time because it is full, or, if it is to yield, for exactly what a refusal of the pool asks for, fifteen seconds if it does not say, or the rest of the ten minutes if that is less |
| Outcomes.SleepIsAsked | packages/workflow/src/engine.ts:373-389 | only an execution that is not to yield sleeps for capacity, and for exactly the same time after a refusal |
| Outcomes.SliceStopsInTime | packages/workflow/src/engine.ts:779-786 | a slice records no more steps than its limit and is on its way out once it has recorded that many |
| Outcomes.SliceAddsAtMost | packages/workflow/src/engine.ts:767-786 | the store gains no more results in a slice than its limit, those whose reply was lost included |
| Outcomes.ActiveFaultTold | packages/workflow/src/engine.ts:789-804 | a check that gets its answer fails, as cancelled, exactly on a run that is asked to cancel or is not queued or running |
| Outcomes.FailedAttemptTold | packages/workflow/src/engine.ts:883-893 | only a route is asked for twice, after a retryable fault and the asked or fixed delay of a minute at most; everything else fails at once |
| Driver.SliceEnds | apps/web/src/server/workflow-runtime.ts:33-79 | any slice that ends leaves the run fit for the next one and never adds pauses |
| Driver.ExecuteBoundedMorpheusSlice | apps/web/src/server/workflow-runtime.ts:33-79 | a slice is a history with a limit of one new result that hands its back-off to the driver: it adds one result at most, the run is fit for the next slice, the outcome says the truth about it, and a pause fits in the ten minutes and is paid for |
| Driver.ExecuteMorpheusStep | apps/web/workflows/morpheus.ts:26-32 | only a slice that throws is repeated, at most twice and each time if it throws, and the last outcome is reported with the same guarantee |
| Driver.DreamifyMorpheusWorkflow | apps/web/workflows/morpheus.ts:7-24 | the loop goes on exactly while slices pause, rests exactly as long as they ask and ten minutes in all at most, finishes only with the last outcome on a run that is over unless another executor has it, fails exactly with a failed run or step, and exhausts its 64 slices only if there were as many pauses left |
| Driver.RunMorpheus | apps/web/workflows/morpheus.ts:5-24 | all this, with at most 49 slices, so the exhaustion error is unreachable |
| Driver.NewRunIsBetween | packages/workflow/src/testing/memory.ts:74-101 | a new run may be sliced, and has eight steps and forty back-offs to pause for |
| Driver.AtMostFortyEightPauses | apps/web/workflows/morpheus.ts:11-32 | for a new run at most 48 pauses are waited out, however many slices crash at whatever port call and are repeated |
| Engine.Workflow.Execute | packages/workflow/src/engine.ts:155-308 | one call is a history of the machine from a fresh execution on the current store to its return with the reported outcome |
| Engine.Workflow.Claim | packages/workflow/src/engine.ts:155-178 | claims, or refuses with the recorded response or as ignored, as the machine does |
| Engine.Workflow.ReadStart | packages/workflow/src/engine.ts:175-176 | the start time is the run's persisted one |
| Engine.Workflow.Run | packages/workflow/src/engine.ts:181-256 | the try block ends committed with the returned response, or with the thrown error about to be handled |
| Engine.Workflow.Respond | packages/workflow/src/engine.ts:187-255 | from the context on, an ambiguous choice of data is asked about before any data is touched |
| Engine.Workflow.Catch | packages/workflow/src/engine.ts:256-297 | unless the store throws, a yield pauses with its delay, a cancellation cancels and any other fault fails the run |
| Engine.Workflow.Terminate | packages/workflow/src/engine.ts:270-296 | the run ends cancelled or failed, by the code of the fault, or the refused or lost transition is thrown |
| Engine.Workflow.Finally | packages/workflow/src/engine.ts:298-307 | the execution returns holding no lease, with the outcome of the catch block |
| Engine.Workflow.GatherProfile | packages/workflow/src/engine.ts:192-204 | recorded, or made under a newly acquired lease, or none without assets |
| Engine.Workflow.AcquireCapacity | packages/workflow/src/engine.ts:340-398 | the back-off loop terminates with a recorded lease, or with the yield or fault the machine gives, holding none |
| Engine.Workflow.WaitForCapacity | packages/workflow/src/engine.ts:373-389 | after a refusal the run fails if the ten minutes are over, else it yields or sleeps exactly as long as the refusal asks, fifteen seconds if it does not say, or as is left, and then checks that the run is active |
| Engine.Workflow.AskForLease | packages/workflow/src/engine.ts:361-363 | one request to the pool inside the waiting time; only a retryable CAPACITY_BUSY is waited out |
| Engine.Workflow.RecordLease | packages/workflow/src/engine.ts:364-378 | a granted lease is held once it is recorded |
| Engine.Workflow.PlanRoute | packages/workflow/src/engine.ts:400-430 | the route follows from the locals and the loaded profile |
| Engine.Workflow.GatherAnalysis | packages/workflow/src/engine.ts:234-245 | recorded, or made under the lease already held or a newly acquired one |
| Engine.Workflow.AnalyzeData | packages/workflow/src/engine.ts:432-549 | planned code, at most one repair, then the stored result or the fault of the last execution |
| Engine.Workflow.StoreAnalysis | packages/workflow/src/engine.ts:515-548 | the result of the last execution is what is stored, within its limit, unless one was recorded before, or its fault ends the run |
| Engine.Workflow.Repair | packages/workflow/src/engine.ts:469-513 | one repaired program and one execution of it |
| Engine.Workflow.ExecuteSandboxCode | packages/workflow/src/engine.ts:551-562 | a counted command whose result has the shape of an execution |
| Engine.Workflow.Profiled | packages/workflow/src/engine.ts:310-338 | a counted command whose bounded profile is stored |
| Engine.Workflow.Synthesized | packages/workflow/src/engine.ts:564-635 | the first acceptable answer is the result, a second one is asked for only if the first is not acceptable, the original dashboard is kept only if both are not, and the result is safe for the context and the plan |
| Engine.Workflow.FinishWithResponse | packages/workflow/src/engine.ts:655-692 | after a check that the run is active the response is committed and the run is over, or the handler is reached |
| Engine.Workflow.ValidatedContext | packages/workflow/src/engine.ts:694-725 | only a context within the schema, the byte limit and with distinct assets is recorded |
| Engine.Workflow.Step | packages/workflow/src/engine.ts:746-787 | the returned value is the store's result of the step, recorded before or performed and recorded now; otherwise the slice yields or the fault is handled |
| Engine.Workflow.CompleteStep | packages/workflow/src/engine.ts:767-786 | the value is in the store and the counter went up by one, and the limit turns that into a yield |
| Engine.Workflow.EnsureActive | packages/workflow/src/engine.ts:789-804 | passes only if no cancellation was requested and the run is not over, and otherwise leads to the handler |
| Engine.Workflow.AssertDeadline | packages/workflow/src/engine.ts:806-814 | fails exactly when twenty minutes have passed since the persisted start |
| Engine.Workflow.Reserve | packages/workflow/src/engine.ts:825-833 | passes only if this very call created the reservation |
| Engine.Workflow.ReserveAndAsk | packages/workflow/src/engine.ts:816-836 | an answer is obtained only under a key that was not reserved before and is reserved now |
| Engine.Workflow.ProviderCall | packages/workflow/src/engine.ts:873-897 | the retry loop ends with the delivered answer or with the last attempt's fault |
| Engine.Workflow.OneAttempt | packages/workflow/src/engine.ts:879-894 | one attempt delivers, fails for good, or goes on with the next attempt's key |
| Engine.Workflow.BackOff | packages/workflow/src/engine.ts:884-893 | another attempt exactly if the fault is retryable and attempts are left, after exactly the asked delay or a minute if that is less, two or eight seconds if none is asked |
| Engine.Workflow.CountSandboxCommand | packages/workflow/src/engine.ts:899-909 | the counter goes up by one and the fourth command of an execution fails |
| Ports.Ports.ClaimRun | packages/workflow/src/testing/memory.ts:114-133 | claimed from queued with start time and claimant, resumed for the same claimant, busy or terminal otherwise |
| Ports.Ports.ReserveProviderCall | packages/workflow/src/testing/memory.ts:135-155 | created exactly once per key within the budget |
| Ports.Ports.CompleteStep | packages/workflow/src/testing/memory.ts:175-181 | a reply means the value is recorded, and a lost reply leaves either that or nothing changed |
| Ports.Ports.CommitResponse | packages/workflow/src/testing/memory.ts:208-246 | status and response change together, only for an active, running, uncancelled run, also when the reply is lost |
| Ports.Ports.Transition | packages/workflow/src/testing/memory.ts:183-206 | only from an open status, or to the status it already has |
| Ports.Ports.AcquireLease | packages/workflow/src/testing/memory.ts:356-377 | granted if already held or a slot is free |
| CsvLines.SplitCsvLine | apps/web/src/chat/useFileStore.ts:183-205 | the index loop computes the recursive splitting of the line |
| CsvLines.SplitUndoesPrinting | apps/web/src/chat/useFileStore.ts:183-205 | for every non-empty list of fields, each printed bare or quoted, splitting returns exactly the trimmed fields |
| CsvLines.OneFieldPerSeparator | apps/web/src/chat/useFileStore.ts:188-203 | any line, well quoted or not, has one field more than commas outside quotes |
| CsvLines.SplitsAtComma | apps/web/src/chat/useFileStore.ts:188-203 | any line, well quoted or not, is cut at a comma behind an even number of quotes into the fields of both sides |
| CsvLines.TextIsKept | apps/web/src/chat/useFileStore.ts:188-203 | joined again with commas, the untrimmed fields of any line are the line without its quotes, doubled ones inside quotes leaving one |
| CsvLines.TrimIsExact | apps/web/src/chat/useFileStore.ts:204-204 | trimming takes blanks and nothing else off both ends, and leaves none there |
| CsvLines.BlankIsTrimmedAway | apps/web/src/chat/useFileStore.ts:204-204 | exactly the blank texts are trimmed to nothing |
| DashboardMerge.MergedDashboard.PutItem | services/morpheus-sandbox/server.py:1693-1700 | the search loop replaces the first item with the id, or appends |
| DashboardMerge.PutIsPut | services/morpheus-sandbox/server.py:1693-1700 | whatever the new item's own id is, it takes the place of the first item with the given id, with everything else unmoved, or is appended if there is none |
| DashboardMerge.MergedDashboard.MergeItems | services/morpheus-sandbox/server.py:1687-1701 | the nested loops compute the merge of the two lists |
| DashboardMerge.MergedDashboard.ReplaceChart | services/morpheus-sandbox/server.py:1647-1685 | the new chart takes the place of the first chart with the target's id, whatever its own, or is appended; without data nothing changes and that is noted |
| DashboardMerge.MergedDashboard.Apply | services/morpheus-sandbox/server.py:1641-1701 | the chart by the target's id, metrics and tables by their own, after one modification |
| DashboardMerge.MergedIsMerge | services/morpheus-sandbox/server.py:1687-1701 | every old item keeps index and id; only the first of a merged id is replaced, by the last new one; appended are the last new items of absent ids |
| DashboardMerge.OthersStay | services/morpheus-sandbox/server.py:1691-1698 | an item whose id is not merged stays what and where it is |
| DashboardMerge.MergeKeepsUnique | services/morpheus-sandbox/server.py:1691-1700 | unique ids stay unique |
| DashboardMerge.MergeGrowth | services/morpheus-sandbox/server.py:1699-1700 | the list grows by exactly the number of distinct new ids that were absent |
| DashboardMerge.MergeIsIdempotent | services/morpheus-sandbox/server.py:1687-1701 | merging the same items again changes nothing, duplicate ids included |
| DashboardMerge.ResolveDashboard | services/morpheus-sandbox/server.py:1586-1639 | the named dashboard, else the first that contains the component, else the last; none only for an empty cache |
| Sanitizer.SanitizeJson | services/morpheus-sandbox/runner/executor.py:83-117 | with the shared counter, succeeds exactly on supported values within depth and count, adds the node count to the counter, gives a value that sanitises the input leaf by leaf, and every error names a bound that is exceeded |
| Sanitizer.Sanitize | services/morpheus-sandbox/runner/executor.py:142-142 | a result passes exactly if it is supported, at most eight deep and has at most 50,000 nodes, and comes out sanitised leaf by leaf |
| Sanitizer.CleanSanitizes | services/morpheus-sandbox/runner/executor.py:94-113 | plain scalars stay, numbers that are not finite become null, library scalars their converted form, and mappings and sequences keep keys and order |
| Sanitizer.SanitizesIsUnique | services/morpheus-sandbox/runner/executor.py:94-113 | these rules leave no choice: there is one sanitised form of a value |
| Sanitizer.BudgetsAddUp | services/morpheus-sandbox/runner/executor.py:83-93 | a leaf counts one node and no level, a single child one more of both, and children side by side add up their nodes and share their levels |
| Sanitizer.CleanKeepsShape | services/morpheus-sandbox/runner/executor.py:102-113 | the output has as many nodes as the input and is as deep |
| Sanitizer.CleanIsJson | services/morpheus-sandbox/runner/executor.py:94-101 | only plain scalars, mappings and sequences are left |
| Sanitizer.SanitizingIsIdempotent | services/morpheus-sandbox/runner/executor.py:83-117 | a sanitised result passes again within the same budgets and does not change any more |
| Sanitizer.CappedText.Write | services/morpheus-sandbox/runner/executor.py:42-53 | text is written exactly if all text so far still fits, and refused text changes nothing |
| CodePolicy.RootName | services/morpheus-sandbox/runner/security.py:188-192 | the cursor loop finds the name at the left end of an attribute chain |
| CodePolicy.RootOfChain | services/morpheus-sandbox/runner/security.py:188-192 | through any chain of attributes the root is the name it starts from, and there is none if it starts from anything else |
| CodePolicy.LibraryCalls | services/morpheus-sandbox/runner/security.py:241-252 | through any chain of attributes only the listed pandas and NumPy functions may be called |
| CodePolicy.PrefixIsExact | services/morpheus-sandbox/runner/security.py:207-226 | a name starts with a prefix exactly if it is the prefix and some rest, so every name that begins with an underscore is refused |
| CodePolicy.PolicyVisitor.Visit | services/morpheus-sandbox/runner/security.py:195-257 | the early-exit visit passes exactly if every node of the full walk is allowed, and then knows whether a result is stored |
| CodePolicy.PolicyVisitor.CheckCall | services/morpheus-sandbox/runner/security.py:234-257 | only safe direct calls, safe pandas and NumPy calls and other attribute calls pass |
| CodePolicy.WalkByLevel | services/morpheus-sandbox/runner/security.py:275-275 | the queue-driven walk meets exactly the nodes of the tree, each as often as it occurs |
| CodePolicy.WalkIsWhole | services/morpheus-sandbox/runner/security.py:199-205 | the walk is the node followed by the walks of all its parts: expression contexts, targets, the called function and every argument |
| CodePolicy.ValidateAnalysisCode | services/morpheus-sandbox/runner/security.py:266-285 | accepts exactly bounded, parsable source with at most 500 nodes, all allowed, and a stored result, and every error says what is wrong |
| CodePolicy.ValidateInOrder | services/morpheus-sandbox/runner/security.py:266-285 | an early-exit check that meets the nodes in any order and sets the flag as it goes accepts exactly what the visitor accepts |
| CodePolicy.WalkCloses | services/morpheus-sandbox/runner/security.py:275-275 | what is met below a node of a tree is met in the tree |
| CodePolicy.SubtreesAreAllowed | services/morpheus-sandbox/runner/security.py:199-205 | no subtree of an accepted tree, at whatever depth, breaks a rule |
| EditCompletion.LatestUserMessageIndex | apps/web/src/chat/useChatStore.ts:1031-1036 | the reverse loop finds the last user message |
| EditCompletion.LatestChartMentionNames | apps/web/src/chat/useChatStore.ts:1038-1045 | the titles of the last user message that mentions a chart |
| EditCompletion.NamesOfLastMention | apps/web/src/chat/useChatStore.ts:1038-1045 | only the last user message with chart mentions gives names |
| EditCompletion.NonEmptyConcatenates | apps/web/src/chat/useChatStore.ts:1042-1042 | of its titles exactly the empty ones are left out, and the order stays |
| EditCompletion.JoinConcatenates | apps/web/src/chat/useChatStore.ts:1061-1064 | names are joined with commas |
| EditCompletion.ContentOrder | apps/web/src/chat/useChatStore.ts:1047-1066 | the first text that is not blank of note, summary and existing text, trimmed, and the stock sentence if all are |
| EditCompletion.ContentIsTrimmed | apps/web/src/chat/useChatStore.ts:1047-1066 | the text is never blank and already trimmed |
| EditCompletion.ContentIsStable | apps/web/src/chat/useChatStore.ts:1047-1066 | writing a payload over a text it produced gives that text |
| EditCompletion.Upsert | apps/web/src/chat/useChatStore.ts:1068-1122 | the reverse search with its fallback computes the update or the append |
| EditCompletion.TargetIsLast | apps/web/src/chat/useChatStore.ts:1072-1094 | since the latest user message, the last report of an edit or card of the edited dashboard is updated, else the last card of any dashboard |
| EditCompletion.OneMessageReports | apps/web/src/chat/useChatStore.ts:1086-1122 | one assistant message carries the payload and is no card any more, an old one keeps its identity, a new one stands at the end, and no other message changes |
| EditCompletion.UpsertKeepsHistory | apps/web/src/chat/useChatStore.ts:1072-1085 | nothing up to and including the latest user message changes, and at most one message is added |
| EditCompletion.SecondUpsertIsNoOp | apps/web/src/chat/useChatStore.ts:1068-1122 | reporting the same edit again changes nothing |
| EditCompletion.OneMessagePerTurn | apps/web/src/chat/useChatStore.ts:1068-1122 | any number of reports within a turn add at most one message |
| StaleRuns.WorkflowRuns.BeginWorkflowRun | apps/web/src/chat/useChatStore.ts:24-28 | the returned id is the one this call of the object's history began with |
| StaleRuns.WorkflowRuns.InvalidateWorkflowRuns | apps/web/src/chat/useChatStore.ts:30-33 | after the call no run at all passes the guard |
| StaleRuns.WorkflowRuns.IsWorkflowRunActive | apps/web/src/chat/useChatStore.ts:35-37 | true exactly for the run begun last in the object's history, unless it was finished or all were invalidated since |
| StaleRuns.WorkflowRuns.FinishWorkflowRun | apps/web/src/chat/useChatStore.ts:39-43 | the run no longer passes the guard, and for every other run nothing changes |
| StaleRuns.ActiveExactly | apps/web/src/chat/useChatStore.ts:20-43 | in every interleaving exactly the run begun last passes, unless it was finished or all were invalidated since |
| StaleRuns.StaleForever | apps/web/src/chat/useChatStore.ts:24-43 | a superseded or invalidated run never passes again and its finish changes nothing |
| StaleRuns.DashboardSelection.SelectDashboard | apps/web/src/chat/useChatStore.ts:3583-3599 | the click is the last one of the object's history, its number the latest request, and the spinner starts |
| StaleRuns.DashboardSelection.Resume | apps/web/src/chat/useChatStore.ts:3600-3664 | a reply to a request that a later click superseded changes nothing, and only data of the reply itself is ever shown |
| StaleRuns.SpinnerExactly | apps/web/src/chat/useChatStore.ts:3656-3662 | the spinner spins exactly while the latest click waits for its reply |
| StaleRuns.ShownWasLatest | apps/web/src/chat/useChatStore.ts:3608-3611 | shown data belongs to a request that was the latest when its reply arrived |
| StaleRuns.StaleReplyIsIgnored | apps/web/src/chat/useChatStore.ts:3608-3611 | after a newer click no older reply changes anything |
| StaleRuns.LatestWins | apps/web/src/chat/useChatStore.ts:3608-3648 | once the latest click's data has arrived it is what is shown, whatever the order of replies |

## Left out

- RunMorpheus: takes from both adapters that a busy pool asks for at least fifteen seconds; a pool that asked for less could use up the slices.
- SlicingIsInvisible: leaves the bookkeeping marks of granted leases out of the comparison, because which of them appear depends on the slicing.
- Replies of the sandbox, the provider and the artifact store that are lost after their effect: these calls change nothing the model keeps, so a lost reply is a failed call. The sliced and the unsliced run are compared without lost replies.
- The abort signal and the ninety-second provider timeout are not objects of their own: any check and any call may fail with any fault, retryable or not. A provider call aborted before its operation starts counts as invoked.
- The reads of the run record that `execute` makes only to build its return value are not steps.
- Artifacts are identified with their content, so storing and loading one can fail but never mix documents up; `maxBytes` of the artifact store is not checked again.
- Sizes are lengths of documents, not UTF-8 bytes of JSON, and the byte limit of a whole dashboard is not modelled; equality of serialised dashboards is equality of values.
- Schema parsing beyond the cross-field rules of dashboards, positions, contexts and route plans; a value of the wrong shape is a schema error.
- The two text searches of the preflight check on the prompt are inputs of the context.
- A lease is identified by its idempotency key, run and purpose; that the in-memory pool gives both leases of one run the same lease id is not modelled.
- Thinking events, titles, timestamps of records and the event limit of the store.
- `completeStep` of the in-memory store keeps the first value of a key; the model lets a later write win, which is the weaker assumption.
- The durable runtime's own persistence of the slice loop: the loop's counter is taken not to be lost.
- The order and duplication of mapping keys in the sanitiser: keys are taken to be distinct, as Python's are, and the scalar conversion of NumPy and pandas values is an input.
- Python's parser and recursion limit: the policy starts from the parsed tree.
- Non-dictionary items in the dashboard merge, and the choice of the chart data that counts as present, which is a number of points.
- The rest of a selected dashboard's state (theme, files) and the chat store's other actions.
- Model clients, HTTP adapters, the Vercel sandbox, resource limits of child processes and the user interface.
