# fluxaOS: a verified model of its core

fluxaOS is a pipeline engine: a daemon claims pending pipeline runs from a database, drives them stage by
stage through external drivers, retries failures against a budget, and repairs what a crash left behind, while
operators trigger, cancel and close things at any moment. This project models that engine's hard logic in Dafny
and proves what it keeps over every interleaving, together with the self-contained algorithms around it.

`dafny verify dfyconfig.toml` checks everything.

## How it is organised

**Pipeline runs.** `PipelineRuns` has the two tables and the routing decisions. `RunMachine` is the protocol: a
state holds the tables, the `inFlight` set, every suspended activation, the advisory lock and the rows that
recovery has still to visit, and one event is what happens between two awaits. The lock, the count snapshot, the
conditional write and the commit of a claim are separate steps. `Next` is total, so a theorem about
`Run(c, s, events)` is about every sequence of realtime events, drains, triggers, cancellations, exceptions,
crashes and restarts. On top of it: `RunSlots` (the concurrency limit), `RunInvariant` (who may touch what),
`RunSafety` (statuses), `RunBudget` and `RunReentry` (retries, claims), `RunAttempts` (attempt numbers),
`RunCancel` (cancellation), `RunFate`, `RunOverturn` and `RunEndings` (exactly when a status is settled for good),
`RunRevival` (which write revives a run), `RunRouting` (where a verdict leads, and what completes a run), `RunInFlight`
(the inFlight set and the loops). `AttemptTally` has the facts about tables that `RunReentry` needs. `RunTraces` holds
the concrete executions.

**The same code, one call at a time.** `RunService`, `StageExecutor` and `EventOrchestrator` are classes over
mutable tables, proved against functions of the tables. `LaunchOutcomes` says column by column what one launch leaves,
`ChainBound` when a chain of launches ends. `LaunchIsUninterrupted`, `HandlerIsUninterrupted` and
`RecoveryIsUninterrupted` tie these functions to the machine's steps.

**Issues.** `IssueWatcher` (dispatch as a state machine and as a class), `EpicClose` (concurrent auto-close as a
compare-and-swap protocol over a forest), `IssueService` (the sequential service over any parent graph, cycles
included).

**Algorithms.** `EventMerge`, `LineBuffer`, `Markdown` (lines into blocks) with `MarkdownText` (blocks into text), `HtmlEscape` and
`HtmlReader` (a reader that knows tags and entities only), `Gates`, `Scopes`, `DriverHistory` with
`DriverTransactions`, `Isolation`.

## What turned out false of the code

Each of these is proved: a concrete input or execution shows it, and an exact condition says when the code does
keep the property.

- Attempt numbers are not always 1..n: `createStageRun` reads the maximum and inserts in two statements, and an
  operator's trigger can enclose a whole launch with them (`LateSeedRepeatsAttempt`). A run's attempts are 1..n, and
  no number repeats, if and only if no insert of its rows used a maximum that was the maximum no longer
  (`AttemptsExactIff`); only a seed row that came after the run left pending can bring that about
  (`OvertakenIsLate`).
- Such a run can overspend its retry budget (`LateSeedOverspends`), by one and no more: `SharedBudgetIff` says exactly
  which relaunches are beyond it.
- A cancelled run does not always stay cancelled, not even if its stage was cancelled before the executor's check:
  a stage cancelled at its gate is taken back by the running write (`CancelledAtGateLost`), and a cancellation after
  the check is overwritten by the final status (`CancelledAtFinishLost`). `CancelledForGoodIff` says exactly when a
  cancelled run stays so, and `RowStaysIff` when a cancelled stage row does.
- A crash can strand a run: recovery looks at running rows only, so a run that is between two of them keeps its
  slot for good (`StrandedAtGate`). `StrandingAwaits` says exactly at which awaits, `StrandedIff` for which runs.
- An issue can come to have two non-terminal runs: once its run is cancelled the watcher adds another, and the first
  one's executor can still write blocked over the cancellation (`RevivedBesideAnother`). `OneRunPerIssueIff` says
  exactly which steps endanger an issue, and `RevivesIff` that this final write is the only one that revives a run.
- A gate can fail with no failing rule to show for it, and then proceeds: an empty OR decides it
  (`EmptyOrProceeds`). `SilentIff` says exactly when, for each context.
- Severity `block` is called an unconditional hold, but the verdict follows `onFail` (`BlockMayProceed`), and a
  block rule under an OR that passes does not count at all (`BlockUnderPassingOr`). `ProceedsIff` and `CountsIff` say
  exactly when a gate proceeds and which rules count.
- The comment in `listEvents` says a lifecycle event goes before the first strictly later stream event; the loop
  uses `<=`. `TiedInput` tells the two apart; `ReaderCommentIff` says exactly when they agree.
- The rollback of a failed insert is meant to leave nothing for the next acquire to trip over, and a release frees
  its environment, but neither deletes the branch: the next acquire with it fails (`BranchBlocksReacquire`), and
  `MintSucceedsIff` is exact.

## Model

| member | source | states |
|---|---|---|
| RunSlots.SlotBound | src/core/orchestrator/pipeline-run-service.ts:168-201 | over every interleaving of claims, finishes, drains, cancellations, crashes and recoveries the number of running runs stays within the limit if it starts there |
| RunSlots.SlotStep | src/core/orchestrator/pipeline-run-service.ts:185-200 | every single step keeps: only the lock holder is inside a claim, and the count it has read is never below the true count |
| RunInvariant.InvStep | src/core/orchestrator/event-orchestrator.ts:197-336 | every step keeps the ownership invariant: no two activations drive one run, at most one running row for each run, and only the driving activation's row may be running |
| RunSafety.StatusSafety | src/core/orchestrator/event-orchestrator.ts:121-336 | without cancellation a run only goes pending, running, one of completed, failed or blocked, or from pending to failed, and stays there; only running runs have running rows |
| RunSafety.StatusStep | src/core/orchestrator/event-orchestrator.ts:197-255 | each step moves each status along the allowed edges only; pending to failed only for a run whose pipeline has no stages |
| RunBudget.ClaimedOnce | src/core/orchestrator/pipeline-run-service.ts:185-200 | however many events, drains and restarts name a run, it is claimed at most once |
| RunBudget.RetryBudget | src/core/orchestrator/stage-executor.ts:547-570 | in every reachable state the relaunches of a stage made because an attempt failed, in recovery included, number at most `maxRetries` |
| RunReentry.SharedBudgetIff | src/core/orchestrator/stage-executor.ts:547-570 | for every run and relaunch: the stage's rows by then, entries through rework routes included, are as many as the number that failed, or one more exactly when the run's seed row came out of turn; so at most `maxRetries` + 1, and beyond the budget if and only if the last attempt of the budget failed and the seed row came out of turn |
| RunReentry.SharedBudget | src/core/orchestrator/stage-executor.ts:547-570 | in particular never beyond it for a run whose seed row did not come late |
| RunReentry.LateSeedOverspends | src/core/orchestrator/stage-executor.ts:547-570 | an execution from an empty database that retries a failure past the budget |
| RunAttempts.AttemptsExact | src/core/orchestrator/pipeline-run-service.ts:245-267 | the attempts of each stage of a run are numbered 1..n in order, unless the run's seed row was inserted after it left pending |
| RunAttempts.DenseIsExact | src/core/orchestrator/pipeline-run-service.ts:245-267 | what 1..n in order means: within range, strictly rising, no number missing |
| RunAttempts.AttemptsExactIff | src/core/orchestrator/pipeline-run-service.ts:245-267 | for every run: its attempts are 1..n in order, and equally no number repeats, if and only if no insert of its rows used a maximum that was the maximum no longer |
| RunAttempts.OvertakenIsLate | src/server/routers/pipeline.ts:308-314 | only a run whose seed row was inserted after it left pending has such an insert |
| RunAttempts.LateSeedRepeatsAttempt | src/server/routers/pipeline.ts:283-314 | a concrete execution from an empty database after which two rows of one stage carry attempt 1 |
| RunCancel.CancelSticks | src/core/orchestrator/pipeline-run-service.ts:288-316 | once a row that has been running is cancelled, no executor, recovery or later cancellation changes its status |
| RunEndings.RowStaysIff | src/core/orchestrator/pipeline-run-service.ts:277-316 | in every state: a cancelled row stays cancelled whatever happens if and only if no activation is at its gate or about to mark it running |
| RunCancel.CancelEnds | src/core/orchestrator/stage-executor.ts:292-391 | a stage and run both cancelled between the running write and the check after the driver (with a graph runner), or while the driver runs or at that check: the run is cancelled for good and no further stage of it is launched, not even after a crash |
| RunEndings.CancelledForGoodIff | src/core/orchestrator/stage-executor.ts:97-584 | in every reachable state: a cancelled run stays cancelled under every continuation if and only if no activation handling it can still end it and no row that recovery would close leads to an end |
| RunOverturn.StaysIff | src/core/orchestrator/event-orchestrator.ts:197-336 | the same for running runs, as long as nobody cancels them |
| RunEndings.CancelledAtGateLost | src/core/orchestrator/stage-executor.ts:97-391 | an execution from an empty database: run and stage cancelled at the gate, before the check, and the stage ends completed, the run blocked |
| RunEndings.CancelledAtFinishLost | src/core/orchestrator/pipeline-run-service.ts:214-235 | an execution from an empty database: a run cancelled once its final status is decided ends failed |
| RunEndings.StrandingAwaits | src/core/orchestrator/event-orchestrator.ts:278-336 | in every reachable state: a crash strands the run that an activation drives, for ever unless cancelled, exactly when the activation's row is not running at that moment, or recovering it could not end the run |
| RunEndings.StrandedIff | src/core/orchestrator/event-orchestrator.ts:278-336 | a crash strands a running run if and only if it has no running row whose recovery could end it |
| RunEndings.StrandedAtGate | src/core/orchestrator/event-orchestrator.ts:278-336 | an execution from an empty database in which a crash at the gate strands the run |
| RunRevival.RevivesIff | src/core/orchestrator/pipeline-run-service.ts:214-235 | in every reachable state: a step takes a run from a terminal status to another if and only if it is the executor's final write of blocked over a cancellation |
| RunRouting.RoutesByColumn | src/core/orchestrator/stage-executor.ts:464-545 | after a verdict, read off the stage's own columns: the run is completed if and only if the verdict's column says so, goes on at a stage if and only if the column names it, and is blocked in every other case; it fails if the issue is gone |
| RunRouting.CompletedOnlyByVerdict | src/core/orchestrator/stage-executor.ts:464-584 | in every execution a run becomes completed only after a driver of the run gave a verdict whose column says complete |
| RunRouting.RunCompletes | src/core/orchestrator/stage-executor.ts:464-584 | an execution from an empty database whose run ends completed |
| RunInFlight.InFlightExact | src/core/orchestrator/event-orchestrator.ts:197-255 | in every reachable state a run is in the inFlight set exactly while an event's or a drain's activation handles it, however activations return, throw or are killed |
| RunInFlight.RecoveryLoop | src/core/orchestrator/event-orchestrator.ts:278-336 | the recovery loop leaves the row of a living process alone, only fails one whose stage is gone, recovers any other, and ends in a drain |
| RunInFlight.DrainLoop | src/core/orchestrator/event-orchestrator.ts:263-274 | a drain takes its queue in order, skipping runs in flight |
| RunInFlight.HandlerReturns | src/core/orchestrator/event-orchestrator.ts:197-336 | a handler that returns ends an event's activation, gives a drain or the recovery its loop back, and takes its run out of the set |
| RunInFlight.EventTaken | src/core/orchestrator/event-orchestrator.ts:197-210 | an event for a run in flight is dropped, any other one is taken up |
| RunService.RunService.TryAcquireRunningSlot | src/core/orchestrator/pipeline-run-service.ts:168-201 | acquired exactly when the run is pending and a slot is free; then and only then the run becomes running; the limit is kept |
| RunService.RunService.CreateStageRun | src/core/orchestrator/pipeline-run-service.ts:245-267 | appends one pending row, numbered one above the highest attempt of its run and stage |
| RunService.RunService.CompleteStageRun | src/core/orchestrator/pipeline-run-service.ts:288-316 | writes the status unless the row is cancelled and the new status is not |
| PipelineRuns.SetRunCount | src/core/orchestrator/pipeline-run-service.ts:203-235 | what an unconditional status write can do to the limit: only a write of running raises the number of running runs, and by at most one |
| RunService.RunService.Trigger | src/server/routers/pipeline.ts:283-314 | a trigger by itself creates a pending run with one seed row, attempt 1, which is the row a claim then takes up |
| StageExecutor.StageExecutor.LaunchStage | src/core/orchestrator/stage-executor.ts:97-462 | leaves the tables and the ending that the chain of launches gives, for every sequence of launch results |
| StageExecutor.StageExecutor.HandleStageFailed | src/core/orchestrator/stage-executor.ts:547-570 | relaunches the stage within the budget, else fails the run |
| StageExecutor.StageExecutor.ApplyVerdict | src/core/orchestrator/stage-executor.ts:464-545 | routes the verdict to the next stage, to a final status, or to failed when the issue is gone |
| PipelineRuns.FindByNameExact | src/core/orchestrator/stage-executor.ts:523-542 | the routing target is the first stage of that name in the run's pipeline, none exactly when no stage has the name |
| RunMachine.FirstPendingExact | src/core/orchestrator/event-orchestrator.ts:238-250 | the seed row taken up is the run's first pending row, none exactly when it has none |
| StageExecutor.LaunchIsUninterrupted | src/core/orchestrator/stage-executor.ts:97-462 | a machine activation resumed with nothing in between, on a new row or a seed row, leaves exactly what one launch of the executor leaves, a hold at the gate included |
| LaunchOutcomes.LaunchRow | src/core/orchestrator/stage-executor.ts:97-462 | the row after one launch, for every result: its number, and pending at a held gate, completed after a verdict, else failed, unless it was a cancelled seed row; no other row changes |
| LaunchOutcomes.LaunchDecides | src/core/orchestrator/stage-executor.ts:97-570 | what follows, for every result: held, failed, retried if and only if the attempt is within `maxRetries`, or sent where the verdict's column says; and the run's status |
| ChainBound.ChainEnds | src/core/orchestrator/stage-executor.ts:464-570 | if the onPass links have no cycle, a run that meets n non-pass verdicts ends within (n + 1) * (retries left + 1) * (longest onPass path) launches |
| EventOrchestrator.EventOrchestrator.HandleNewRun | src/core/orchestrator/event-orchestrator.ts:197-255 | a run already in flight or no longer pending is left alone; otherwise it fails without stages, stays at the limit, or is claimed and its chain run from the seed row or the first stage; nothing stays in flight |
| EventOrchestrator.EventOrchestrator.DrainPending | src/core/orchestrator/event-orchestrator.ts:263-274 | handles the queue in order |
| EventOrchestrator.EventOrchestrator.RecoverOnStartup | src/core/orchestrator/event-orchestrator.ts:278-336 | recovers each dead row in turn, then drains |
| EventOrchestrator.HandlerIsUninterrupted | src/core/orchestrator/event-orchestrator.ts:197-255 | a machine activation on a new run, resumed with nothing in between, comes to what one handler leaves: it returns, fails a run without stages, stays at the limit, or claims the run and stands before the launch that the handler's chain begins with |
| EventOrchestrator.StartsAtFirstStage | src/core/orchestrator/event-orchestrator.ts:238-250 | with a slot free, the run's first pending row is launched if its stage belongs to the pipeline; otherwise the first new row is of the pipeline's first stage |
| EventOrchestrator.RecoveryIsUninterrupted | src/core/orchestrator/event-orchestrator.ts:278-336 | recovering one row likewise: the row is failed and its stage launched anew, or, beyond the budget, its run failed; where the stage is gone the run is left alone |
| EventOrchestrator.DrainInOrder | src/core/orchestrator/event-orchestrator.ts:263-274 | a drain by itself that leaves a run pending leaves every later one of its queue pending too: first in, first out |
| EventOrchestrator.ChainTidy | src/core/orchestrator/stage-executor.ts:97-584 | a chain changes no other run, ends its own run or leaves its status, and leaves no row running |
| EventOrchestrator.DrainServes | src/core/orchestrator/event-orchestrator.ts:263-274 | with a slot free, a drain by itself that leaves none of its runs running leaves none of them pending |
| EventOrchestrator.DrainKeeps | src/core/orchestrator/event-orchestrator.ts:263-274 | a drain touches only pending runs of its queue |
| EventOrchestrator.RecoveryClosesDead | src/core/orchestrator/event-orchestrator.ts:278-336 | after recovery by itself the only running rows are old ones whose process is alive, and a run without a dead row keeps its running row |
| IssueWatcher.OneRunPerIssueIff | src/core/orchestrator/issue-watcher.ts:257-392 | handlers and sweeps however interleaved and crashed, with every status written at any time: each state of an execution is safe from two non-terminal runs of an issue if and only if no step revives a terminal run beside another active run of its issue or a dispatch about to insert one |
| IssueWatcher.OneRunPerIssue | src/core/orchestrator/issue-watcher.ts:257-392 | in particular no issue has two non-terminal runs after an execution without such a step; blocked counts as non-terminal |
| IssueWatcher.RevivedBesideAnother | src/core/orchestrator/issue-watcher.ts:279-392 | an execution from no runs after which one issue has a blocked and a pending run |
| IssueWatcher.NoLeakAlways | src/core/orchestrator/issue-watcher.ts:257-277 | an issue stays in the inFlight set only while it is dispatched, however dispatches return, throw or are killed |
| IssueWatcher.Watcher.HandleIssueEvent | src/core/orchestrator/issue-watcher.ts:257-392 | adds one pending run exactly for a due issue without an active run; fails exactly when the project's open status is missing |
| IssueWatcher.Watcher.StartupSweep | src/core/orchestrator/issue-watcher.ts:198-255 | adds runs only to due issues that had none active; fails exactly when one without an active run is in a project without an open status, and otherwise every due issue ends with one |
| EpicClose.Quiescence | src/core/services/issue.ts:248-327 | from a forest of bounded height and any number of concurrent closers: once all have finished, every parent whose children are all closed is closed, none was auto-closed twice, and no closer lost both attempts |
| EpicClose.AllClose | src/core/services/issue.ts:248-327 | without assuming that closers finish: once every closer has been given 411 steps, no parent is left waiting |
| EpicClose.CloserFinishes | src/core/services/issue.ts:252-327 | in any graph and whatever the others do, a closer finishes within eight of its own steps for each level up to the depth limit |
| EpicClose.CloserStep | src/core/services/issue.ts:268-324 | every write keeps what each suspended closer relies on: the version it read is current exactly while the parent is open, and a second attempt meets a closed parent |
| EpicClose.WaitingStep | src/core/services/issue.ts:248-327 | whenever a write leaves a parent waiting to be closed, the writer is on its way to it |
| EpicClose.LogStep | src/core/services/issue.ts:283-314 | a step that closes an issue other than by an operator's own write logs exactly that auto-close |
| IssueService.ChainExact | src/core/services/issue.ts:248-327 | from any parent graph, auto-close closes a path of at most 51 distinct open ancestors, each with no other open child, and stops only at an ancestor it may not close |
| IssueService.AutoCloseExact | src/core/services/issue.ts:248-327 | field by field: each issue of the path ends closed, in its project's terminal state, one version higher; every other is untouched; one event for each with its old and new state |
| IssueService.StaleAfterAutoClose | src/core/services/issue.ts:281-296 | an operator holding a version read before the auto-close gets a version conflict |
| IssueService.IssueService.MaybeAutoCloseParent | src/core/services/issue.ts:248-327 | the method over the mutable table does exactly that: the path closed field by field, and one event for each appended |
| IssueService.IssueService.TryClose | src/core/services/issue.ts:263-314 | one attempt closes the parent exactly when it is there, open, without an open child and its project has a terminal state |
| IssueService.IssueService.Transition | src/core/services/issue.ts:543-605 | fails exactly on a missing issue, another project, a stale version or an unknown state; otherwise moves the issue and closes its finished ancestors |
| IssueService.IssueService.StateOverride | src/core/services/issue.ts:607-668 | the same without the project check, logged as an override |
| IssueService.IssueService.Close | src/core/services/issue.ts:670-687 | succeeds exactly on a known issue of the expected version in a project with a terminal state, and leaves it closed there |
| IssueService.IssueService.Reopen | src/core/services/issue.ts:689-706 | reopens only that issue: ancestors that auto-close closed stay closed |
| EventMerge.ListEvents | src/core/orchestrator/pipeline-run-service.ts:326-367 | the loop with its moving index returns the merge of the sorted stream and the lifecycle rows |
| EventMerge.MergedExact | src/core/orchestrator/pipeline-run-service.ts:342-366 | a result is the merge if and only if its stream rows are the sorted stream, its lifecycle rows are the table's in time order, and each lifecycle row stands right before the first stream row not older than it; it is a permutation of the rows |
| EventMerge.SortStable | src/core/orchestrator/pipeline-run-service.ts:342-344 | rows with the same line number keep their order |
| EventMerge.UnchangedIff | src/core/orchestrator/pipeline-run-service.ts:326-367 | rows come back as committed exactly when the stream was committed in line order and no stream row ties with a later lifecycle row |
| EventMerge.ReaderCommentIff | src/core/orchestrator/pipeline-run-service.ts:347-361 | the merge that the comment describes is the result if and only if no lifecycle row ties with the stream row it is put in front of |
| EventMerge.TiedInput | src/core/orchestrator/pipeline-run-service.ts:347-361 | two rows on which comment and loop differ |
| LineBuffer.ChunkingInvariance | src/adapters/langgraph/langgraph-stage-runner.ts:70-90 | however the output is cut into chunks, the observer is called with exactly the non-blank lines of the whole output, in order; before the end the unfinished line is held back |
| LineBuffer.SplitUnique | src/adapters/langgraph/langgraph-stage-runner.ts:73-74 | the split lines are the only newline-free pieces that join back to the text |
| LineBuffer.NonBlankExact | src/adapters/langgraph/langgraph-stage-runner.ts:71-78 | the observer hears a line if and only if it holds a character that is no white space |
| LineBuffer.Driver.OnData | src/adapters/langgraph/langgraph-stage-runner.ts:71-78 | one chunk: reports the finished lines, keeps the rest, which has no newline |
| LineBuffer.Driver.OnClose | src/adapters/langgraph/langgraph-stage-runner.ts:83-102 | reports the last line if not blank; an error exactly after a timeout or an error event |
| LineBuffer.RunDriver | src/adapters/langgraph/langgraph-stage-runner.ts:48-102 | over a driver's whole life the calls are the non-blank lines of its output, whenever the timer fires and the error event comes; each of the two makes it an error, and nothing else does |
| Markdown.Renderer.ReadAll | src/core/markdown.ts:40-116 | the line loop renders the grouping of the lines into blocks, well nested, with the content of every line once and in order |
| Markdown.Renderer.ReadLine | src/core/markdown.ts:40-109 | at most one of paragraph, list, quotation and fence is open before and after every line |
| Markdown.StepResumes | src/core/markdown.ts:40-109 | what is out already, together with what the open block and the remaining lines will give, is the same before and after a line |
| Markdown.GroupContent | src/core/markdown.ts:4-117 | every content line appears exactly once, in order and in its own place (paragraph, quotation, fence, heading of its level, list of its kind), raw between fences and without its marker elsewhere |
| Markdown.RenderNested | src/core/markdown.ts:4-117 | list items occur only inside a list, every list is closed by its own tag, and nothing else is inside a list |
| Markdown.ClassifyFirst | src/core/markdown.ts:40-109 | which kind a line is: a fence before all else, then blank, heading, bullet, number and quote, the first that matches |
| Markdown.GroupMerges | src/core/markdown.ts:40-109 | which lines share a block: adjacent lines of one kind outside fences merge, anything else begins a block |
| MarkdownText.RenderMarkdown | src/core/markdown.ts:4-134 | read back by a reader of tags and entities, the output has the grouping's tags in order, balanced if the inline markup is, and between them every content line as the markup reads |
| MarkdownText.RenderPlain | src/core/markdown.ts:4-134 | without inline markup, balanced tags and between them exactly the characters of the content lines, whatever markup they look like |
| MarkdownText.ReadConcat | src/core/markdown.ts:4-134 | the text of any sequence of blocks reads back as their tags and contents |
| MarkdownText.CodeBodyExact | src/core/markdown.ts:40-46 | under any inline markup a code block's body holds no markup character and unescapes to its lines |
| MarkdownText.NormalizeExact | src/core/markdown.ts:5 | every carriage return with newline becomes a newline, all else stays |
| HtmlReader.ReadEscaped | src/core/markdown.ts:127-134 | a reader that knows only tags and entities sees escaped text as the characters written, and no tag |
| HtmlEscape.EscapeExact | src/core/markdown.ts:127-134 | escaped text holds no angle bracket or quote, and reading its entities back gives the text: the five replacements do not disturb one another |
| Gates.EvaluateGroup | src/core/gates/engine.ts:102-130 | throws exactly when a group is nested beyond three levels; otherwise returns the result tree and appends its rule results, in order, to the shared collector |
| Gates.FlattenExact | src/core/gates/engine.ts:102-180 | the collected results are those of every rule once, from left to right at every depth; each passes exactly if its test does and it is no block rule |
| Gates.CollectEffectiveFailures | src/core/gates/engine.ts:140-160 | the failed rules under failed groups only, in order |
| Gates.EffectiveSubsequence | src/core/gates/engine.ts:140-160 | the failures that count are a subsequence of the rule results |
| Gates.EffectiveIn | src/core/gates/engine.ts:134-160 | a rule's failure counts if and only if it failed and every group around it failed |
| Gates.SilentIff | src/core/gates/engine.ts:66-97 | for every tree and context: no failure counts exactly when the root passed or fails silently, that is by an empty OR alone |
| Gates.EmptyOrProceeds | src/core/gates/engine.ts:125-128 | a concrete tree whose root fails in every context while the gate proceeds |
| Gates.SoundIff | src/core/gates/engine.ts:85-97 | "no failure counts exactly when the root passed" holds for all combinations of rule outcomes if and only if the tree cannot fail silently |
| Gates.NoEmptyOrIsSound | src/core/gates/engine.ts:125-128 | a tree without an empty OR cannot fail silently |
| Gates.ResolveWorstAction | src/core/gates/engine.ts:290-313 | the onFail of any failure that no other outranks by severity and then action; none if there is no failure or that one is a warning |
| Gates.EvaluateGate | src/core/gates/engine.ts:37-98 | the evaluation for every mode; in rules mode the verdict as `VerdictExact` has it, over the mutable collector |
| Gates.OrderIrrelevant | src/core/gates/engine.ts:102-160 | reordering or repeating items in any group at any depth changes neither whether the gate throws nor its worst action |
| Gates.ProceedsIff | src/core/gates/engine.ts:272-331 | for every tree and context: the gate proceeds if and only if each rule that counts is a warning, says proceed, or gives way to one of higher severity |
| Gates.WorstIffAskedFirst | src/core/gates/engine.ts:272-313 | the worst action, without weights: of the rules that decide (block before required, warnings never) what they ask for first, abort before rework before hold before escalate before notify; none if no rule decides |
| Gates.VerdictExact | src/core/gates/engine.ts:272-331 | abort exactly when a deciding rule asks for it, rework exactly when none asks to abort and one to rework, held exactly when none asks for either and one to hold, escalate or notify |
| Gates.CountsIff | src/core/gates/engine.ts:134-160 | a rule, block ones included, counts if and only if it fails and so does every group around it, at every depth |
| Gates.BlockProceedsIff | src/core/gates/engine.ts:272-331 | where a block failure counts, the gate proceeds if and only if every such failure's onFail is proceed |
| Gates.BlockUnderPassingOr | src/core/gates/engine.ts:134-176 | a concrete tree whose block rule does not count, so that the gate proceeds although it says hold |
| Gates.BlockMayProceed | src/core/gates/engine.ts:166-176 | a concrete rule set where a block rule and a required abort fail and the gate proceeds |
| Scopes.QueriesAgree | src/core/services/resolve-scoped.ts:172-207 | with one row at most for each name and layer owner, the bulk query keeps for every name the row the one-name query returns |
| Scopes.RankedIff | src/core/services/resolve-scoped.ts:90-138 | the filter admits a row if and only if the order ranks it 1 to 5 and its layer's context id is not empty; the rank is its layer and its owner the context's |
| Scopes.NearestLayerWins | src/core/services/resolve-scoped.ts:122-138 | a row is the answer if and only if it is a candidate and no candidate is of a nearer layer: project, user, team, organisation, catalog |
| Scopes.AddedRow | src/core/services/resolve-scoped.ts:172-207 | a new row changes no other name's answer, and its own only by coming from a nearer layer |
| Scopes.ScopedWhere | src/core/services/resolve-scoped.ts:90-120 | the predicate list built layer by layer admits what the waterfall means, and the caller's filter is kept |
| Scopes.ValidIff | src/core/services/resolve-scoped.ts:140-161 | a row is valid if and only if it is a catalog row without owner or has exactly one owner, its own layer's |
| Scopes.AssertValidScopedRows | src/core/services/resolve-scoped.ts:163-170 | fails on the first invalid row, otherwise returns the rows |
| Scopes.ResolveScoped | src/core/services/resolve-scoped.ts:172-188 | the best candidate, nothing exactly when there is none, or an error exactly when the best candidate is invalid |
| Scopes.ResolveScopedAll | src/core/services/resolve-scoped.ts:190-207 | the best candidate of every name, or an error naming a best candidate that is invalid |
| DriverHistory.WrittenGood | src/core/services/driver.ts:147-178 | a write adds one revision numbered next and equal to the new row, and changes no earlier one |
| DriverHistory.RevertRoundTrip | src/core/services/driver.ts:188-239 | reverting to any revision and then to the former newest restores every field, two versions and two revisions later |
| DriverHistory.FoundIff | src/core/services/driver.ts:194-208 | a revision is found exactly for the numbers from 1 to version - 1; the newest equals the row |
| DriverHistory.MaxOfNumbered | src/core/db/revision.ts:23-33 | max plus one is the next number of a history numbered without gaps |
| DriverHistory.DriverService.UpdateDriver | src/core/services/driver.ts:147-178 | succeeds exactly for a known driver at the expected version; then sets the given fields, else changes nothing |
| DriverHistory.DriverService.RevertToRevision | src/core/services/driver.ts:188-239 | fails exactly on an unknown revision or a stale version; otherwise restores that revision's fields |
| DriverTransactions.Serializable | src/core/services/driver.ts:147-239 | over every interleaving of the statements of updates, reverts and rollbacks, the database is what the committed requests give one at a time in commit order; histories stay numbered 1..n and only grow |
| DriverTransactions.InvStep | src/core/services/driver.ts:147-239 | each commit is its request done at once on the database of that moment, at the version it was guarded by; no other step changes the database |
| Isolation.OneEnvironment | src/adapters/git/worktree-isolation-provider.ts:121-257 | over any sequence of calls, failures and outside changes, an environment that is not released stays its run's only active one, with the same path, branch and (once set) artifacts path, and is what every acquire that succeeds returns |
| Isolation.NeverTwoActive | src/adapters/git/worktree-isolation-provider.ts:121-316 | over any sequence of calls, failures and outside changes no project and run has two active environments |
| Isolation.AcquiredUsable | src/adapters/git/worktree-isolation-provider.ts:121-257 | a returned environment is active, the caller's, its worktree exists and its artifacts path is set |
| Isolation.MintSucceedsIff | src/adapters/git/worktree-isolation-provider.ts:214-257 | a first acquire succeeds exactly when branch and path are new and no outside step fails |
| Isolation.ReacquireSucceedsIff | src/adapters/git/worktree-isolation-provider.ts:153-213 | an acquire for a run with an active environment succeeds exactly when what it still needs works out: nothing, the artifacts directory, or a worktree on the old branch or a new one |
| Isolation.AcquiredExact | src/adapters/git/worktree-isolation-provider.ts:153-257 | what is written, field by field: a missing artifacts path becomes the request's and is on disk, a lost worktree is made again at its own path and branch |
| Isolation.FailureLeaves | src/adapters/git/worktree-isolation-provider.ts:214-257 | what a failed first acquire leaves: a failed insert only the branch, a failed copy or artifacts directory the worktree too, no row ever |
| Isolation.ReleaseExact | src/adapters/git/worktree-isolation-provider.ts:259-305 | when a release succeeds and what it removes; unforced it refuses exactly the dirty worktrees, and it never touches another environment |
| Isolation.BranchBlocksReacquire | src/adapters/git/worktree-isolation-provider.ts:214-257 | once a first acquire has found or left its branch in git, successful or not, a later first acquire with that branch fails until someone else deletes it |
| Isolation.IsolationProvider.AcquireEnvironment | src/adapters/git/worktree-isolation-provider.ts:121-257 | the method over mutable rows, disk and branches does what the functions above say, and keeps one active row for each project and run |
| Isolation.IsolationProvider.ReleaseEnvironment | src/adapters/git/worktree-isolation-provider.ts:259-305 | likewise for release, and every dirty worktree survives an unforced one |

## Left out

- The periodic recovery sweep: it may fail rows of live executors; recovery is modelled at startup only.
- `manual-run.ts`, `stage-runner.ts` and the operator's approve and reject endpoints: they write statuses without the claim protocol.
- The cancel endpoints as sequences of writes: the machine lets any row or run be marked cancelled at any time, which covers every order in which they write.
- Liveness of the pending queue, and its order across drains: a drain skips a run still in flight. `DrainServes` and `DrainInOrder` are about a drain by itself.
- The drain that `finishRun` starts in the background: in the machine drains may start at any time; the class `EventOrchestrator` has no background work.
- StageExecutor.StageExecutor.LaunchStage: runs alone, so the cancellation check finds nothing; the check is in `RunMachine`. A missing driver and a missing binary are one result.
- EventOrchestrator.EventOrchestrator.RecoverOnStartup: the rows, the processes that are alive and the pending queue are parameters, as read from outside.
- IssueWatcher.OneRunPerIssueIff: only the watcher inserts runs; trigger calls, which insert one without looking for another, are not part of that machine.
- EpicClose.Quiescence: no other writer than closers, and every project has a terminal state; database errors inside an attempt are left out.
- RunReentry.SharedBudgetIff: the starting table must be in order already, as an empty one is (`EmptyInOrder`).
- RunReentry.SharedBudget: not for runs whose seed row came late, where `SharedBudgetIff` is exact.
- RunService.RunService.CreateStageRun: its read and its insert are one step here; they are two in `RunMachine`, where `RunAttempts` shows what that costs.
- `failStageAndRun`: only the manual path calls it.
- RunService.RunService.Trigger: the guard that turns away issues with open children is left out; the two writes interleave with the daemon in `RunMachine`.
- RunEndings.CancelledForGoodIff: continuations are those of the machine, so operators approving a held stage or using the manual path are not among them.
- `RunMachine.Config` is fixed for an execution, while operators may edit a stage's retries and routing under a running run.
- The terminal hook, deploys, issue blocking, cost aggregation, transcript events and notifications: outside calls or bookkeeping. The hook is one step.
- `cause`, `claims`, `late` and `cancelUsed` are records for the proofs; the tables have no such columns.
- EventMerge.ListEvents: line numbers and timestamps are integers.
- LineBuffer.ChunkingInvariance: about characters; decoding each chunk's bytes on its own can damage a character cut in two, which is not modelled.
- Markdown.Renderer.ReadLine: the line patterns are functions given to the renderer, tried in the source's order; inline markup is a function on escaped text.
- Gates.EvaluateGroup: looking up a field and applying an operator is one function from rule to boolean; actual values and reason texts are left out.
- Scopes.QueriesAgree: the database's answer is any answer the filter and the order allow; collation of names is left out.
- DriverHistory.DriverService.UpdateDriver: a duplicate slug or other database error is not modelled in the call; in `DriverTransactions` it is a rollback. Deleting a driver is left out.
- Isolation.IsolationProvider.AcquireEnvironment: calls do not overlap; path resolution, the copying of files and the `.gitignore` entry are steps that may fail.
- The user interface, the routers beyond trigger and cancel, the command line, deploy bridge, forge adapters, prompt and command building, catalog editing: plumbing or outside calls.
