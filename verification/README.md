# Brawl, modelled and verified

Brawl is a merge queue for GitHub. Users ask for a *try* (test a pull request merged into its
base) or a *merge* (test it, then push the tested commit to the target branch) with commands in
comments. Each becomes a CI run: a row that is queued, in progress, and in the end a success, a
failure or cancelled. A scheduler ticks, picks one run for each repository and CI branch, starts
it or looks at its checks; webhooks report commands, changed pull requests and check results.

This project models that server and proves what a maintainer relies on:

* **No untested commit is pushed.** However commands, webhooks and the scheduler's stale work
  list interleave, a commit the bot pushed to a target branch is the run commit of a merge run
  all of whose required checks had succeeded for that very commit.
* **Once and in turn.** No run is pushed after it was completed or cancelled, and after a push it
  can be pushed again only if that push was rolled back; one run at a time is in progress per repository and CI branch, one run per pull request is
  active, Success is final.
* **The CI branch of a merge in progress was last asked to hold that merge's commit**, and **a
  merge is pushed to the branch it was merged onto**, each exactly until one of the listed steps.
* **The queue moves.** A run is given its minutes and no more: an undecided run is left alone within
  its time, and completed by the tick that sees it overdue; the queue is served
  in the documented order, and it drains.
* **The lock.** The counted lock map gives mutual exclusion, does not leak and does not strand,
  exactly as long as the last one counted on a lock does not give up waiting.
* **The algorithms that feed the queue**: selection of runs, approvers, labels, pull request
  diffs, branch names, commands.

## How it is put together

| file | contents |
|---|---|
| Basics, BranchNames, CiRuns, Checks, PrRows, Labels, Approvers | rows, filtered updates, names, diffs, label and reviewer computation |
| Store, Workflow, Handlers, Scheduler | the server's transitions: each takes the world and the answers of GitHub and the database, and gives the new world and the outcome |
| Server | the server as it is written: fields changed one statement at a time with early returns, each method equal to its transition |
| System | webhook transactions (with rollback), the tick's work list, the clock, in any order |
| Invariants, WorkflowProofs, HandlerProofs, SystemProofs | the invariant, kept by every step |
| Effects, Replies | what each step and each handler answers, writes and asks of GitHub, said without their own functions |
| Safety, CiBranches, Targets, Commands, Progress, Guarantees | the main results |
| Witness | a run of the server that ends with a push |
| RepoLock, RepoLockProofs, DroppedWaiters | the lock as program-counter steps of any number of tasks, its proofs, and what a dropped waiter costs |

GitHub is a log: the merge commits it made, the results it reported, the pushes and other requests
in order, and the labels. A rollback restores the tables and nothing of this. The answer of every
call is a parameter, so all results hold for every combination of answers.

Premises on the outside world, all visible in `System.Enabled`, `System.HonestCheck`,
`System.FreshMerge` and `System.Initial`: a merge commit GitHub makes is new; a check keeps its
commit, and checks of the bot's merge commits come from the repository they were made for; the
configuration does not change, and no repository's merge prefix is a prefix of its try prefix; one
server works on the database, which starts empty; time does not go back. `for_run` returns the
rows of the run it is asked about, in any order, and `pending` the uncompleted rows, in any order.

## What the code does not give

Each of these comes with the condition under which it happens, a guard of the failing branch, and
with a proof that otherwise it does not.

* A run can be pushed a second time exactly when the transaction that pushed it was rolled back
  (`Safety.PushedAgainExactly`).
* A merge's CI branch is wrong exactly from a transaction on that is undone after it had asked for
  the branch's deletion: a cancel, a pull request webhook or a check webhook, each with its guard
  (`CiBranches.StepKeepsBranchExactly`, `CiBranches.MergeBranchHoldsItsCommit`).
* A merge is pushed to the branch the stored row targets, which is its base exactly as long as no
  try, retry or cancel command reports another target and leaves the merge going, and no retry
  queues an old base (`Targets.StepAimsExactly`, `Targets.PushesGoToTheBase`).
* A Success row does not imply a push (`WorkflowProofs.SuccessEndsIn` says when there is one).
* A cancelled run can become a failure: `fail` has no filter (`Safety.StaleStartOfCancelled`, an
  if and only if); it is never started.
* A stale refresh can take a Success away exactly when a row of a required name failed, or is short
  of success and the run is overdue (`Safety.SuccessLostExactly`). That takes two checks of one
  name, which the order of the rows then decides between (`Checks.SharedNameIsDecidedByOrder`).
* A try that superseded another loses its CI branch to the stale handling of the older one exactly
  when that fails and says so (`CiBranches.SupersededTryTakesTheBranch`).
* A check whose name differs from a required one in case is stored as required and has the run
  refreshed (`Checks.RequiredExactly`), but only the exact name ever counts (`Effects.RefreshDecides`).
* A refused try, retry or cancel still stores the changed pull request, so the webhook that should
  cancel the active merge sees no change (`Safety.RefusedTryHidesTheChange` and its two siblings).
* A try that supersedes a try ends up in progress without its labels
  (`Commands.SupersedingTryLosesLabels`).
* Labels: exactly when one update leaves every desired label present (`Labels.DesiredPresentExactly`).
* The row a pull request update leaves in memory differs from the stored one exactly when nothing
  but the time stamp is written (`PrRows.MemoryAgreesWithStore`).
* The priority of a merge command reaches the run, but an upsert does not write it to a row that
  exists (`Commands.MergeQueuesExactly`, `PrRows.UpsertShows`).
* With two started runs in a group, and only then, the selection depends on the row order
  (`Scheduler.OrderIndependentExactly`).
* Dropping a waiting `lock` future breaks mutual exclusion, in any state with an idle task, exactly
  when it was the last one counted on its lock (`DroppedWaiters.DropIsSafeExactly`).

## Model

| member | source | states |
|---|---|---|
| Safety.PushedCommitsAreTested | server/src/github/merge_workflow.rs:237-316 | in every reachable state each commit pushed to a target branch is the run commit of a merge run of that repository, and at the moment of the push every required check had a success row for the run, and GitHub had reported the conclusion `success` under that name for that very commit (to which branch: the rows of Targets) |
| Targets.PushesGoToTheBase | server/src/github/merge_workflow.rs:299 | over every history: the stored target is an uncompleted merge's base at every state exactly when no listed command misaims it, and then every push of it went to the branch it is based on |
| Targets.PushGoesToBaseExactly | server/src/github/merge_workflow.rs:299 | a push goes to the target stored at that moment, so to the branch the run is based on if and only if the two agree then |
| Targets.StepAimsExactly | server/src/command/retry.rs:21-90 | base and stored target go on agreeing over a step exactly when it is not a committed try, retry or unpermitted cancel that reports another target for the active merge, nor a retry of a merge with an old base |
| Targets.RetryKeepsTheOldBase | server/src/command/retry.rs:31-80 | after a retarget a retry queues the old base while it stores the new target |
| Safety.NoPushAfterCompletion | server/src/github/merge_workflow.rs:238-250 | from the moment a run is completed or cancelled no later history contains a push of it, stale work list or not |
| Safety.EachRunPushedAtMostOnce | server/src/github/merge_workflow.rs:238-316 | a run none of whose own pushes was rolled back is pushed at most once in any history, whatever happens to other runs |
| Safety.PushedAgainExactly | server/src/github/merge_workflow.rs:238-316 | after a step that pushed a run, some continuation pushes it again if and only if that step was rolled back |
| Safety.StepPushes | server/src/github/merge_workflow.rs:238-316 | a step makes at most one push, of a run not yet completed, and leaves it completed exactly when the transaction was not rolled back after the push |
| Safety.RolledBackPushRepeats | server/src/webhook/mod.rs:229-245 | a check webhook that pushed and was rolled back, by a refused commit or an error after the push, is possible again and pushes the same run a second time |
| Safety.SucceedPushesExactly | server/src/github/merge_workflow.rs:238-300 | `success` pushes exactly when it claimed an uncompleted merge run that has a commit and the approvers and the comment went through |
| Safety.RefreshPushesExactly | server/src/github/merge_workflow.rs:358-405 | a refresh pushes exactly when the run as read is started and not completed, its required checks are green and `success` gets to the push |
| Safety.CheckPushesExactly | server/src/webhook/check_event.rs:13-53 | the check webhook pushes exactly when a required check of an uncompleted run completes the set, and then that run |
| Safety.RowsEvolveOverRuns | server/src/database/ci_run.rs:72-88 | over any part of any history: run commit and start are written at most once and not after completion, a completed row stays completed and can only turn into a failure, nothing returns to the queue, no row is lost |
| Safety.RowsAreCoherent | server/src/database/ci_run.rs:165-198 | in every reachable state: completed iff success, failure or cancelled; started iff a run commit is recorded; queued implies neither (and is a merge); in progress and success imply started |
| Safety.OneRunInProgressPerGroup | migrations/2024-12-11-131337_github/up.sql:135 | at most one run is in progress per repository and CI branch, proved from the scheduler and the guards, not from the index |
| Safety.OneActiveRunPerPr | migrations/2024-12-11-131337_github/up.sql:138 | a pull request has at most one uncompleted run and it has the largest id of its runs, proved from the command guards, not from the index |
| Safety.SuccessIsFinal | server/src/github/merge_workflow.rs:238-250 | a stored Success that no check row of a required name speaks against now is never lost in any continuation, even with stale refreshes under way |
| Safety.DistinctNamesSuffice | server/src/github/merge_workflow.rs:366-401 | with one row per name nothing speaks against a Success |
| Safety.SuccessLostExactly | server/src/github/merge_workflow.rs:366-429 | the handling of an old snapshot can turn a Success into a failure if and only if a row of a required name failed, or one is short of success and the run is overdue |
| Safety.StaleRefresh | server/src/github/merge_workflow.rs:351-432 | what a refresh with an old snapshot does to a completed row: nothing, or a failure exactly when the checks as read are broken or overdue and the failure is stored |
| Safety.StaleRefreshOfSuccess | server/src/github/merge_workflow.rs:366-429 | a Success row handled from an old snapshot becomes a failure exactly under that condition |
| Safety.StaleStartOfCancelled | server/src/github/merge_workflow.rs:434-589 | a run cancelled after the list was fetched is never started, and becomes a failure exactly when its start fails and that is stored |
| Safety.ChecksOfCompletedRunsFrozen | server/src/webhook/check_event.rs:29-32 | once a run is completed its check rows are frozen over every continuation: none added, changed or taken over by another run |
| Safety.CheckIsStoredExactly | server/src/webhook/check_event.rs:20-50 | the webhook writes exactly one row, for the uncompleted run with that commit whose pull request is stored, and otherwise none: success iff GitHub concluded success, failure iff failure, timed out or action required, cancelled and skipped likewise, pending iff none or neutral; name, times, address and required flag as reported |
| Guarantees.FailedCheckNeverPushes | server/src/webhook/check_event.rs:20-50 | a required check reported as failed, timed out or in need of action never makes that webhook push, if the run has no other row of that name; the run fails once that is stored |
| Guarantees.AcceptedPushStays | server/src/github/merge_workflow.rs:238-346 | a committed check webhook that decides a merge, whose push is accepted and whose labels are stored, leaves the run a Success completed now and the accepted push of its commit, whatever becomes of the branch's deletion |
| Guarantees.StartedRunIsGivenItsTime | server/src/github/merge_workflow.rs:403-429 | a run that some step put in progress keeps its row when it is handled at most `timeout_minutes` times 60 000 milliseconds after that step and its checks have not decided it, whatever came between |
| Guarantees.StartsAreStamped | server/src/github/merge_workflow.rs:542-548 | whichever step puts a run in progress, the row's start is the time of that step |
| Guarantees.UndecidedIsFailedLate | server/src/github/merge_workflow.rs:403-429 | after that time an undecided run is failed as timed out |
| Guarantees.CommitExactly | server/src/webhook/mod.rs:187-203 | an undone transaction restores every row but neither what GitHub was asked nor the ids it used |
| Effects.FailExactly | server/src/github/merge_workflow.rs:187-228 | `fail` answers Ok exactly when the row was there and written and comment, deletion and labels went through; the row ends now; the requests are the comment and then the deletion, as far as it gets |
| Effects.SuccessExactly | server/src/github/merge_workflow.rs:230-347 | `success` answers Ok exactly when the run was not its to claim or everything but the deletion went through, a refused push by way of its failure; rows and requests accordingly |
| Effects.RefreshDecides | server/src/github/merge_workflow.rs:358-429 | the first required check that failed, in the configured order, fails the run by name; it succeeds if all succeeded; else it is failed once more than the configured minutes have passed and left alone before |
| Effects.StartExactly | server/src/github/merge_workflow.rs:434-589 | what a start answers, says and asks for each answer: base missing, merge conflict, merge error, refused CI push, or through; the row of a queued run gets the commit and the present time |
| Effects.CancelExactly | server/src/github/merge_workflow.rs:591-654 | when a cancel answers Ok, which row it ends, and its requests in order |
| Effects.CancelStopsExactly | server/src/github/merge_workflow.rs:616-650 | a cancel asks to stop a workflow if and only if it claimed a started run and the workflow is listed for its commit and not concluded |
| Effects.AnnounceExactly | server/src/github/merge_workflow.rs:656-681 | when `queued` answers Ok, and its one comment |
| Effects.LabelsMove | server/src/github/label_state.rs:82-136 | a stored label update of the current row, label by label in terms of the six configured lists: recorded iff listed, present unless refused, gone if no longer listed unless refused, else untouched; no other column changes |
| Effects.MergeLabelsExactly | server/src/github/label_state.rs:11-136 | after a start and a success that are accepted, exactly `on_merge_success` is recorded and present, labels only of `on_merge_in_progress` or recorded before are gone, no other moves |
| Effects.UpdatesReconcile | server/src/github/label_state.rs:11-136 | any number of accepted updates of a stored pull request reconcile its record and its labels with the last state |
| Effects.FailMovesLabels | server/src/github/merge_workflow.rs:225 | a failure that goes through leaves the labels of a failed merge or a failed try |
| Effects.SuccessMovesLabels | server/src/github/merge_workflow.rs:344 | a claimed success leaves the labels of a merged pull request, or of a failed merge if the push was refused |
| Effects.StartMovesLabels | server/src/github/merge_workflow.rs:434-589 | a start that goes through leaves the labels of a merge or a try in progress |
| Effects.CancelMovesLabels | server/src/github/merge_workflow.rs:591-654 | a cancel that goes through leaves no labels of its own |
| Effects.AnnounceMovesLabels | server/src/github/merge_workflow.rs:656-681 | a queued merge gets its labels |
| Replies.RefusedTryReplies | server/src/command/dry_run.rs:38-92 | a try that is not allowed, or names a commit GitHub does not know, changes no table, says which of the three it is, and fails only if a question or the comment failed |
| Replies.TryAtReplies | server/src/command/dry_run.rs:95-154 | beyond that: refused with a comment for an active merge; else it ends well exactly when the cancellation of the active try and the start do, and asks what they ask |
| Replies.MergeReplies | server/src/command/merge.rs:30-138 | when a merge command ends well, and its comment: another run is pending, or the commit is approved |
| Replies.RetryReplies | server/src/command/retry.rs:21-90 | when a retry ends well, and what it says or asks for the newest run |
| Replies.RetryOfNothingReplies | server/src/command/retry.rs:35-50 | a retry without a run says that there has never been one |
| Replies.CancelReplies | server/src/command/cancel.rs:21-63 | when a cancel command ends well, and that it confirms exactly a cancellation that went through |
| Replies.PrChangeReplies | server/src/webhook/pull_request.rs:23-74 | the webhook says something exactly when a changed pull request loses its active merge, and fails only if that does |
| Replies.CheckReplies | server/src/webhook/check_event.rs:13-53 | what the check webhook does with the run of the commit: nothing if completed, an error without its pull request, a refresh if the check is required |
| Replies.UnconfiguredIsOff | server/src/command/dry_run.rs:30-40 | in a repository without a configuration try, merge and retry do nothing |
| Safety.ChangedPrLosesItsMerge | server/src/webhook/pull_request.rs:23-74 | after the webhook the stored row shows the pull request; if that was a change no merge of it is active; if not nothing was touched; one seen for the first time touches no run; tries never are touched |
| Safety.RefusedTryHidesTheChange | server/src/command/dry_run.rs:95-128 | a try refused for an active merge stores the pull request as it is, and the webhook that follows does nothing |
| Safety.RefusedRetryHidesTheChange | server/src/command/retry.rs:31-59 | so does a retry while a run is active, whoever gives it |
| Safety.RefusedCancelHidesTheChange | server/src/command/cancel.rs:26-47 | so does a cancel by somebody who may not cancel |
| Witness.APushIsReachable | server/src/github/merge_workflow.rs:238-316 | a merge command, a tick and a check report lead from the empty database to a push |
| SystemProofs.TraceKeepsSysInv | server/src/auto_start.rs:26-37 | the invariant of tables, log and stale work list holds over every interleaving from any state that has it |
| SystemProofs.StepKeepsSysInv | server/src/webhook/mod.rs:170-246 | every single step keeps it: transactions committed or rolled back, ticks, skips, the clock |
| SystemProofs.ChosenItem | server/src/auto_start.rs:39-54 | a run chosen from the pending rows that is not started is a queued merge, nobody of its group is in progress and it is first of its queue |
| SystemProofs.WorkItemAfterTransaction | server/src/auto_start.rs:68-91 | those facts about an item survive any transaction after the list was fetched |
| CiBranches.MergeBranchHoldsItsCommit | server/src/github/merge_workflow.rs:542-567 | over every history and for each merge on its own: while it is in progress its branch was at every state last asked to hold its commit, if and only if no transaction of the history was undone after asking for that branch's deletion |
| CiBranches.StepKeepsBranchExactly | server/src/github/merge_workflow.rs:542-567 | a step keeps that invariant if and only if it is not such a transaction |
| CiBranches.HandlerTakesExactly | server/src/webhook/pull_request.rs:23-74 | a webhook asks for the deletion of a merge's branch exactly for a permitted cancel, a changed pull request or a deciding check of that merge, and otherwise asks nothing of it |
| CiBranches.RecordedCommitIsTheMerge | server/src/github/merge_workflow.rs:434-548 | the commit a start records is the merge it asked for: of the run's head into its base commit, or into the head GitHub reported for its base branch |
| CiBranches.SupersededTryTakesTheBranch | server/src/command/dry_run.rs:103-149 | stale handling of a superseded try leaves the new try in progress and asks for the deletion of its branch exactly when the old one, as read, failed or is overdue, and that is stored and announced |
| CiBranches.UndoneCancelLosesTheBranch | server/src/webhook/mod.rs:187-203 | the plainest such transaction: a cancel whose commit is refused leaves the tables as they were and the merge in progress without a branch |
| CiBranches.CancelAsks | server/src/github/merge_workflow.rs:591-654 | a cancel asks for the deletion of a branch exactly when it claimed a run that has a commit and the workflows could be listed, and only of that run's branch |
| CiBranches.RefreshAsks | server/src/github/merge_workflow.rs:351-432 | a refresh asks for the deletion of its run's branch, and of no other, exactly when it decides the run and gets past the comment |
| CiBranches.RefreshIsSafe | server/src/github/merge_workflow.rs:351-432 | a refresh of a try, or of a merge that is the only one of its group that may be in progress (which the scheduler's items are), asks nothing of the branch of any merge in progress afterwards |
| CiBranches.TryIsSafe | server/src/command/dry_run.rs:30-154 | a try command, its cancellation and its start included, asks nothing of any merge's branch |
| Commands.MergeQueuesExactly | server/src/command/merge.rs:30-138 | a merge adds a row exactly when allowed, open, idle and with known approvers; the row is queued with the pull request's head, target and merge branch, the given, else stored, else default priority, and the permitted standing approvers in order; no other row changes |
| Commands.RetryRepeatsExactly | server/src/command/retry.rs:35-90 | a retry adds a run exactly when allowed and every run of the pull request is completed; it repeats the newest one in base, head, branch, priority, kind and approvers; no other row changes |
| Commands.RetryOfNothing | server/src/command/retry.rs:35-50 | without a run of the pull request a retry changes no row |
| Commands.CancelSupersedes | server/src/command/cancel.rs:21-63 | a cancel that answers without error cancels exactly the uncompleted run of the pull request, if allowed |
| Commands.SupersedingTryLosesLabels | server/src/command/dry_run.rs:103-151 | a try that supersedes a try, nothing refused: the new try is in progress, its labels are off the pull request and the record is empty |
| Commands.TrySupersedes | server/src/command/dry_run.rs:30-154 | a try that answers without error, when allowed and no merge is active, cancels the active try and leaves exactly one new try, started or failed, of the requested head and base; otherwise no row changes |
| Progress.OverdueRunsComplete | server/src/auto_start.rs:68-91 | a run in progress that is overdue when a tick begins is completed when the tick's list is worked off, whatever GitHub answers and whatever is interleaved, if its item is handled and the statements succeed |
| Progress.InProgressIsListed | server/src/auto_start.rs:39-66 | every run in progress is in the list a tick fetches |
| Progress.QueueOrder | server/src/auto_start.rs:56-66 | without arrivals, cancels or edits, the runs that left a queue did so in order of priority, then age, and each precedes all that are still queued |
| Progress.WholeQueueInOrder | docs/commands.md:23 | when the queue is emptied, the order is exactly the runs that were queued |
| Progress.OthersQueuedOrDone | server/src/auto_start.rs:56-66 | while a run is in progress every other run of its group is queued or completed, so each starts after the previous one completed |
| Progress.TickLowersRank | server/src/auto_start.rs:26-37 | an attended tick lowers the work left in a group, unless there is none |
| Progress.QueueDrains | server/src/auto_start.rs:26-37 | as many such ticks as the rank leave no uncompleted run in the group |
| WorkflowProofs.FailWrites | server/src/github/merge_workflow.rs:187-228 | `fail` turns its row, whatever its state, into a failure before it calls GitHub, and touches no other run, check, push or merge commit |
| WorkflowProofs.SucceedWrites | server/src/github/merge_workflow.rs:230-347 | the run table after `success` is untouched, a success, or a success turned failure; a push only of a claimed merge run |
| WorkflowProofs.SuccessEndsIn | server/src/github/merge_workflow.rs:238-315 | a claimed merge run ends as a failure exactly when its push was made, refused and the failure stored; it is pushed exactly when approvers and comment went through |
| WorkflowProofs.RefreshWrites | server/src/github/merge_workflow.rs:351-432 | a refresh writes as `success` only on green checks and a failure only on a broken check or after the timeout |
| WorkflowProofs.StartWrites | server/src/github/merge_workflow.rs:434-589 | a start records the commit GitHub made and the present time only in a row still queued, or a failure; columns written out |
| WorkflowProofs.StartTakesOffQueue | server/src/github/merge_workflow.rs:434-589 | a start that answers without error leaves the run off the queue |
| WorkflowProofs.CancelWrites | server/src/github/merge_workflow.rs:591-654 | a cancel turns an uncompleted row, and only that, into a cancelled one |
| WorkflowProofs.SucceedKeepsInv | server/src/github/merge_workflow.rs:230-347 | with green rows of the run, `success` from any snapshot keeps the invariant, the justification of every push included |
| WorkflowProofs.StartKeepsInv | server/src/github/merge_workflow.rs:434-589 | a start into a free group keeps the invariant |
| WorkflowProofs.RefreshKeepsInv | server/src/github/merge_workflow.rs:351-432 | a refresh from any snapshot of a run keeps the invariant |
| WorkflowProofs.CancelKeepsInv | server/src/github/merge_workflow.rs:591-654 | a cancel keeps the invariant |
| WorkflowProofs.SucceedCompletes | server/src/github/merge_workflow.rs:238-315 | once its update is stored `success` leaves the run completed, and a claimed one a success or a failure |
| HandlerProofs.ActiveFacts | server/src/database/ci_run.rs:18-27 | the active run is the only uncompleted run of its pull request, and none means all are completed |
| HandlerProofs.LatestFacts | server/src/database/ci_run.rs:29-39 | if the latest run is completed all runs of the pull request are |
| HandlerProofs.TryIsGood | server/src/command/dry_run.rs:30-154 | a try keeps the invariant, pushes nothing to a target, starts no merge and leaves no try queued |
| HandlerProofs.MergeIsGood | server/src/command/merge.rs:30-138 | a merge keeps the invariant and pushes nothing |
| HandlerProofs.RetryIsGood | server/src/command/retry.rs:21-90 | a retry keeps the invariant although it looks only at the latest run |
| HandlerProofs.CancelCommandIsGood | server/src/command/cancel.rs:21-63 | a cancel keeps the invariant and pushes nothing |
| HandlerProofs.PrChangeIsGood | server/src/webhook/pull_request.rs:23-74 | the pull request webhook keeps the invariant and pushes nothing |
| HandlerProofs.CheckRunIsGood | server/src/webhook/check_event.rs:13-53 | the check webhook keeps the invariant and makes at most one push, justified by the check rows |
| Scheduler.GetPendingRuns | server/src/auto_start.rs:39-54 | the loop returns each chosen run once, one per group, in some order |
| Scheduler.ChoiceIsRight | server/src/auto_start.rs:39-66 | the run chosen for a group is a started one if there is one, else the first by priority and then age |
| Scheduler.RightChoiceUnique | server/src/auto_start.rs:56-66 | with at most one started run per group there is exactly one right choice |
| Scheduler.ChoiceIgnoresOrder | server/src/auto_start.rs:39-54 | then the choice does not depend on the order of the rows |
| Scheduler.OrderIndependentExactly | server/src/auto_start.rs:56-66 | the choice is independent of the row order if and only if no group has two started runs |
| RepoLockProofs.MutualExclusion | server/src/github/repo_lock.rs:49-63 | any number of tasks and repositories, any interleaving in which no last counted waiter is dropped: at most one live guard per repository |
| DroppedWaiters.DropIsSafeExactly | server/src/github/repo_lock.rs:49-63 | in any state of the invariant with an idle task: after a waiting future is dropped exclusion holds in every such continuation if and only if somebody else was counted on its lock |
| DroppedWaiters.LastWaiterBreaks | server/src/github/repo_lock.rs:49-63 | from any state of the invariant, a dropped last waiter and one idle task come to two live guards of one repository, without anybody else giving up |
| RepoLockProofs.StepKeepsInv | server/src/github/repo_lock.rs:20-96 | every step, the dropping of a waiter that is not the last one counted included, keeps the invariant that ties each counter to its waiters and holders, each permit to its owner and each cleanup to the map's current entry |
| RepoLockProofs.RemovalIsSafe | server/src/github/repo_lock.rs:20-23 | a task about to remove an entry owns the permit of that very entry's lock and nobody uses it: the drop order of the two fields is what makes the second load right |
| RepoLockProofs.UnusedEntryIsBeingRemoved | server/src/github/repo_lock.rs:49-63 | an entry nobody counts on has exactly one task about to remove it |
| RepoLockProofs.IdleMeansEmpty | server/src/github/repo_lock.rs:49-63 | when all tasks are idle the map is empty and all permits are home |
| RepoLockProofs.NoDeadlock | server/src/github/repo_lock.rs:87-96 | while some task is inside the lock, some such task can take its step |
| DroppedWaiters.DroppedWaiterBreaksExclusion | server/src/github/repo_lock.rs:49-63 | with one dropped waiting future a run of two tasks reaches two live guards of one repository |
| RepoLock.LockTable.constructor | server/src/github/repo_lock.rs:80-85 | a new lock table has no entries and its tasks are idle |
| RepoLock.LockTable.RegisterTask | server/src/github/repo_lock.rs:31-96 | entry-or-insert and count, done on the shared fields, is the registration step |
| RepoLock.LockTable.DropCounter | server/src/github/repo_lock.rs:49-63 | the counter's decrement, and what the returned value leads to, is the count-down step |
| RepoLock.LockTable.Cleanup | server/src/github/repo_lock.rs:49-63 | the section under the mutex is the re-check followed by the removal, or the re-check alone |
| Approvers.DedupReviews | server/src/command/merge.rs:76-97 | the first loop keeps the newest review of each user that says something, newest first |
| Approvers.PermitReviews | server/src/command/merge.rs:99-112 | the second loop collects the permitted approvals, and stops at the first question that fails |
| Approvers.ComputeApprovers | server/src/command/merge.rs:73-117 | the loops over the reviews, between their reversals, give the specified list or its failure |
| Approvers.ApproversExactly | server/src/command/merge.rs:73-117 | the list is strictly increasing and holds u exactly when u's last non-comment review approves, u is not the author, has no pending request and has the permission; it fails exactly when such a permission could not be asked |
| Approvers.StandsExactly | server/src/command/merge.rs:73-101 | reversing, keeping first-seen reviews and reversing again keeps exactly each user's last non-comment review |
| Labels.ReconcileSequence | server/src/github/label_state.rs:11-136 | after any number of accepted updates, each from the current row: recorded are the last state's labels, they are present, other labels once wanted or recorded are gone, all else is untouched |
| Labels.ReconcileOnce | server/src/github/label_state.rs:53-136 | one stored update, label by label, refusals included |
| Labels.DesiredPresentExactly | server/src/github/label_state.rs:53-136 | whatever the row and the answers, all desired labels are present afterwards if and only if each was there or was unknown to the row and accepted |
| Labels.DesiredSorted | server/src/github/label_state.rs:11-45 | the desired labels are the configured ones of the state, each once, in order |
| Sorting.TextLessExactly | server/src/github/label_state.rs:11-45 | the order of the labels: the first difference decides, a prefix comes first |
| Labels.DifferenceElements | server/src/github/label_state.rs:53-80 | the calls are for exactly the labels of one list that are not in the other |
| Labels.AddLabels | server/src/github/label_state.rs:82-136 | the loop adds exactly the labels that are not refused |
| Labels.RemoveLabels | server/src/github/label_state.rs:82-136 | the loop removes exactly the labels that are not refused |
| PrRows.DiffIsEmptyExactly | server/src/database/pr.rs:191-235 | the diff is empty if and only if the row shows the pull request on every tracked column, an unknown merge status tracking nothing |
| PrRows.ApplyingTheDiff | server/src/database/pr.rs:191-220 | the updated row shows the pull request, keeps every untracked column, and a second diff is empty |
| PrRows.MemoryAgreesWithStore | server/src/database/pr.rs:70-95 | the in-memory and stored updates agree if and only if something is updated or no time has passed |
| PrRows.PrCell.UpdatePr | server/src/database/pr.rs:70-95 | the assignments, field by field, give the in-memory update of the row |
| PrRows.UpsertShows | server/src/database/pr.rs:126-180 | an upsert shows the pull request and keeps the stored priority and labels |
| PrRows.ShownStatus | server/src/database/pr.rs:97-115 | the status columns of a row that shows a pull request, case by case |
| PrRows.NewRowFills | server/src/database/pr.rs:126-145 | the columns of a new row that are not compared: author, source branch, defaults, and not ready where GitHub knows no merge status |
| PrRows.UpsertFills | server/src/database/pr.rs:156-180 | which columns an upsert keeps and which it takes, the merge status even where GitHub knows none |
| PrRows.AssignedIdsSorted | server/src/database/pr.rs:117-122 | the assigned ids are the assignees, each once, increasing |
| BranchNames.TryBranchInjective | server/src/github/config.rs:85-87 | two pull requests have the same try branch only if they have the same number |
| BranchNames.MergeBranchInjective | server/src/github/config.rs:77-79 | two targets have the same merge branch only if they are the same |
| BranchNames.DecimalStandsFor | server/src/github/config.rs:85-87 | the number is printed as decimal digits that stand for it, without leading zeros |
| BranchNames.BranchShape | server/src/github/config.rs:77-87 | a branch is the prefix without trailing slashes, one slash, and the number or the target |
| BranchNames.DisjointExactly | server/src/github/config.rs:77-87 | no try branch is a merge branch if and only if the merge stem is not a prefix of the try stem |
| Checks.Judge | server/src/github/merge_workflow.rs:366-401 | green iff every required name has a success; broken iff a failed one is found, and by that one; else exactly the missing names |
| Checks.RequiredExactly | server/src/webhook/check_event.rs:33-38 | a check is required if and only if a configured name equals it up to the case of the letters A to Z |
| Checks.GreenIsBacked | server/src/github/merge_workflow.rs:366-401 | whatever the order of the rows, green means a success row of the run for each required name |
| Checks.GreenInEveryOrderExactly | server/src/github/merge_workflow.rs:366-401 | the verdict is green in every order of the rows if and only if each required name has a success row and no other kind |
| Checks.SharedNameIsDecidedByOrder | server/src/github/merge_workflow.rs:366-401 | two rows of one name, one of them a success: one order of the rows is judged green and another is not |
| Checks.BackedIsGreen | server/src/github/merge_workflow.rs:366-401 | with one row per name, success rows give green in every order |
| Server.Brawl.FailRun | server/src/github/merge_workflow.rs:187-228 | the statements of `fail` on the fields give its transition, error paths included |
| Server.Brawl.SucceedRun | server/src/github/merge_workflow.rs:230-347 | the statements of `success` give its transition |
| Server.Brawl.RefreshRun | server/src/github/merge_workflow.rs:351-432 | the loop over required checks, with its early return and its flags, gives the transition decided by the verdict |
| Server.Brawl.StartRun | server/src/github/merge_workflow.rs:434-589 | the statements of `start` give its transition |
| Server.Brawl.CancelTheRun | server/src/github/merge_workflow.rs:591-654 | the statements of `cancel`, its loop over workflows included, give its transition |
| Server.Brawl.AnnounceRun | server/src/github/merge_workflow.rs:656-681 | the statements of `queued` give its transition |
| Server.Brawl.WriteRun | server/src/database/ci_run.rs:72-88 | a filtered update writes the one admitted row and reports whether it did |
| Server.Brawl.WriteLabels | server/src/github/label_state.rs:82-136 | the two loops and the row update give the label transition |
| Server.Brawl.StopWorkflows | server/src/github/merge_workflow.rs:591-654 | the loop stops exactly the unfinished workflows of the commit, in order |
| Server.Brawl.TryPr | server/src/command/dry_run.rs:30-154 | the command's statements, shas rewritten in place, give its transition |
| Server.Brawl.MergePr | server/src/command/merge.rs:30-138 | the command's statements give its transition |
| Server.Brawl.RetryPr | server/src/command/retry.rs:21-90 | the command's statements give its transition |
| Server.Brawl.CancelPr | server/src/command/cancel.rs:21-63 | the command's statements give its transition |
| Server.Brawl.PrReported | server/src/webhook/pull_request.rs:23-74 | the webhook's statements, the mutable copy included, give its transition |
| Server.Brawl.CheckReported | server/src/webhook/check_event.rs:13-53 | the webhook's statements give its transition |
| Server.Brawl.HandleOne | server/src/auto_start.rs:93-118 | the statements of `handle_run` give its transition |
| Server.Brawl.ProcessPendingRuns | server/src/auto_start.rs:68-91 | the loop handles every item that has a client, errors of one not stopping the next |
| Server.Brawl.Serve | server/src/webhook/mod.rs:170-246 | handler and transaction together are one step of the interleaved system, restored tables on error included |
| Server.TickIsARun | server/src/auto_start.rs:68-91 | the loop over the list is a history of the interleaved system in which only the scheduler moves |
| Server.CarryOne | server/src/github/merge_workflow.rs:378-401 | one turn of the loop, run from the front, leaves the verdict of the whole list unchanged |

## Left out

- HTTP, SQL generation, caches, telemetry, the bootstrap of services: plumbing.
- Wording of comments, links and commit messages, durations: presentation.
- Webhook parsing, signatures, installations and repository bookkeeping: dispatch with little state.
- Permission lookup and team membership: answers given to the model.
- Command text parsing and the encodings of bases, permissions and enums: easy members.
- Integer widths: ids, numbers and priorities are unbounded; the casts between `i32`, `i64` and `u64` are not modelled.
- `created_at` and `updated_at` of runs and `created_at` of pull requests: nothing reads them.
- Time is read once per step, where the code reads the clock at each use.
- The lock guard is dropped when a webhook's handler returns, just before the transaction commits; that interval and the isolation level of Postgres are not modelled: transactions are serial.
- A failing statement of a handler's own (a fetch, upsert or insert, not part of the run's workflow) inside a transaction: the transaction rolls back, as for the errors that are modelled.
- A failing query for the pending runs, which ends the auto-start service: no step of the system.
- Several servers on one database, and rows written by anybody else.
- Dropping the last counted waiter in the lock's guarantees: with it they fail, as `DroppedWaiters.DropIsSafeExactly` shows.
- The lock's memory orderings and the fairness of its semaphore; taking the mutex is a step of the state machine, not a method of the class.
- What CI branches and target branches actually hold: the log says what was asked for and, for target branches, whether it was accepted.
- Queries without an order that may match several rows (`by_run_commit_sha`, `active`) answer the highest id; the invariant makes the match unique.
- RepoLock.LockTable.TakePermit: granting and giving back the permit, like `Server.Brawl.UpsertThePr` and `Server.Brawl.InsertTheRun`, are single assignments and have no row.
- Progress.QueueDrains: says how many attended ticks are enough when a run found in progress is overdue; how long checks take is not bounded by the server.
- CiBranches.MergeBranchHoldsItsCommit: states it for merges; for tries it is false, as `CiBranches.SupersededTryTakesTheBranch` shows.
