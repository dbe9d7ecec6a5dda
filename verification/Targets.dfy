/**
 Which branch a merge is pushed to: the target the stored pull request row names at that
 moment, which need not be the branch its commit was merged onto.
 */
module Targets {
  import opened Basics
  import opened CiRuns
  import opened Checks
  import opened PrRows
  import opened Labels
  import opened Store
  import opened Workflow
  import opened Handlers
  import opened Scheduler
  import opened System
  import opened Invariants
  import opened WorkflowProofs
  import opened HandlerProofs
  import opened SystemProofs
  import opened Commands
  import opened Safety
  import opened Sorting
  import Approvers

  function TargetOf(prs: map<PrKey, PrRow>, key: PrKey): Option<string> {
    if key in prs then Some(prs[key].targetBranch) else None
  }

  /** No stored target differs. */
  ghost predicate SameTargets(w: World, w2: World) {
    forall k :: TargetOf(w2.db.prs, k) == TargetOf(w.db.prs, k)
  }

  // ---- The run's workflow writes no target ----

  lemma LabelsTargets(w: World, repo: int, pr: PrRow, status: Status, dry: bool, a: LabelAnswers)
    ensures SameTargets(w, UpdateLabels(w, repo, pr, status, dry, a).w)
  {
    hide LabelsSettled, LabelsAfter;
  }

  lemma FailTargets(w: World, repo: int, run: Run, pr: PrRow, note: Note, a: FailAnswers)
    ensures SameTargets(w, Fail(w, repo, run, pr, note, a).w)
  {
    hide UpdateLabels, Update;
    var w1 := SetRuns(w, Update(w.db.runs, run.id, Query, Finish(Failure, w.now)));
    var w3 := Send(Send(w1, Comment(repo, pr.number, note)), DeleteBranch(repo, run.ciBranch));
    LabelsTargets(w3, repo, pr, Failure, run.dry, a.labels);
  }

  lemma SucceedTargets(w: World, repo: int, run: Run, pr: PrRow, a: SuccessAnswers)
    ensures SameTargets(w, Succeed(w, repo, run, pr, a).w)
  {
    hide UpdateLabels, Fail, Update;
    var w1 := SetRuns(w, Update(w.db.runs, run.id, NotDone, Finish(Success, w.now)));
    if run.sha.Some? {
      var w2 := Send(w1, Comment(repo, run.pr, if run.dry then TestsPassed else TestsPassedMerge));
      var w3 := if run.dry then w2 else LogPush(w2, PushOf(w, repo, run, pr, a));
      FailTargets(w3, repo, run, pr, PushRefused, a.fail);
      LabelsTargets(Send(w3, DeleteBranch(repo, run.ciBranch)), repo, pr, Success, run.dry, a.labels);
    }
  }

  lemma RefreshTargets(w: World, repo: int, run: Run, pr: PrRow, a: RefreshAnswers)
    ensures SameTargets(w, Refresh(w, repo, run, pr, a).w)
  {
    hide Fail, Succeed, Judge, ByName;
    if run.completedAt.None? && run.startedAt.Some? && a.rows.Some? {
      var v := Judge(ConfigOf(w, repo).required, ByName(a.rows.value));
      SucceedTargets(w, repo, run, pr, a.success);
      FailTargets(w, repo, run, pr, if v.Broken? then TestsFailed(v.check.name) else TestsTimedOut, a.fail);
    }
  }

  lemma StartOnTargets(w: World, repo: int, run: Run, pr: PrRow, base: string, a: StartAnswers)
    ensures SameTargets(w, StartOn(w, repo, run, pr, base, a).w)
  {
    hide UpdateLabels, Fail, Update;
    var w1 := Send(w, MakeMerge(repo, base, run.head));
    FailTargets(w1, repo, run, pr, MergeConflict, a.fail);
    FailTargets(w1, repo, run, pr, MergeFailed, a.fail);
    if a.merge.MergedAs? {
      var w3 := SetRuns(Mint(w1, a.merge.sha, repo), Update(w.db.runs, run.id, StillQueued, Begin(a.merge.sha, w.now)));
      var w4 := Send(w3, PushCi(repo, run.ciBranch, a.merge.sha));
      FailTargets(w4, repo, run, pr, CiPushFailed, a.fail);
      LabelsTargets(Send(w4, Comment(repo, run.pr, TestsStarted)), repo, pr, InProgress, run.dry, a.labels);
    }
  }

  lemma StartTargets(w: World, repo: int, run: Run, pr: PrRow, a: StartAnswers)
    ensures SameTargets(w, Start(w, repo, run, pr, a).w)
  {
    hide StartOn, Fail;
    FailTargets(w, repo, run, pr, BaseMissing, a.fail);
    if run.base.Commit? {
      StartOnTargets(w, repo, run, pr, run.base.sha, a);
    } else if a.base.BranchAt? {
      StartOnTargets(w, repo, run, pr, a.base.sha, a);
    }
  }

  lemma CancelTargets(w: World, repo: int, run: Run, pr: PrRow, a: CancelAnswers)
    ensures SameTargets(w, CancelRun(w, repo, run, pr, a).w)
  {
    hide UpdateLabels, StopAll, Update;
    var w1 := SetRuns(w, Update(w.db.runs, run.id, NotDone, Finish(Cancelled, w.now)));
    LabelsTargets(w1, repo, pr, Cancelled, run.dry, a.labels);
    if run.sha.Some? && a.workflows.Some? {
      StopAllIsQuiet(w1, repo, run.sha.value, a.workflows.value);
      var w2 := Send(StopAll(w1, repo, run.sha.value, a.workflows.value), DeleteBranch(repo, run.ciBranch));
      LabelsTargets(w2, repo, pr, Cancelled, run.dry, a.labels);
    }
  }

  lemma AnnounceTargets(w: World, repo: int, run: Run, pr: PrRow, a: QueuedAnswers)
    ensures SameTargets(w, AnnounceQueued(w, repo, run, pr, a).w)
  {
    hide UpdateLabels;
    LabelsTargets(Send(w, Comment(repo, run.pr, CommitApproved)), repo, pr, Queued, run.dry, a.labels);
  }

  // ---- What the handlers write ----

  /** The stored targets with that of one pull request set, if it is. */
  ghost predicate TargetsSet(w: World, w2: World, repo: int, pr: PullRequest, upserts: bool) {
    forall k :: TargetOf(w2.db.prs, k) ==
                if upserts && k == (repo, pr.number) then Some(pr.baseRef) else TargetOf(w.db.prs, k)
  }

  lemma UpsertTargets(w: World, row: PrRow, repo: int, pr: PullRequest)
    requires row.repo == repo && row.number == pr.number && row.targetBranch == pr.baseRef
    ensures TargetsSet(w, SetPrs(w, UpsertPr(w.db.prs, row)), repo, pr, true)
  {
  }

  lemma TryTargets(w: World, repo: int, user: int, pr: PullRequest, args: TryArgs, a: TryAnswers)
    ensures TargetsSet(w, Try(w, repo, user, pr, args, a).w, repo, pr, TryResolved(w, repo, pr, args, a))
  {
    hide TryAt;
    if TryResolved(w, repo, pr, args, a) {
      var base := if args.base.Some? then Commit(a.base.sha) else Branch(pr.baseRef);
      TryAtTargets(w, repo, user, pr, base, if args.head.Some? then a.head.sha else pr.headSha, a);
    }
  }

  lemma TryAtTargets(w: World, repo: int, user: int, pr: PullRequest, base: Base, head: string, a: TryAnswers)
    ensures TargetsSet(w, TryAt(w, repo, user, pr, base, head, a).w, repo, pr, true)
  {
    hide UpsertPr, UpsertRow, CancelRun, Start, NewRow, TryBranchOf;
    var row := NewRow(pr, user, repo, w.now);
    var dbPr := UpsertRow(w.db.prs, row);
    var w1 := SetPrs(w, UpsertPr(w.db.prs, row));
    NewRowTargets(w, pr, user, repo, None);
    var active := Active(w.db.runs, w.next, repo, pr.number);
    if active.None? || active.value.dry {
      var c := if active.Some? then CancelRun(w1, repo, active.value, dbPr, a.cancel).w else w1;
      if active.Some? {
        CancelTargets(w1, repo, active.value, dbPr, a.cancel);
      }
      var run := NewRun(c, repo, pr.number, base, head, TryBranchOf(c, repo, pr.number), DEFAULT_PRIORITY, user, true,
                        []);
      StartTargets(InsertRun(c, run), repo, run, dbPr, a.start);
    }
  }

  lemma NewRowTargets(w: World, pr: PullRequest, user: int, repo: int, priority: Option<int>)
    ensures var row := NewRow(pr, user, repo, w.now).(defaultPriority := priority);
            TargetsSet(w, SetPrs(w, UpsertPr(w.db.prs, row)), repo, pr, true)
    ensures NewRow(pr, user, repo, w.now).defaultPriority == None
  {
    hide UpsertPr;
    UpsertTargets(w, NewRow(pr, user, repo, w.now).(defaultPriority := priority), repo, pr);
  }

  /** Whether a merge gets as far as queueing. */
  ghost predicate MergeQueues(w: World, repo: int, user: int, pr: PullRequest, a: MergeAnswers) {
    && ConfigOf(w, repo).enabled && pr.mergedAt.None? && a.can == Some(true) && AllDone(w.db.runs, repo, pr.number)
    && ApproversKnown(a, AuthorOf(pr, user), pr.requestedReviewers)
  }

  lemma MergeTargets(w: World, repo: int, user: int, pr: PullRequest, priority: Option<int>, a: MergeAnswers)
    requires Inv(w)
    ensures TargetsSet(w, Merge(w, repo, user, pr, priority, a).w, repo, pr, MergeQueues(w, repo, user, pr, a))
  {
    hide Inv, UpsertPr, UpsertRow, AnnounceQueued, Approvers.Compute, MergeBranchOf, ApproversKnown;
    ActiveFacts(w, repo, pr.number);
    ApproversOfMerge(a, AuthorOf(pr, user), pr.requestedReviewers);
    NewRowTargets(w, pr, user, repo, priority);
    var row := NewRow(pr, user, repo, w.now).(defaultPriority := priority);
    if MergeQueues(w, repo, user, pr, a) {
      hide NewRow;
      var approvers := Approvers.Compute(a.reviews.value, row.authorId, pr.requestedReviewers,
                                         PermissionIn(a.reviewers));
      var dbPr := UpsertRow(w.db.prs, row);
      var w1 := SetPrs(w, UpsertPr(w.db.prs, row));
      var given := if priority.Some? then priority else dbPr.defaultPriority;
      var run := NewRun(w1, repo, pr.number, Branch(pr.baseRef), pr.headSha, MergeBranchOf(w1, repo, pr.baseRef),
                        if given.Some? then given.value else DEFAULT_PRIORITY, user, false, approvers.value);
      AnnounceTargets(InsertRun(w1, run), repo, run, dbPr, a.queued);
    }
  }

  lemma RetryTargets(w: World, repo: int, user: int, pr: PullRequest, a: RetryAnswers)
    ensures TargetsSet(w, Retry(w, repo, user, pr, a).w, repo, pr, ConfigOf(w, repo).enabled)
  {
    hide UpsertPr, UpsertRow, AnnounceQueued, Start, NewRow;
    NewRowTargets(w, pr, user, repo, None);
    var dbPr := UpsertRow(w.db.prs, NewRow(pr, user, repo, w.now));
    var w1 := SetPrs(w, UpsertPr(w.db.prs, NewRow(pr, user, repo, w.now)));
    var latest := Latest(w.db.runs, w.next, repo, pr.number);
    if latest.Some? {
      var last := latest.value;
      var run := NewRun(w1, repo, pr.number, last.base, last.head, last.ciBranch, last.priority, user, last.dry,
                        last.approvedBy);
      AnnounceTargets(InsertRun(w1, run), repo, run, dbPr, a.queued);
      StartTargets(InsertRun(w1, run), repo, run, dbPr, a.start);
    }
  }

  lemma CancelCommandTargets(w: World, repo: int, user: int, pr: PullRequest, a: CancelCommandAnswers)
    ensures TargetsSet(w, Cancel(w, repo, user, pr, a).w, repo, pr, true)
  {
    hide UpsertPr, UpsertRow, CancelRun, NewRow;
    NewRowTargets(w, pr, user, repo, None);
    var dbPr := UpsertRow(w.db.prs, NewRow(pr, user, repo, w.now));
    var w1 := SetPrs(w, UpsertPr(w.db.prs, NewRow(pr, user, repo, w.now)));
    var active := Active(w.db.runs, w.next, repo, pr.number);
    if active.Some? {
      CancelTargets(w1, repo, active.value, dbPr, a.cancel);
    }
  }

  lemma PrChangeTargets(w: World, repo: int, user: int, pr: PullRequest, a: PrAnswers)
    ensures TargetsSet(w, PrChange(w, repo, user, pr, a).w, repo, pr, true)
  {
    hide CancelRun, UpdateFrom, InMemory, NeedsUpdate, Stored;
    var key := (repo, pr.number);
    if key in w.db.prs {
      var update := UpdateFrom(w.db.prs[key], pr, w.now);
      DiffIsEmptyExactly(w.db.prs[key], pr, w.now);
      ApplyingTheDiff(w.db.prs[key], pr, w.now, w.now);
      var w1 := SetPrs(w, w.db.prs[key := Stored(update, w.db.prs[key])]);
      var active := Active(w.db.runs, w.next, repo, pr.number);
      if active.Some? {
        CancelTargets(w1, repo, active.value, InMemory(update, w.db.prs[key]), a.cancel);
      }
    }
  }

  lemma CheckTargets(w: World, repo: int, c: CheckReport, a: RefreshAnswers)
    ensures SameTargets(w, CheckRun(w, repo, c, a).w)
  {
    hide Refresh, BySha;
    if CheckRefreshes(w, repo, c) {
      var run := BySha(w.db.runs, w.next, c.headSha).value;
      RefreshTargets(StoreCheck(w, repo, c, run), repo, run, w.db.prs[(run.repo, run.pr)], a);
    }
  }

  lemma HandleTargets(w: World, run: Run, a: HandleAnswers)
    ensures SameTargets(w, HandleRun(w, run, a).w)
  {
    hide Start, Refresh;
    if (run.repo, run.pr) in w.db.prs {
      StartTargets(w, run.repo, run, w.db.prs[(run.repo, run.pr)], a.start);
      RefreshTargets(w, run.repo, run, w.db.prs[(run.repo, run.pr)], a.refresh);
    }
  }

  // ---- Where a push goes ----

  function KeyOf(r: Run): PrKey {
    (r.repo, r.pr)
  }

  predicate OpenMerge(w: World, i: nat) {
    i in w.db.runs && !w.db.runs[i].dry && w.db.runs[i].completedAt.None?
  }

  /** If a run is an uncompleted merge, its base is the branch the stored row of its pull request targets. */
  predicate Aims(w: World, i: nat) {
    OpenMerge(w, i) ==>
      var target := TargetOf(w.db.prs, KeyOf(w.db.runs[i]));
      target.Some? && w.db.runs[i].base == Branch(target.value)
  }

  lemma HandlePushesToTarget(w: World, run: Run, a: HandleAnswers)
    ensures var w2 := HandleRun(w, run, a).w;
            || w2.hub.pushes == w.hub.pushes
            || (KeyOf(run) in w.db.prs && !run.dry && w2.hub.pushes != []
                && var p := w2.hub.pushes[|w2.hub.pushes| - 1];
                   p.run == run.id && p.branch == w.db.prs[KeyOf(run)].targetBranch)
  {
    hide Start, Refresh, RefreshPushes;
    if KeyOf(run) in w.db.prs {
      var pr := w.db.prs[KeyOf(run)];
      StartWrites(w, run.repo, run, pr, a.start);
      RefreshPushesExactly(w, run.repo, run, pr, a.refresh);
      assert RefreshPushes(w, run.repo, run, a.refresh) ==> !run.dry
      by { PushingRunIsMerge(w, run.repo, run, a.refresh); }
    }
  }

  lemma PushingRunIsMerge(w: World, repo: int, run: Run, a: RefreshAnswers)
    ensures RefreshPushes(w, repo, run, a) ==> !run.dry
  {
  }

  lemma CheckPushesToTarget(w: World, repo: int, c: CheckReport, a: RefreshAnswers)
    requires Inv(w)
    ensures var w2 := CheckRun(w, repo, c, a).w;
            || w2.hub.pushes == w.hub.pushes
            || (w2.hub.pushes != []
                && var p := w2.hub.pushes[|w2.hub.pushes| - 1];
                   p.run in w.db.runs && KeyOf(w.db.runs[p.run]) in w.db.prs
                   && p.branch == w.db.prs[KeyOf(w.db.runs[p.run])].targetBranch)
  {
    hide Inv, Refresh, RefreshPushes, BySha;
    ByShaFacts(w, c.headSha);
    if CheckRefreshes(w, repo, c) {
      var run := BySha(w.db.runs, w.next, c.headSha).value;
      RefreshPushesExactly(StoreCheck(w, repo, c, run), repo, run, w.db.prs[KeyOf(run)], a);
    }
  }

  /** A push goes to the branch its run is based on exactly when the stored target is that branch at that moment. */
  lemma PushGoesToBaseExactly(s: Sys, e: Event)
    requires SysInv(s) && Enabled(s, e)
    ensures var pushes := Apply(s, e).w.hub.pushes;
            pushes != s.w.hub.pushes ==>
              pushes != [] && var p := pushes[|pushes| - 1];
              && pushes == s.w.hub.pushes + [p] && OpenMerge(s.w, p.run)
              && TargetOf(s.w.db.prs, KeyOf(s.w.db.runs[p.run])) == Some(p.branch)
              && (s.w.db.runs[p.run].base == Branch(p.branch) <==> Aims(s.w, p.run))
  {
    hide Inv, Result, HandleRun, CheckRun;
    StepPushes(s, e);
    if IsWebhook(e) {
      HandlerIsGood(s, e);
      if e.CheckEvent? {
        CheckResult(Heard(s.w, e), e);
        CheckPushesToTarget(Heard(s.w, e), e.repo, e.check, e.checked);
      }
    } else if e.Handle? {
      assert WorkItem(s.work[0], s.w.db.runs, s.horizon);
      HandlePushesToTarget(s.w, s.work[0], e.handled);
    }
  }

  // ---- Which steps take a merge off its target ----

  /** A command reports the pull request of a merge that is going on with another target. */
  predicate Retargets(w: World, i: nat, repo: int, pr: PullRequest) {
    OpenMerge(w, i) && OfPr(w.db.runs[i], repo, pr.number) && w.db.runs[i].base != Branch(pr.baseRef)
  }

  /** A retry makes run `i`, of a pull request whose target is no longer what its newest run is based on. */
  ghost predicate RetriesOldBase(w: World, i: nat, repo: int, pr: PullRequest, a: RetryAnswers) {
    && i == w.next && a.can == Some(true) && AllDone(w.db.runs, repo, pr.number)
    && exists last :: Newest(w.db.runs, repo, pr.number, last) && !w.db.runs[last].dry
                      && w.db.runs[last].base != Branch(pr.baseRef)
  }

  /** The commands that store a new target and leave, or make, a merge with another base. */
  ghost predicate Misaims(w: World, e: Event, i: nat) {
    match e
    case TryCommand(repo, _, pr, args, a, _) => TryResolved(w, repo, pr, args, a) && Retargets(w, i, repo, pr)
    case RetryCommand(repo, _, pr, a, _) =>
      ConfigOf(w, repo).enabled && (Retargets(w, i, repo, pr) || RetriesOldBase(w, i, repo, pr, a))
    case CancelCommand(repo, _, pr, a, _) => a.can != Some(true) && Retargets(w, i, repo, pr)
    case _ => false
  }

  lemma TryAims(w: World, repo: int, user: int, pr: PullRequest, args: TryArgs, a: TryAnswers, i: nat)
    requires Inv(w) && Aims(w, i) && Try(w, repo, user, pr, args, a).res.Ok?
    ensures Aims(Try(w, repo, user, pr, args, a).w, i)
            <==> !(TryResolved(w, repo, pr, args, a) && Retargets(w, i, repo, pr))
  {
    hide Inv, Try, TryResolved;
    TrySupersedes(w, repo, user, pr, args, a);
    TryTargets(w, repo, user, pr, args, a);
    KnownIds(w);
  }

  lemma KnownIds(w: World)
    requires Inv(w)
    ensures forall i :: i in w.db.runs ==> w.db.runs[i].id == i < w.next
  {
  }

  lemma MergeAims(w: World, repo: int, user: int, pr: PullRequest, priority: Option<int>, a: MergeAnswers, i: nat)
    requires Inv(w) && Aims(w, i)
    ensures Aims(Merge(w, repo, user, pr, priority, a).w, i)
  {
    hide Inv, Merge, ApproversKnown, MergeBranchOf, MergePriority, Approvers.Stands, Increasing;
    MergeQueuesExactly(w, repo, user, pr, priority, a);
    MergeTargets(w, repo, user, pr, priority, a);
  }

  lemma LatestIsNewest(w: World, repo: int, pr: nat)
    requires Inv(w)
    ensures var latest := Latest(w.db.runs, w.next, repo, pr);
            if latest.Some? then Newest(w.db.runs, repo, pr, latest.value.id)
            else forall i :: i in w.db.runs ==> !OfPr(w.db.runs[i], repo, pr)
  {
    KnownIds(w);
  }

  lemma RetryAims(w: World, repo: int, user: int, pr: PullRequest, a: RetryAnswers, i: nat)
    requires Inv(w) && Aims(w, i)
    ensures Aims(Retry(w, repo, user, pr, a).w, i)
            <==> !(ConfigOf(w, repo).enabled && (Retargets(w, i, repo, pr) || RetriesOldBase(w, i, repo, pr, a)))
  {
    hide Inv, Retry, Latest;
    KnownIds(w);
    RetryTargets(w, repo, user, pr, a);
    LatestIsNewest(w, repo, pr.number);
    var latest := Latest(w.db.runs, w.next, repo, pr.number);
    if latest.Some? {
      RetryRepeatsExactly(w, repo, user, pr, a, latest.value.id);
    } else {
      RetryOfNothing(w, repo, user, pr, a);
    }
  }

  lemma CancelAims(w: World, repo: int, user: int, pr: PullRequest, a: CancelCommandAnswers, i: nat)
    requires Inv(w) && Aims(w, i) && Cancel(w, repo, user, pr, a).res.Ok?
    ensures Aims(Cancel(w, repo, user, pr, a).w, i) <==> !(a.can != Some(true) && Retargets(w, i, repo, pr))
  {
    hide Inv, Cancel;
    CancelSupersedes(w, repo, user, pr, a);
    CancelCommandTargets(w, repo, user, pr, a);
  }

  /** An uncompleted merge was one before, if it was there. */
  lemma OpenBefore(w: World, w2: World, i: nat)
    requires Gentle(w, w2) && OpenMerge(w2, i) && i in w.db.runs
    ensures OpenMerge(w, i) && SameRun(w.db.runs[i], w2.db.runs[i])
  {
    assert GentleRow(w.db.runs[i], w2.db.runs[i]);
  }

  lemma PrChangeAims(w: World, repo: int, user: int, pr: PullRequest, a: PrAnswers, i: nat)
    requires Inv(w) && RunsHavePr(w) && Aims(w, i) && PrChange(w, repo, user, pr, a).res.Ok?
    ensures Aims(PrChange(w, repo, user, pr, a).w, i)
  {
    hide Inv, PrChange, Shows, Gentle;
    var w2 := PrChange(w, repo, user, pr, a).w;
    ChangedPrLosesItsMerge(w, repo, user, pr, a);
    PrChangeTargets(w, repo, user, pr, a);
    PrChangeIsGood(w, repo, user, pr, a);
    PrChangeAddsNoRun(w, repo, user, pr, a);
    if OpenMerge(w2, i) {
      OpenBefore(w, w2, i);
    }
  }

  lemma PrChangeAddsNoRun(w: World, repo: int, user: int, pr: PullRequest, a: PrAnswers)
    ensures PrChange(w, repo, user, pr, a).w.db.runs.Keys == w.db.runs.Keys
  {
    hide NewRow, UpdateFrom, InMemory, Stored, NeedsUpdate, CancelRun;
    var key := (repo, pr.number);
    if key in w.db.prs {
      var update := UpdateFrom(w.db.prs[key], pr, w.now);
      var w1 := SetPrs(w, w.db.prs[key := Stored(update, w.db.prs[key])]);
      var active := Active(w.db.runs, w.next, repo, pr.number);
      if active.Some? {
        CancelWrites(w1, repo, active.value, InMemory(update, w.db.prs[key]), a.cancel);
      }
    }
  }

  /** Steps that write no target and add no run. */
  lemma QuietAims(w: World, w2: World, i: nat)
    requires SameTargets(w, w2) && w2.db.runs.Keys == w.db.runs.Keys && Aims(w, i)
    requires forall j :: j in w.db.runs ==> Evolves(w.db.runs[j], w2.db.runs[j])
    ensures Aims(w2, i)
  {
  }

  lemma CheckAims(s: Sys, e: Event, i: nat)
    requires Inv(s.w) && e.CheckEvent? && Enabled(s, e) && Aims(s.w, i)
    ensures Aims(Result(Heard(s.w, e), e).w, i)
  {
    hide Inv, CheckRun, Gentle;
    var w := Heard(s.w, e);
    HandlerIsGood(s, e);
    CheckTargets(w, e.repo, e.check, e.checked);
    HeardInv(s.w, e.repo, e.check);
    CheckRunIsGood(w, e.repo, e.check, e.checked);
    var w2 := CheckRun(w, e.repo, e.check, e.checked).w;
    if OpenMerge(w2, i) {
      OpenBefore(w, w2, i);
    }
  }

  lemma HandlerAimsExactly(s: Sys, e: Event, i: nat)
    requires Inv(s.w) && RunsHavePr(s.w) && IsWebhook(e) && Enabled(s, e) && Aims(s.w, i)
    ensures var o := Result(Heard(s.w, e), e);
            o.res.Ok? ==> (Aims(o.w, i) <==> !Misaims(Heard(s.w, e), e, i))
  {
    hide Inv, Aims, Try, Merge, Retry, Cancel, PrChange, CheckRun, TryResolved, Retargets, RetriesOldBase;
    if Result(Heard(s.w, e), e).res.Err? {
      return;
    }
    match e
    case TryCommand(repo, user, pr, args, a, _) => TryAims(s.w, repo, user, pr, args, a, i);
    case MergeCommand(repo, user, pr, priority, a, _) => MergeAims(s.w, repo, user, pr, priority, a, i);
    case RetryCommand(repo, user, pr, a, _) => RetryAims(s.w, repo, user, pr, a, i);
    case CancelCommand(repo, user, pr, a, _) => CancelAims(s.w, repo, user, pr, a, i);
    case PrEvent(repo, user, pr, a, _) => PrChangeAims(s.w, repo, user, pr, a, i);
    case CheckEvent(_, _, _, _) => CheckAims(s, e, i);
  }

  /** The step's transaction is committed and misaims the merge. */
  ghost predicate MisaimsFor(s: Sys, e: Event, i: nat) {
    IsWebhook(e) && Result(Heard(s.w, e), e).res.Ok? && e.commit && Misaims(Heard(s.w, e), e, i)
  }

  lemma TransactionAims(w: World, o: Out, commit: bool, i: nat)
    requires Aims(w, i)
    ensures Aims(Transaction(w, o, commit), i) <==> (o.res.Ok? && commit ==> Aims(o.w, i))
  {
  }

  /** A merge stays aimed at its base over a step exactly when the step is not one of those. */
  lemma StepAimsExactly(s: Sys, e: Event, i: nat)
    requires SysInv(s) && Enabled(s, e) && Aims(s.w, i)
    ensures Aims(Apply(s, e).w, i) <==> !MisaimsFor(s, e, i)
  {
    hide Inv, Result, HandleRun, Aims, Misaims, Transaction;
    if IsWebhook(e) {
      var w := Heard(s.w, e);
      var o := Result(w, e);
      assert Aims(w, i) by { HeardAims(s.w, e, i); }
      TransactionAims(w, o, e.commit, i);
      if o.res.Ok? {
        HandlerAimsExactly(s, e, i);
      }
    } else if e.Handle? {
      HandleTargets(s.w, s.work[0], e.handled);
      AllRowsCoherent(s.w);
      assert WorkItem(s.work[0], s.w.db.runs, s.horizon);
      HandleOnlyWrites(s.w, s.work[0], e.handled);
      QuietAims(s.w, Apply(s, e).w, i);
    } else {
      ClockAims(s, e, i);
    }
  }

  lemma HeardAims(w: World, e: Event, i: nat)
    ensures Aims(Heard(w, e), i) <==> Aims(w, i)
  {
  }

  lemma ClockAims(s: Sys, e: Event, i: nat)
    requires Enabled(s, e) && (e.Clock? || e.Skip? || e.Fetch?)
    ensures Aims(Apply(s, e).w, i) <==> Aims(s.w, i)
  {
  }

  // ---- Over whole runs ----

  ghost predicate NeverMisaimed(s: Sys, es: seq<Event>, i: nat)
    requires ValidTrace(s, es)
    decreases |es|
  {
    es == [] || (!MisaimsFor(s, es[0], i) && NeverMisaimed(Apply(s, es[0]), es[1..], i))
  }

  ghost predicate AlwaysAims(s: Sys, es: seq<Event>, i: nat)
    requires ValidTrace(s, es)
    decreases |es|
  {
    Aims(s.w, i) && (es == [] || AlwaysAims(Apply(s, es[0]), es[1..], i))
  }

  /** Every push of the run so far went to the branch it is based on. */
  ghost predicate PushedToBase(w: World, i: nat) {
    forall k :: 0 <= k < |w.hub.pushes| && w.hub.pushes[k].run == i ==>
                  i in w.db.runs && w.db.runs[i].base == Branch(w.hub.pushes[k].branch)
  }

  lemma {:induction false} AimsOverRuns(s: Sys, es: seq<Event>, i: nat)
    requires SysInv(s) && ValidTrace(s, es) && Aims(s.w, i) && PushedToBase(s.w, i)
    ensures AlwaysAims(s, es, i) <==> NeverMisaimed(s, es, i)
    ensures NeverMisaimed(s, es, i) ==> PushedToBase(RunTrace(s, es).w, i)
    decreases |es|
  {
    hide SysInv, Aims, PushedToBase, Apply, MisaimsFor;
    if es != [] {
      var s1 := Apply(s, es[0]);
      StepKeepsSysInv(s, es[0]);
      StepAimsExactly(s, es[0], i);
      if MisaimsFor(s, es[0], i) {
        LostFromThere(s1, es[1..], i);
      } else {
        StepPushesToBase(s, es[0], i);
        AimsOverRuns(s1, es[1..], i);
      }
    }
  }

  lemma LostFromThere(s: Sys, es: seq<Event>, i: nat)
    requires ValidTrace(s, es) && !Aims(s.w, i)
    ensures !AlwaysAims(s, es, i)
  {
  }

  lemma StepPushesToBase(s: Sys, e: Event, i: nat)
    requires SysInv(s) && Enabled(s, e) && Aims(s.w, i) && PushedToBase(s.w, i)
    ensures PushedToBase(Apply(s, e).w, i)
  {
    hide SysInv, Aims, Apply, Evolves;
    PushGoesToBaseExactly(s, e);
    StepEvolves(s, e);
    if i in s.w.db.runs {
      StepKeepsBase(s, e, i);
    }
  }

  lemma StepKeepsBase(s: Sys, e: Event, i: nat)
    requires SysInv(s) && Enabled(s, e) && i in s.w.db.runs
    ensures i in Apply(s, e).w.db.runs && SameRun(s.w.db.runs[i], Apply(s, e).w.db.runs[i])
  {
    hide SysInv, Apply;
    StepEvolves(s, e);
  }

  /**
   Over any run of the system: the stored target is a merge's base for as long as it is
   uncompleted exactly when none of those commands misaims it, and then every push of it went to
   the branch it is based on.
   */
  lemma PushesGoToTheBase(s: Sys, es: seq<Event>, i: nat)
    requires Initial(s) && ValidTrace(s, es)
    ensures AlwaysAims(s, es, i) <==> NeverMisaimed(s, es, i)
    ensures NeverMisaimed(s, es, i) ==> PushedToBase(RunTrace(s, es).w, i)
  {
    InitialSysInv(s);
    AimsOverRuns(s, es, i);
  }

  /**
   After a retarget, a retry of a completed merge queues the base it had before, while the row
   it stores targets the new one.
   */
  lemma RetryKeepsTheOldBase(w: World, repo: int, user: int, pr: PullRequest, a: RetryAnswers, last: nat)
    requires Inv(w) && ConfigOf(w, repo).enabled && a.can == Some(true)
    requires Newest(w.db.runs, repo, pr.number, last) && w.db.runs[last].completedAt.Some?
    requires !w.db.runs[last].dry && w.db.runs[last].base != Branch(pr.baseRef)
    ensures var w2 := Retry(w, repo, user, pr, a).w;
            && OpenMerge(w2, w.next) && w2.db.runs[w.next].base == w.db.runs[last].base
            && TargetOf(w2.db.prs, (repo, pr.number)) == Some(pr.baseRef)
            && !Aims(w2, w.next)
  {
    hide Inv, Retry;
    LatestIs(w, repo, pr.number, last);
    RetryRepeatsExactly(w, repo, user, pr, a, last);
    RetryTargets(w, repo, user, pr, a);
  }
}
