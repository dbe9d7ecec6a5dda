/**
 The CI branches on GitHub, as far as the server's own requests determine them: while a merge
 is in progress, its branch was last asked to hold its commit.
 */
module CiBranches {
  import opened Basics
  import opened CiRuns
  import opened Checks
  import opened PrRows
  import opened Labels
  import opened Store
  import opened Workflow
  import opened Handlers
  import opened Scheduler
  import opened System
  import opened Invariants
  import opened WorkflowProofs
  import opened HandlerProofs
  import opened SystemProofs
  import opened Commands
  import opened Safety

  /** What one request does to a branch. */
  function AfterRequest(now: Option<string>, r: Request, g: Group): Option<string> {
    match r
    case PushCi(repo, branch, sha) => if (repo, branch) == g then Some(sha) else now
    case DeleteBranch(repo, branch) => if (repo, branch) == g then None else now
    case _ => now
  }

  /** The commit a branch was last asked to hold, if it was not asked to be deleted since. */
  function BranchAsked(requests: seq<Request>, g: Group): Option<string> {
    if requests == [] then None else
    AfterRequest(BranchAsked(requests[..|requests| - 1], g), requests[|requests| - 1], g)
  }

  function Asked(w: World, g: Group): Option<string> {
    BranchAsked(w.hub.requests, g)
  }

  lemma SendAsks(q: seq<Request>, r: Request)
    ensures forall g :: BranchAsked(q + [r], g) == AfterRequest(BranchAsked(q, g), r, g)
  {
    assert (q + [r])[..|q|] == q;
  }

  lemma LabelsAsk(w: World, repo: int, pr: PrRow, status: Status, dry: bool, a: LabelAnswers)
    ensures UpdateLabels(w, repo, pr, status, dry, a).w.hub.requests == w.hub.requests
  {
    hide LabelsSettled, LabelsAfter;
  }

  // ---- What each step of a run asks of branches ----

  /** Only the branch of one group was asked anything. */
  ghost predicate OnlyAsks(w: World, w2: World, g: Group) {
    forall h :: h != g ==> Asked(w2, h) == Asked(w, h)
  }

  function GroupFor(repo: int, run: Run): Group {
    (repo, run.ciBranch)
  }

  lemma FailAsks(w: World, repo: int, run: Run, pr: PrRow, note: Note, a: FailAnswers)
    ensures var w2 := Fail(w, repo, run, pr, note, a).w;
            var g := GroupFor(repo, run);
            && OnlyAsks(w, w2, g)
            && Asked(w2, g) == if a.stored && run.id in w.db.runs && a.message then None else Asked(w, g)
  {
    hide UpdateLabels, BranchAsked;
    var w1 := SetRuns(w, Update(w.db.runs, run.id, Query, Finish(Failure, w.now)));
    SendAsks(w1.hub.requests, Comment(repo, pr.number, note));
    var w2 := Send(w1, Comment(repo, pr.number, note));
    SendAsks(w2.hub.requests, DeleteBranch(repo, run.ciBranch));
    LabelsAsk(Send(w2, DeleteBranch(repo, run.ciBranch)), repo, pr, Failure, run.dry, a.labels);
  }

  predicate FailDeletes(w: World, run: Run, a: FailAnswers) {
    a.stored && run.id in w.db.runs && a.message
  }

  predicate SuccessDeletes(w: World, run: Run, a: SuccessAnswers) {
    && a.stored && Reaches(w.db.runs, run.id, NotDone) && run.sha.Some? && a.users && a.message
    && (run.dry || a.push || FailDeletes(w, run, a.fail))
  }

  /** Whether a refresh gets as far as asking for the deletion of its run's branch. */
  predicate RefreshDeletes(w: World, repo: int, run: Run, a: RefreshAnswers) {
    && run.completedAt.None? && run.startedAt.Some? && a.rows.Some?
    && match Judge(ConfigOf(w, repo).required, ByName(a.rows.value))
       case Green => SuccessDeletes(w, run, a.success)
       case Broken(_) => FailDeletes(w, run, a.fail)
       case Unfinished(_) => TimedOut(w, repo, run.startedAt.value) && FailDeletes(w, run, a.fail)
  }

  /** `success` asks for the deletion only of a run it claimed. */
  lemma SucceedAsks(w: World, repo: int, run: Run, pr: PrRow, a: SuccessAnswers)
    ensures var w2 := Succeed(w, repo, run, pr, a).w;
            var g := GroupFor(repo, run);
            OnlyAsks(w, w2, g) && Asked(w2, g) == if SuccessDeletes(w, run, a) then None else Asked(w, g)
  {
    hide UpdateLabels, Fail, BranchAsked;
    var w1 := SetRuns(w, Update(w.db.runs, run.id, NotDone, Finish(Success, w.now)));
    var note := if run.dry then TestsPassed else TestsPassedMerge;
    SendAsks(w1.hub.requests, Comment(repo, run.pr, note));
    var w2 := Send(w1, Comment(repo, run.pr, note));
    if run.sha.Some? {
      var p := PushOf(w, repo, run, pr, a);
      var w3 := if run.dry then w2 else LogPush(w2, p);
      FailAsks(w3, repo, run, pr, PushRefused, a.fail);
      SendAsks(w3.hub.requests, DeleteBranch(repo, run.ciBranch));
      LabelsAsk(Send(w3, DeleteBranch(repo, run.ciBranch)), repo, pr, Success, run.dry, a.labels);
    }
  }

  /** What a refresh asks of branches. */
  lemma RefreshAsks(w: World, repo: int, run: Run, pr: PrRow, a: RefreshAnswers)
    ensures var w2 := Refresh(w, repo, run, pr, a).w;
            var g := GroupFor(repo, run);
            OnlyAsks(w, w2, g) && Asked(w2, g) == if RefreshDeletes(w, repo, run, a) then None else Asked(w, g)
  {
    hide Fail, Succeed, Judge, ByName, BranchAsked, SuccessDeletes;
    if run.completedAt.None? && run.startedAt.Some? && a.rows.Some? {
      var v := Judge(ConfigOf(w, repo).required, ByName(a.rows.value));
      SucceedAsks(w, repo, run, pr, a.success);
      FailAsks(w, repo, run, pr, if v.Broken? then TestsFailed(v.check.name) else TestsTimedOut, a.fail);
    }
  }

  /** A refresh that asks for the deletion has completed its run. */
  lemma DeletingRefreshCompletes(w: World, repo: int, run: Run, pr: PrRow, a: RefreshAnswers)
    requires RefreshDeletes(w, repo, run, a)
    ensures var runs := Refresh(w, repo, run, pr, a).w.db.runs;
            run.id in runs && !runs[run.id].status.InProgress?
  {
    hide Fail, Succeed, Judge, ByName;
    var v := Judge(ConfigOf(w, repo).required, ByName(a.rows.value));
    if v.Green? {
      SucceedCompletes(w, repo, run, pr, a.success);
    } else {
      FailWrites(w, repo, run, pr, if v.Broken? then TestsFailed(v.check.name) else TestsTimedOut, a.fail);
    }
  }

  /** A start that leaves a queued run in progress asked its branch to hold the run's commit. */
  lemma StartOnAsks(w: World, repo: int, run: Run, pr: PrRow, base: string, a: StartAnswers)
    ensures var w2 := StartOn(w, repo, run, pr, base, a).w;
            var g := GroupFor(repo, run);
            && OnlyAsks(w, w2, g)
            && (Reaches(w.db.runs, run.id, StillQueued) && run.id in w2.db.runs
                && w2.db.runs[run.id].status.InProgress? ==>
                  Asked(w2, g) == w2.db.runs[run.id].sha)
  {
    hide Fail, UpdateLabels, BranchAsked;
    var w1 := Send(w, MakeMerge(repo, base, run.head));
    SendAsks(w.hub.requests, MakeMerge(repo, base, run.head));
    match a.merge
    case MergeClash =>
      FailAsks(w1, repo, run, pr, MergeConflict, a.fail);
      FailWrites(w1, repo, run, pr, MergeConflict, a.fail);
    case MergeErr =>
      FailAsks(w1, repo, run, pr, MergeFailed, a.fail);
      FailWrites(w1, repo, run, pr, MergeFailed, a.fail);
    case MergedAs(sha) =>
      var w3 := SetRuns(Mint(w1, sha, repo), StartedRows(w.db.runs, run.id, sha, w.now));
      SendAsks(w3.hub.requests, PushCi(repo, run.ciBranch, sha));
      var w4 := Send(w3, PushCi(repo, run.ciBranch, sha));
      FailAsks(w4, repo, run, pr, CiPushFailed, a.fail);
      FailWrites(w4, repo, run, pr, CiPushFailed, a.fail);
      SendAsks(w4.hub.requests, Comment(repo, run.pr, TestsStarted));
      var w5 := Send(w4, Comment(repo, run.pr, TestsStarted));
      LabelsAsk(w5, repo, pr, InProgress, run.dry, a.labels);
      LabelsWrite(w5, repo, pr, InProgress, run.dry, a.labels);
  }

  lemma StartAsks(w: World, repo: int, run: Run, pr: PrRow, a: StartAnswers)
    ensures var w2 := Start(w, repo, run, pr, a).w;
            var g := GroupFor(repo, run);
            && OnlyAsks(w, w2, g)
            && (Reaches(w.db.runs, run.id, StillQueued) && run.id in w2.db.runs
                && w2.db.runs[run.id].status.InProgress? ==>
                  Asked(w2, g) == w2.db.runs[run.id].sha)
  {
    hide StartOn, Fail, BranchAsked;
    if run.base.Commit? {
      StartOnAsks(w, repo, run, pr, run.base.sha, a);
    } else if a.base.NoBranch? {
      FailAsks(w, repo, run, pr, BaseMissing, a.fail);
      FailWrites(w, repo, run, pr, BaseMissing, a.fail);
    } else if a.base.BranchAt? {
      StartOnAsks(w, repo, run, pr, a.base.sha, a);
    }
  }

  lemma FailAppends(w: World, repo: int, run: Run, pr: PrRow, note: Note, a: FailAnswers)
    ensures w.hub.requests <= Fail(w, repo, run, pr, note, a).w.hub.requests
  {
    hide UpdateLabels;
    var w1 := SetRuns(w, Update(w.db.runs, run.id, Query, Finish(Failure, w.now)));
    var w3 := Send(Send(w1, Comment(repo, pr.number, note)), DeleteBranch(repo, run.ciBranch));
    LabelsAsk(w3, repo, pr, Failure, run.dry, a.labels);
  }

  lemma StartOnMerges(w: World, repo: int, run: Run, pr: PrRow, base: string, a: StartAnswers)
    requires a.users
    ensures w.hub.requests + [MakeMerge(repo, base, run.head)] <= StartOn(w, repo, run, pr, base, a).w.hub.requests
  {
    hide UpdateLabels, Fail;
    var w1 := Send(w, MakeMerge(repo, base, run.head));
    FailAppends(w1, repo, run, pr, MergeConflict, a.fail);
    FailAppends(w1, repo, run, pr, MergeFailed, a.fail);
    if a.merge.MergedAs? {
      var w3 := SetRuns(Mint(w1, a.merge.sha, repo), StartedRows(w.db.runs, run.id, a.merge.sha, w.now));
      var w4 := Send(w3, PushCi(repo, run.ciBranch, a.merge.sha));
      FailAppends(w4, repo, run, pr, CiPushFailed, a.fail);
      LabelsAsk(Send(w4, Comment(repo, run.pr, TestsStarted)), repo, pr, InProgress, run.dry, a.labels);
    }
  }

  /**
   The commit a start records is the merge it asked for: of the run's head into the commit the
   run is based on, or into what GitHub said is the head of its base branch.
   */
  lemma RecordedCommitIsTheMerge(w: World, repo: int, run: Run, pr: PrRow, a: StartAnswers)
    requires Reaches(w.db.runs, run.id, Query)
    ensures var w2 := Start(w, repo, run, pr, a).w;
            run.id in w2.db.runs
            && (w2.db.runs[run.id].sha != w.db.runs[run.id].sha ==>
                  && a.merge.MergedAs? && w2.db.runs[run.id].sha == Some(a.merge.sha)
                  && (run.base.Branch? ==> a.base.BranchAt?)
                  && var base := if run.base.Commit? then run.base.sha else a.base.sha;
                     w.hub.requests + [MakeMerge(repo, base, run.head)] <= w2.hub.requests)
  {
    hide StartOn, FailedStart;
    StartWrites(w, repo, run, pr, a);
    if run.base.Commit? || a.base.BranchAt? {
      var base := if run.base.Commit? then run.base.sha else a.base.sha;
      if a.users {
        StartOnMerges(w, repo, run, pr, base, a);
      } else {
        assert StartOn(w, repo, run, pr, base, a).w == w by { StartOnNeedsUsers(w, repo, run, pr, base, a); }
      }
    } else if a.base.NoBranch? {
      FailedStartWrites(w, repo, run, pr, BaseMissing, a.fail);
    }
  }

  lemma StartOnNeedsUsers(w: World, repo: int, run: Run, pr: PrRow, base: string, a: StartAnswers)
    requires !a.users
    ensures StartOn(w, repo, run, pr, base, a).w == w
  {
  }

  lemma {:induction false} StopAllAsks(w: World, repo: int, sha: string, workflows: seq<WorkflowRun>)
    ensures forall g :: BranchAsked(StopAll(w, repo, sha, workflows).hub.requests, g) == BranchAsked(w.hub.requests, g)
  {
    if workflows != [] {
      var last := workflows[|workflows| - 1];
      StopAllAsks(w, repo, sha, workflows[..|workflows| - 1]);
      SendAsks(StopAll(w, repo, sha, workflows[..|workflows| - 1]).hub.requests, StopWorkflow(repo, last.id));
    }
  }

  /** A cancellation asks for the deletion only of a run it claimed, and only if that was started. */
  lemma CancelAsks(w: World, repo: int, run: Run, pr: PrRow, a: CancelAnswers)
    ensures var w2 := CancelRun(w, repo, run, pr, a).w;
            var g := GroupFor(repo, run);
            && OnlyAsks(w, w2, g)
            && Asked(w2, g) == (if a.stored && Reaches(w.db.runs, run.id, NotDone) && run.sha.Some? && a.workflows.Some?
                                then None else Asked(w, g))
  {
    hide UpdateLabels, StopAll, BranchAsked;
    CancelWrites(w, repo, run, pr, a);
    var w1 := SetRuns(w, CancelledRows(w.db.runs, run.id, w.now));
    LabelsAsk(w1, repo, pr, Cancelled, run.dry, a.labels);
    if run.sha.Some? && a.workflows.Some? {
      StopAllAsks(w1, repo, run.sha.value, a.workflows.value);
      var w2 := StopAll(w1, repo, run.sha.value, a.workflows.value);
      SendAsks(w2.hub.requests, DeleteBranch(repo, run.ciBranch));
      LabelsAsk(Send(w2, DeleteBranch(repo, run.ciBranch)), repo, pr, Cancelled, run.dry, a.labels);
    }
  }

  lemma AnnounceAsks(w: World, repo: int, run: Run, pr: PrRow, a: QueuedAnswers)
    ensures forall g :: Asked(AnnounceQueued(w, repo, run, pr, a).w, g) == Asked(w, g)
  {
    hide UpdateLabels, BranchAsked;
    SendAsks(w.hub.requests, Comment(repo, run.pr, CommitApproved));
    LabelsAsk(Send(w, Comment(repo, run.pr, CommitApproved)), repo, pr, Queued, run.dry, a.labels);
  }

  // ---- What each transaction asks of the branches of merges ----

  /** Nothing was asked of the branch of any merge among the rows. */
  ghost predicate MergesLeft(runs: Rows, x: World, y: World) {
    forall i :: i in runs && !runs[i].dry ==> Asked(y, GroupOf(runs[i])) == Asked(x, GroupOf(runs[i]))
  }

  /** Nothing was asked of the branch of any merge that is in progress afterwards. */
  ghost predicate MergesSafe(w: World, w2: World) {
    forall i :: i in w.db.runs && i in w2.db.runs && !w.db.runs[i].dry && w2.db.runs[i].status.InProgress? ==>
                  Asked(w2, GroupOf(w.db.runs[i])) == Asked(w, GroupOf(w.db.runs[i]))
  }

  /** Nobody else in the group of `v` is in progress. */
  ghost predicate GroupOwn(v: Run, runs: Rows) {
    forall i :: i in runs && runs[i].status.InProgress? && SameGroup(runs[i], v) ==> i == v.id
  }

  /** A try's branch is no merge's. */
  lemma TryLeavesMerges(w: World, r: Run, x: World, y: World)
    requires Inv(w) && Named(r, w.conf) && r.dry && OnlyAsks(x, y, GroupOf(r))
    ensures MergesLeft(w.db.runs, x, y)
  {
    forall i | i in w.db.runs && !w.db.runs[i].dry
      ensures Asked(y, GroupOf(w.db.runs[i])) == Asked(x, GroupOf(w.db.runs[i]))
    {
      if GroupOf(w.db.runs[i]) == GroupOf(r) {
        TryGroup(r, w.db.runs[i], w.conf);
      }
    }
  }

  /** A run that is in progress alone, or completed by whoever asked, endangers no other merge. */
  lemma OwnRunIsSafe(w: World, w2: World, v: Run)
    requires Inv(w) && v.id in w.db.runs && GroupOf(w.db.runs[v.id]) == GroupOf(v) && GroupOwn(v, w.db.runs)
    requires forall i :: i in w.db.runs ==>
               i in w2.db.runs && (w2.db.runs[i].status.InProgress? ==> w.db.runs[i].status.InProgress?)
    requires OnlyAsks(w, w2, GroupOf(v))
    requires Asked(w2, GroupOf(v)) != Asked(w, GroupOf(v)) ==> !w2.db.runs[v.id].status.InProgress?
    ensures MergesSafe(w, w2)
  {
    hide Inv, BranchAsked;
  }

  lemma CancelIsSafe(w: World, v: Run, pr: PrRow, a: CancelAnswers)
    requires Inv(w) && v.id in w.db.runs && w.db.runs[v.id] == v && v.completedAt.None?
    ensures MergesSafe(w, CancelRun(w, v.repo, v, pr, a).w)
  {
    hide CancelRun, BranchAsked;
    CancelAsks(w, v.repo, v, pr, a);
    CancelWrites(w, v.repo, v, pr, a);
    if v.sha.Some? {
      assert GroupOwn(v, w.db.runs);
      OwnRunIsSafe(w, CancelRun(w, v.repo, v, pr, a).w, v);
    }
  }

  lemma TryIsSafe(w: World, repo: int, user: int, pr: PullRequest, args: TryArgs, a: TryAnswers)
    requires Inv(w)
    ensures MergesLeft(w.db.runs, w, Try(w, repo, user, pr, args, a).w)
  {
    hide Inv, TryAt, BranchAsked;
    forall n { SendAsks(w.hub.requests, Comment(repo, pr.number, n)); }
    if ConfigOf(w, repo).enabled && (args.base.Some? ==> a.base.CommitIs?) && (args.head.Some? ==> a.head.CommitIs?) {
      TryAtIsSafe(w, repo, user, pr,
                  if args.base.Some? then Commit(a.base.sha) else Branch(pr.baseRef),
                  if args.head.Some? then a.head.sha else pr.headSha, a);
    }
  }

  lemma TryAtIsSafe(w: World, repo: int, user: int, pr: PullRequest, base: Base, head: string, a: TryAnswers)
    requires Inv(w) && ConfigOf(w, repo).enabled
    ensures MergesLeft(w.db.runs, w, TryAt(w, repo, user, pr, base, head, a).w)
  {
    hide Inv, CancelRun, StartTry, UpsertRow, UpsertPr, NewRow, BranchAsked;
    var dbPr := UpsertRow(w.db.prs, NewRow(pr, user, repo, w.now));
    var w1 := SetPrs(w, UpsertPr(w.db.prs, NewRow(pr, user, repo, w.now)));
    ActiveFacts(w, repo, pr.number);
    var active := Active(w.db.runs, w.next, repo, pr.number);
    SendAsks(w.hub.requests, Comment(repo, pr.number, ActiveMerge));
    if active.None? {
      StartTryIsSafe(w, w1, repo, user, pr, dbPr, base, head, a.start);
    } else if active.value.dry {
      var c := CancelRun(w1, repo, active.value, dbPr, a.cancel).w;
      CancelAsks(w1, repo, active.value, dbPr, a.cancel);
      CancelWrites(w1, repo, active.value, dbPr, a.cancel);
      RowIsNamed(w, active.value);
      TryLeavesMerges(w, active.value, w1, c);
      StartTryIsSafe(w, c, repo, user, pr, dbPr, base, head, a.start);
    }
  }

  lemma StartTryIsSafe(w: World, x: World, repo: int, user: int, pr: PullRequest, dbPr: PrRow, base: Base, head: string,
                       a: StartAnswers)
    requires Inv(w) && ConfigOf(w, repo).enabled && x.conf == w.conf
    ensures MergesLeft(w.db.runs, x, StartTry(x, repo, user, pr, dbPr, base, head, a).w)
  {
    hide Inv, Start, BranchAsked;
    EnabledIsConfigured(w, repo);
    var run := NewRun(x, repo, pr.number, base, head, TryBranchOf(x, repo, pr.number), DEFAULT_PRIORITY, user, true,
                      []);
    var x1 := InsertRun(x, run);
    StartAsks(x1, repo, run, dbPr, a);
    TryLeavesMerges(w, run, x1, Start(x1, repo, run, dbPr, a).w);
  }

  lemma MergeIsSafe(w: World, repo: int, user: int, pr: PullRequest, priority: Option<int>, a: MergeAnswers)
    ensures MergesLeft(w.db.runs, w, Merge(w, repo, user, pr, priority, a).w)
  {
    hide UpsertRow, UpsertPr, NewRow, AnnounceQueued, Approvers.Compute, BranchAsked;
    SendAsks(w.hub.requests, Comment(repo, pr.number, RunPending));
    forall v: World, run: Run, dbPr: PrRow { AnnounceAsks(v, repo, run, dbPr, a.queued); }
  }

  lemma RetryIsSafe(w: World, repo: int, user: int, pr: PullRequest, a: RetryAnswers)
    requires Inv(w)
    ensures MergesLeft(w.db.runs, w, Retry(w, repo, user, pr, a).w)
  {
    hide Inv, UpsertRow, UpsertPr, NewRow, AnnounceQueued, Start, BranchAsked;
    SendAsks(w.hub.requests, Comment(repo, pr.number, NeverRun));
    SendAsks(w.hub.requests, Comment(repo, pr.number, NotCompleted));
    LatestFacts(w, repo, pr.number);
    var latest := Latest(w.db.runs, w.next, repo, pr.number);
    if latest.Some? {
      var last := latest.value;
      RowIsNamed(w, last);
      var dbPr := UpsertRow(w.db.prs, NewRow(pr, user, repo, w.now));
      var w1 := SetPrs(w, UpsertPr(w.db.prs, NewRow(pr, user, repo, w.now)));
      var run := NewRun(w1, repo, pr.number, last.base, last.head, last.ciBranch, last.priority, user, last.dry,
                        last.approvedBy);
      var w2 := InsertRun(w1, run);
      AnnounceAsks(w2, repo, run, dbPr, a.queued);
      StartAsks(w2, repo, run, dbPr, a.start);
      if run.dry {
        TryLeavesMerges(w, run, w2, Start(w2, repo, run, dbPr, a.start).w);
      }
    }
  }

  lemma CancelCommandIsSafe(w: World, repo: int, user: int, pr: PullRequest, a: CancelCommandAnswers)
    requires Inv(w)
    ensures MergesSafe(w, Cancel(w, repo, user, pr, a).w)
  {
    hide Inv, UpsertRow, UpsertPr, NewRow, CancelRun, BranchAsked;
    var dbPr := UpsertRow(w.db.prs, NewRow(pr, user, repo, w.now));
    var w1 := SetPrs(w, UpsertPr(w.db.prs, NewRow(pr, user, repo, w.now)));
    Upserted(w, pr, user, repo, None);
    SameRunsKeepInv(w, w1);
    ActiveFacts(w1, repo, pr.number);
    var active := Active(w.db.runs, w.next, repo, pr.number);
    if active.Some? {
      CancelIsSafe(w1, active.value, dbPr, a.cancel);
      SendAsks(CancelRun(w1, repo, active.value, dbPr, a.cancel).w.hub.requests,
               Comment(repo, pr.number, RunCancelled));
    }
  }

  lemma PrChangeIsSafe(w: World, repo: int, user: int, pr: PullRequest, a: PrAnswers)
    requires Inv(w)
    ensures MergesSafe(w, PrChange(w, repo, user, pr, a).w)
  {
    hide Inv, NewRow, UpdateFrom, InMemory, Stored, NeedsUpdate, CancelRun, BranchAsked;
    var key := (repo, pr.number);
    if key in w.db.prs {
      var update := UpdateFrom(w.db.prs[key], pr, w.now);
      var current := InMemory(update, w.db.prs[key]);
      var w1 := SetPrs(w, w.db.prs[key := Stored(update, w.db.prs[key])]);
      SameRunsKeepInv(w, w1);
      ActiveFacts(w1, repo, pr.number);
      var active := Active(w.db.runs, w.next, repo, pr.number);
      if active.Some? {
        CancelIsSafe(w1, active.value, current, a.cancel);
        SendAsks(CancelRun(w1, repo, active.value, current, a.cancel).w.hub.requests,
                 Comment(repo, active.value.pr, PrChanged));
      }
    }
  }

  /** A refresh of a try, or of a merge that nobody of its group can be mistaken for. */
  lemma RefreshIsSafe(w: World, run: Run, pr: PrRow, a: RefreshAnswers)
    requires Inv(w) && run.id in w.db.runs && SameRun(run, w.db.runs[run.id])
    requires run.dry || GroupOwn(run, w.db.runs)
    ensures MergesSafe(w, Refresh(w, run.repo, run, pr, a).w)
  {
    hide Refresh, Inv, BranchAsked, RefreshDeletes;
    var w2 := Refresh(w, run.repo, run, pr, a).w;
    RefreshAsks(w, run.repo, run, pr, a);
    if run.dry {
      RowIsNamed(w, w.db.runs[run.id]);
      TryLeavesMerges(w, w.db.runs[run.id], w, w2);
    } else {
      RefreshLeavesProgress(w, run, pr, a);
      RefreshWrites(w, run.repo, run, pr, a);
      if RefreshDeletes(w, run.repo, run, a) {
        DeletingRefreshCompletes(w, run.repo, run, pr, a);
      }
      OwnRunIsSafe(w, w2, run);
    }
  }

  lemma CheckIsSafe(w: World, repo: int, c: CheckReport, a: RefreshAnswers)
    requires Inv(w) && HonestCheck(w, repo, c)
    requires c.id in w.hub.heads && w.hub.heads[c.id] == c.headSha
    requires Report(c.headSha, c.name, c.conclusion) in w.hub.reports
    ensures MergesSafe(w, CheckRun(w, repo, c, a).w)
  {
    hide Inv, Refresh, BranchAsked;
    ByShaFacts(w, c.headSha);
    var found := BySha(w.db.runs, w.next, c.headSha);
    if found.Some? && found.value.completedAt.None? && (found.value.repo, found.value.pr) in w.db.prs {
      var run := found.value;
      var w1 := StoreCheck(w, repo, c, run);
      CommitOfRepo(w, run);
      RowIsCoherent(w, run);
      StoreCheckKeepsInv(w, repo, c, run);
      AloneInGroup(w1, run);
      RefreshIsSafe(w1, run, w.db.prs[(run.repo, run.pr)], a);
    }
  }

  /** A run in progress is so alone. */
  lemma AloneInGroup(w: World, run: Run)
    requires Inv(w) && run.id in w.db.runs && w.db.runs[run.id] == run && run.status.InProgress?
    ensures GroupOwn(run, w.db.runs)
  {
    forall i | i in w.db.runs && w.db.runs[i].status.InProgress? && SameGroup(w.db.runs[i], run)
      ensures i == run.id
    {
      assert BothInProgress(w.db.runs[i], w.db.runs[run.id]);
    }
  }

  lemma HandlerIsSafe(s: Sys, e: Event)
    requires Inv(s.w) && IsWebhook(e) && Enabled(s, e)
    ensures MergesSafe(Heard(s.w, e), Result(Heard(s.w, e), e).w)
  {
    hide Inv, Try, Merge, Retry, Cancel, PrChange, CheckRun, BranchAsked;
    match e
    case TryCommand(repo, user, pr, args, a, _) => TryIsSafe(s.w, repo, user, pr, args, a);
    case MergeCommand(repo, user, pr, priority, a, _) => MergeIsSafe(s.w, repo, user, pr, priority, a);
    case RetryCommand(repo, user, pr, a, _) => RetryIsSafe(s.w, repo, user, pr, a);
    case CancelCommand(repo, user, pr, a, _) => CancelCommandIsSafe(s.w, repo, user, pr, a);
    case PrEvent(repo, user, pr, a, _) => PrChangeIsSafe(s.w, repo, user, pr, a);
    case CheckEvent(repo, c, a, _) =>
      HeardInv(s.w, repo, c);
      CheckIsSafe(Hear(s.w, c), repo, c, a);
  }

  // ---- When a transaction takes the branch of a merge in progress ----

  /** A merge that is in progress. */
  predicate Merging(w: World, i: nat) {
    i in w.db.runs && !w.db.runs[i].dry && w.db.runs[i].status.InProgress?
  }

  function BranchOf(w: World, i: nat): Option<string>
    requires i in w.db.runs
  {
    Asked(w, GroupOf(w.db.runs[i]))
  }

  predicate CancelDeletes(a: CancelAnswers) {
    a.stored && a.workflows.Some?
  }

  /** Cancelling the active run of another pull request leaves the merge and its branch alone. */
  lemma OtherCancelLeaves(w: World, v: Run, pr: PrRow, a: CancelAnswers, i: nat)
    requires Inv(w) && Merging(w, i) && v.id in w.db.runs && w.db.runs[v.id] == v && v.completedAt.None? && v.id != i
    ensures Asked(CancelRun(w, v.repo, v, pr, a).w, GroupOf(w.db.runs[i])) == BranchOf(w, i)
  {
    hide Inv, CancelRun, BranchAsked;
    CancelIsSafe(w, v, pr, a);
    CancelIsGood(w, v.repo, v, pr, a);
  }

  lemma OwnCancelDeletes(w: World, i: nat, pr: PrRow, a: CancelAnswers)
    requires Inv(w) && Merging(w, i)
    ensures var v := w.db.runs[i];
            Asked(CancelRun(w, v.repo, v, pr, a).w, GroupOf(v)) == if CancelDeletes(a) then None else BranchOf(w, i)
  {
    hide CancelRun, BranchAsked;
    var v := w.db.runs[i];
    assert Coherent(v) && v.id == i;
    CancelAsks(w, v.repo, v, pr, a);
  }

  /** A merge in progress is the active run of its pull request, and of no other. */
  lemma MergingIsActive(w: World, i: nat, repo: int, pr: nat)
    requires Inv(w) && Merging(w, i)
    ensures w.db.runs[i].id == i && w.db.runs[i].completedAt.None?
    ensures var active := Active(w.db.runs, w.next, repo, pr);
            if OfPr(w.db.runs[i], repo, pr) then active == Some(w.db.runs[i])
            else active.Some? ==> active.value.id != i
  {
    ActiveFacts(w, repo, pr);
    assert Coherent(w.db.runs[i]);
  }

  lemma CancelTakes(w: World, repo: int, user: int, pr: PullRequest, a: CancelCommandAnswers, i: nat)
    requires Inv(w) && Merging(w, i)
    ensures Asked(Cancel(w, repo, user, pr, a).w, GroupOf(w.db.runs[i]))
         == if OfPr(w.db.runs[i], repo, pr.number) && a.can == Some(true) && CancelDeletes(a.cancel) then None
            else BranchOf(w, i)
  {
    hide Inv, UpsertRow, UpsertPr, NewRow, CancelRun, BranchAsked;
    var dbPr := UpsertRow(w.db.prs, NewRow(pr, user, repo, w.now));
    var w1 := SetPrs(w, UpsertPr(w.db.prs, NewRow(pr, user, repo, w.now)));
    Upserted(w, pr, user, repo, None);
    SameRunsKeepInv(w, w1);
    ActiveFacts(w1, repo, pr.number);
    MergingIsActive(w1, i, repo, pr.number);
    var active := Active(w.db.runs, w.next, repo, pr.number);
    if active.Some? && a.can == Some(true) {
      if active.value.id == i {
        OwnCancelDeletes(w1, i, dbPr, a.cancel);
      } else {
        OtherCancelLeaves(w1, active.value, dbPr, a.cancel, i);
      }
      SendAsks(CancelRun(w1, repo, active.value, dbPr, a.cancel).w.hub.requests,
               Comment(repo, pr.number, RunCancelled));
    }
  }

  /** Whether the pull request is known and reported differently from what is stored. */
  predicate Differs(w: World, repo: int, pr: PullRequest) {
    (repo, pr.number) in w.db.prs && !Shows(w.db.prs[(repo, pr.number)], pr)
  }

  lemma PrChangeTakes(w: World, repo: int, user: int, pr: PullRequest, a: PrAnswers, i: nat)
    requires Inv(w) && Merging(w, i)
    ensures Asked(PrChange(w, repo, user, pr, a).w, GroupOf(w.db.runs[i]))
         == if OfPr(w.db.runs[i], repo, pr.number) && Differs(w, repo, pr) && CancelDeletes(a.cancel) then None
            else BranchOf(w, i)
  {
    hide Inv, NewRow, UpdateFrom, InMemory, Stored, NeedsUpdate, CancelRun, BranchAsked, Shows;
    var key := (repo, pr.number);
    if key in w.db.prs {
      DiffIsEmptyExactly(w.db.prs[key], pr, w.now);
      var update := UpdateFrom(w.db.prs[key], pr, w.now);
      var current := InMemory(update, w.db.prs[key]);
      var w1 := SetPrs(w, w.db.prs[key := Stored(update, w.db.prs[key])]);
      SameRunsKeepInv(w, w1);
      ActiveFacts(w1, repo, pr.number);
      MergingIsActive(w1, i, repo, pr.number);
      var active := Active(w.db.runs, w.next, repo, pr.number);
      if active.Some? {
        if active.value.id == i {
          OwnCancelDeletes(w1, i, current, a.cancel);
        } else {
          OtherCancelLeaves(w1, active.value, current, a.cancel, i);
        }
        SendAsks(CancelRun(w1, repo, active.value, current, a.cancel).w.hub.requests,
                 Comment(repo, active.value.pr, PrChanged));
      }
    }
  }

  /** Whether a reported check makes the refresh of the run it belongs to ask for the deletion. */
  predicate CheckDeletes(w: World, repo: int, c: CheckReport, a: RefreshAnswers, i: nat)
    requires i in w.db.runs
  {
    && w.db.runs[i].sha == Some(c.headSha) && CheckRefreshes(w, repo, c)
    && RefreshDeletes(StoreCheck(w, repo, c, w.db.runs[i]), repo, w.db.runs[i], a)
  }

  lemma CheckTakes(w: World, repo: int, c: CheckReport, a: RefreshAnswers, i: nat)
    requires Inv(w) && HonestCheck(w, repo, c) && Merging(w, i)
    requires c.id in w.hub.heads && w.hub.heads[c.id] == c.headSha
    requires Report(c.headSha, c.name, c.conclusion) in w.hub.reports
    ensures Asked(CheckRun(w, repo, c, a).w, GroupOf(w.db.runs[i]))
         == if CheckDeletes(w, repo, c, a, i) then None else BranchOf(w, i)
  {
    hide Inv, Refresh, BranchAsked, RefreshDeletes, BySha;
    ByShaFacts(w, c.headSha);
    var found := BySha(w.db.runs, w.next, c.headSha);
    if CheckRefreshes(w, repo, c) {
      var run := found.value;
      var w1 := StoreCheck(w, repo, c, run);
      CommitOfRepo(w, run);
      RowIsCoherent(w, run);
      if run.id == i {
        RefreshAsks(w1, repo, run, w.db.prs[(run.repo, run.pr)], a);
      } else {
        CheckIsSafe(w, repo, c, a);
        AllRowsCoherent(w);
        RefreshOnlyWrites(w1, repo, run, w.db.prs[(run.repo, run.pr)], a);
        CommitIsOwn(w, run.id, i);
      }
    }
  }

  lemma CommitIsOwn(w: World, i: nat, j: nat)
    requires Inv(w) && i in w.db.runs && j in w.db.runs && w.db.runs[i].sha.Some? && i != j
    ensures w.db.runs[i].sha != w.db.runs[j].sha
  {
  }

  /** What a webhook asks of the branch of a merge in progress: nothing, or its deletion. */
  predicate TakesBranch(w: World, e: Event, i: nat)
    requires i in w.db.runs
  {
    match e
    case CancelCommand(repo, _, pr, a, _) =>
      OfPr(w.db.runs[i], repo, pr.number) && a.can == Some(true) && CancelDeletes(a.cancel)
    case PrEvent(repo, _, pr, a, _) =>
      OfPr(w.db.runs[i], repo, pr.number) && Differs(w, repo, pr) && CancelDeletes(a.cancel)
    case CheckEvent(repo, c, a, _) => CheckDeletes(w, repo, c, a, i)
    case _ => false
  }

  lemma HandlerTakesExactly(s: Sys, e: Event, i: nat)
    requires Inv(s.w) && IsWebhook(e) && Enabled(s, e) && Merging(s.w, i)
    ensures var w := Heard(s.w, e);
            Asked(Result(w, e).w, GroupOf(w.db.runs[i])) == if TakesBranch(w, e, i) then None else BranchOf(w, i)
  {
    hide Inv, Try, Merge, Retry, Cancel, PrChange, CheckRun, BranchAsked;
    match e
    case TryCommand(repo, user, pr, args, a, _) => TryIsSafe(s.w, repo, user, pr, args, a);
    case MergeCommand(repo, user, pr, priority, a, _) => MergeIsSafe(s.w, repo, user, pr, priority, a);
    case RetryCommand(repo, user, pr, a, _) => RetryIsSafe(s.w, repo, user, pr, a);
    case CancelCommand(repo, user, pr, a, _) => CancelTakes(s.w, repo, user, pr, a, i);
    case PrEvent(repo, user, pr, a, _) => PrChangeTakes(s.w, repo, user, pr, a, i);
    case CheckEvent(repo, c, a, _) =>
      HeardInv(s.w, repo, c);
      CheckTakes(Hear(s.w, c), repo, c, a, i);
  }

  // ---- Over whole runs ----

  /** If a run is a merge in progress, its branch was last asked to hold its commit. */
  ghost predicate BranchHolds(w: World, i: nat) {
    Merging(w, i) ==> BranchOf(w, i) == w.db.runs[i].sha
  }

  /** A merge in the work list, however stale, is the only run of its group that may be in progress. */
  ghost predicate WorkIsOwn(work: seq<Run>, runs: Rows) {
    forall k :: 0 <= k < |work| && !work[k].dry ==> GroupOwn(work[k], runs)
  }

  ghost predicate BranchInv(s: Sys, i: nat) {
    SysInv(s) && BranchHolds(s.w, i) && WorkIsOwn(s.work, s.w.db.runs)
  }

  /** The transaction of a webhook is undone after it had asked for the deletion of the merge's branch. */
  ghost predicate UndoneBranch(s: Sys, e: Event, i: nat) {
    && IsWebhook(e) && Merging(s.w, i) && TakesBranch(Heard(s.w, e), e, i)
    && !(Result(Heard(s.w, e), e).res.Ok? && e.commit)
  }

  lemma TransactionOnBranch(w: World, o: Out, commit: bool, i: nat, taken: bool)
    requires AllCoherent(w.db.runs) && Gentle(w, o.w) && MergesSafe(w, o.w) && BranchHolds(w, i)
    requires Merging(w, i) ==> Asked(o.w, GroupOf(w.db.runs[i])) == if taken then None else BranchOf(w, i)
    ensures BranchHolds(Transaction(w, o, commit), i) <==> !(Merging(w, i) && taken && !(o.res.Ok? && commit))
  {
    hide BranchAsked;
    assert Merging(w, i) ==> Coherent(w.db.runs[i]);
    if o.res.Ok? && commit && Merging(o.w, i) {
      assert i in w.db.runs ==> GentleRow(w.db.runs[i], o.w.db.runs[i]);
    }
  }

  /** A transaction leaves the branch of a merge right exactly when it is not undone after deleting it. */
  lemma TransactionKeepsBranch(s: Sys, e: Event, i: nat)
    requires Inv(s.w) && IsWebhook(e) && Enabled(s, e) && BranchHolds(s.w, i)
    ensures BranchHolds(Apply(s, e).w, i) <==> !UndoneBranch(s, e, i)
  {
    hide BranchAsked, Result, TakesBranch, Inv, Gentle, MergesSafe, Transaction, AllCoherent;
    var w := Heard(s.w, e);
    AllRowsCoherent(s.w);
    HandlerIsGood(s, e);
    HandlerIsSafe(s, e);
    if Merging(s.w, i) {
      HandlerTakesExactly(s, e, i);
    }
    TransactionOnBranch(w, Result(w, e), e.commit, i, i in w.db.runs && TakesBranch(w, e, i));
  }

  lemma TransactionKeepsWork(work: seq<Run>, w: World, w2: World, horizon: nat)
    requires Inv(w) && Inv(w2) && Gentle(w, w2) && WorkOk(work, w.db.runs, horizon) && WorkIsOwn(work, w.db.runs)
    ensures WorkIsOwn(work, w2.db.runs)
  {
    forall k | 0 <= k < |work| && !work[k].dry
      ensures GroupOwn(work[k], w2.db.runs)
    {
      var v := work[k];
      assert WorkItem(v, w.db.runs, horizon) && GroupOwn(v, w.db.runs);
      forall i | i in w2.db.runs && w2.db.runs[i].status.InProgress? && SameGroup(w2.db.runs[i], v)
        ensures i == v.id
      {
        if i in w.db.runs {
          assert GentleRow(w.db.runs[i], w2.db.runs[i]);
        } else {
          RowIsNamed(w2, w2.db.runs[i]);
          RowIsNamed(w, w.db.runs[v.id]);
          TryGroup(w2.db.runs[i], w.db.runs[v.id], w2.conf);
          assert false;
        }
      }
    }
  }

  lemma StartKeepsBranch(w: World, v: Run, pr: PrRow, a: StartAnswers, horizon: nat, i: nat)
    requires Inv(w) && BranchHolds(w, i) && WorkItem(v, w.db.runs, horizon) && v.startedAt.None?
    ensures BranchHolds(Start(w, v.repo, v, pr, a).w, i)
  {
    hide Start, Inv, BranchAsked;
    AllRowsCoherent(w);
    StartAsks(w, v.repo, v, pr, a);
    StartOnlyWrites(w, v.repo, v, pr, a);
  }

  lemma RefreshKeepsBranch(w: World, v: Run, pr: PrRow, a: RefreshAnswers, horizon: nat, i: nat)
    requires Inv(w) && BranchHolds(w, i) && WorkItem(v, w.db.runs, horizon) && v.startedAt.Some?
    requires v.dry || GroupOwn(v, w.db.runs)
    ensures BranchHolds(Refresh(w, v.repo, v, pr, a).w, i)
  {
    hide Refresh, Inv, BranchAsked, Coherent, Evolves;
    ItemIsItsRow(v, w.db.runs, horizon);
    RefreshIsSafe(w, v, pr, a);
    RefreshLeavesProgress(w, v, pr, a);
  }

  lemma ItemIsItsRow(v: Run, runs: Rows, horizon: nat)
    requires WorkItem(v, runs, horizon)
    ensures SameRun(v, runs[v.id])
  {
  }

  /** A refresh takes nobody into progress. */
  lemma RefreshLeavesProgress(w: World, v: Run, pr: PrRow, a: RefreshAnswers)
    ensures var runs2 := Refresh(w, v.repo, v, pr, a).w.db.runs;
            forall i :: i in runs2 && runs2[i].status.InProgress? ==> i in w.db.runs && runs2[i] == w.db.runs[i]
  {
    hide Refresh;
    RefreshWrites(w, v.repo, v, pr, a);
  }

  lemma HandleKeepsBranch(s: Sys, a: HandleAnswers, i: nat)
    requires BranchInv(s, i) && Enabled(s, Handle(a))
    ensures BranchInv(Apply(s, Handle(a)), i)
  {
    hide Inv, Start, Refresh, BranchHolds, OnlyWrites;
    HandleKeepsSysInv(s, a);
    var v := s.work[0];
    assert WorkItem(v, s.w.db.runs, s.horizon);
    if (v.repo, v.pr) in s.w.db.prs {
      var pr := s.w.db.prs[(v.repo, v.pr)];
      if v.startedAt.None? {
        StartKeepsBranch(s.w, v, pr, a.start, s.horizon, i);
      } else {
        RefreshKeepsBranch(s.w, v, pr, a.refresh, s.horizon, i);
      }
    }
    AllRowsCoherent(s.w);
    HandleOnlyWrites(s.w, v, a);
    OtherWorkIsOwn(s, HandleRun(s.w, v, a).w.db.runs);
  }

  lemma OtherWorkIsOwn(s: Sys, runs2: Rows)
    requires WorkOk(s.work, s.w.db.runs, s.horizon) && WorkIsOwn(s.work, s.w.db.runs)
    requires s.work != [] && OnlyWrites(s.w.db.runs, runs2, s.work[0].id)
    ensures WorkIsOwn(s.work[1..], runs2)
  {
    forall k | 0 < k < |s.work| && !s.work[k].dry
      ensures GroupOwn(s.work[k], runs2)
    {
      assert WorkItem(s.work[0], s.w.db.runs, s.horizon);
      assert GroupOwn(s.work[k], s.w.db.runs) && GroupOf(s.work[0]) != GroupOf(s.work[k]);
    }
  }

  lemma FetchKeepsBranch(s: Sys, rows: seq<Run>, list: seq<Run>, i: nat)
    requires BranchInv(s, i) && Enabled(s, Fetch(rows, list))
    ensures BranchInv(Apply(s, Fetch(rows, list)), i)
  {
    hide Choose, PendingRows, Inv, WorkOk, GroupOwn, BranchHolds, ValuesOf;
    FetchKeepsSysInv(s, rows, list);
    assert forall v :: v in list ==> exists g :: g in Choose(rows) && Choose(rows)[g] == v
    by { ListIsChosen(list, rows); }
    forall k | 0 <= k < |list| && !list[k].dry
      ensures GroupOwn(list[k], s.w.db.runs)
    {
      assert list[k] in list;
      var g :| g in Choose(rows) && Choose(rows)[g] == list[k];
      ChosenIsOwn(s.w, rows, g);
    }
  }

  lemma ListIsChosen(list: seq<Run>, rows: seq<Run>)
    requires ValuesOf(list, Choose(rows))
    ensures forall v :: v in list ==> exists g :: g in Choose(rows) && Choose(rows)[g] == v
  {
  }

  lemma ChosenIsOwn(w: World, rows: seq<Run>, g: Group)
    requires Inv(w) && TriesRun(w.db.runs) && PendingRows(rows, w.db.runs) && g in Choose(rows)
    ensures GroupOwn(Choose(rows)[g], w.db.runs)
  {
    hide Choose;
    var v := Choose(rows)[g];
    AllRowsCoherent(w);
    ChosenItem(rows, w.db.runs, w.next, g);
    ChoiceIsRight(rows, g);
    assert v in rows;
    if v.startedAt.Some? {
      AloneInGroup(w, v);
    }
  }

  /** A step leaves the branch of a merge right exactly when it is not a transaction undone after deleting it. */
  lemma StepKeepsBranchExactly(s: Sys, e: Event, i: nat)
    requires BranchInv(s, i) && Enabled(s, e)
    ensures SysInv(Apply(s, e)) && WorkIsOwn(Apply(s, e).work, Apply(s, e).w.db.runs)
    ensures BranchInv(Apply(s, e), i) <==> !UndoneBranch(s, e, i)
  {
    hide Inv, WorkItem, TriesRun, Result, TakesBranch;
    StepKeepsSysInv(s, e);
    if IsWebhook(e) {
      var w := Heard(s.w, e);
      var o := Result(w, e);
      HandlerIsGood(s, e);
      TransactionIsGentle(w, o, e.commit);
      TransactionKeepsInv(w, o, e.commit);
      TransactionKeepsBranch(s, e, i);
      TransactionKeepsWork(s.work, w, Transaction(w, o, e.commit), s.horizon);
    } else if e.Handle? {
      HandleKeepsBranch(s, e.handled, i);
    } else if e.Fetch? {
      FetchKeepsBranch(s, e.rows, e.list, i);
    }
  }

  /** No transaction of the run is undone after it had asked for the deletion of the merge's branch. */
  ghost predicate NoBranchUndone(s: Sys, es: seq<Event>, i: nat)
    requires ValidTrace(s, es)
    decreases |es|
  {
    es == [] || (!UndoneBranch(s, es[0], i) && NoBranchUndone(Apply(s, es[0]), es[1..], i))
  }

  /** The branch is right at every state of the run. */
  ghost predicate AlwaysHolds(s: Sys, es: seq<Event>, i: nat)
    requires ValidTrace(s, es)
    decreases |es|
  {
    BranchHolds(s.w, i) && (es == [] || AlwaysHolds(Apply(s, es[0]), es[1..], i))
  }

  lemma {:induction false} BranchesOverRuns(s: Sys, es: seq<Event>, i: nat)
    requires BranchInv(s, i) && ValidTrace(s, es)
    ensures AlwaysHolds(s, es, i) <==> NoBranchUndone(s, es, i)
    ensures NoBranchUndone(s, es, i) ==> BranchHolds(RunTrace(s, es).w, i)
    decreases |es|
  {
    hide SysInv, WorkIsOwn, BranchHolds, Apply, UndoneBranch;
    if es != [] {
      StepKeepsBranchExactly(s, es[0], i);
      if !UndoneBranch(s, es[0], i) {
        BranchesOverRuns(Apply(s, es[0]), es[1..], i);
      } else {
        NotFromThere(Apply(s, es[0]), es[1..], i);
      }
    }
  }

  lemma NotFromThere(s: Sys, es: seq<Event>, i: nat)
    requires ValidTrace(s, es) && !BranchHolds(s.w, i)
    ensures !AlwaysHolds(s, es, i)
  {
  }

  /**
   Whatever is interleaved, and however stale the work list: at every state of a run of the
   system the branch of a merge in progress was last asked to hold that merge's commit, exactly
   when no transaction of the run is undone after it had asked for the deletion of that branch.
   What happens to other merges, and to tries, does not matter.
   */
  lemma MergeBranchHoldsItsCommit(s: Sys, es: seq<Event>, i: nat)
    requires Initial(s) && ValidTrace(s, es)
    ensures AlwaysHolds(s, es, i) <==> NoBranchUndone(s, es, i)
    ensures NoBranchUndone(s, es, i) && Merging(RunTrace(s, es).w, i) ==>
              var w := RunTrace(s, es).w;
              w.db.runs[i].sha.Some? && BranchOf(w, i) == w.db.runs[i].sha
  {
    hide BranchOf;
    InitialSysInv(s);
    BranchesOverRuns(s, es, i);
    TraceKeepsSysInv(s, es);
    AllRowsCoherent(RunTrace(s, es).w);
    assert Merging(RunTrace(s, es).w, i) ==> Coherent(RunTrace(s, es).w.db.runs[i]);
  }

  /**
   The plainest such transaction: a cancel command whose commit is refused leaves its merge in
   progress, as it was, but without a branch.
   */
  lemma UndoneCancelLosesTheBranch(s: Sys, e: Event, v: nat)
    requires SysInv(s) && e.CancelCommand? && !e.commit && e.cancelled.can == Some(true)
    requires v in s.w.db.runs && s.w.db.runs[v].status.InProgress?
    requires s.w.db.runs[v].repo == e.repo && s.w.db.runs[v].pr == e.pr.number
    requires e.cancelled.cancel.stored && e.cancelled.cancel.workflows.Some?
    ensures var s2 := Apply(s, e);
            && s2.w.db == s.w.db
            && Asked(s2.w, GroupOf(s.w.db.runs[v])) == None
  {
    hide Inv, UpsertRow, UpsertPr, NewRow, CancelRun, BranchAsked;
    var w, repo, pr := s.w, e.repo, e.pr.number;
    AllRowsCoherent(w);
    assert Coherent(w.db.runs[v]);
    ActiveFacts(w, repo, pr);
    var active := Active(w.db.runs, w.next, repo, pr).value;
    var row := NewRow(e.pr, e.user, repo, w.now);
    var w1 := SetPrs(w, UpsertPr(w.db.prs, row));
    CancelAsks(w1, repo, active, UpsertRow(w.db.prs, row), e.cancelled.cancel);
    SendAsks(CancelRun(w1, repo, active, UpsertRow(w.db.prs, row), e.cancelled.cancel).w.hub.requests,
             Comment(repo, pr, RunCancelled));
  }

  /**
   A try does not have that guarantee. Let a new try `u` have taken the branch of the try `v`
   it superseded, while `v` is still in the scheduler's list. Handling `v` leaves `u` in
   progress, but asks for the deletion of the branch exactly when `v`, as it was read, failed
   or is overdue, and its failure is stored and announced.
   */
  lemma SupersededTryTakesTheBranch(w: World, v: Run, u: nat, a: HandleAnswers)
    requires Inv(w) && v.id in w.db.runs && w.db.runs[v.id].completedAt.Some? && v.startedAt.Some?
             && v.completedAt.None?
    requires (v.repo, v.pr) in w.db.prs
    requires u in w.db.runs && w.db.runs[u].status.InProgress? && SameGroup(w.db.runs[u], v)
    requires Asked(w, GroupOf(v)) == w.db.runs[u].sha
    ensures var w2 := HandleRun(w, v, a).w;
            && u in w2.db.runs && w2.db.runs[u] == w.db.runs[u]
            && var deleted := RefreshFails(w, v.repo, v.startedAt.value, a.refresh) && a.refresh.fail.message;
               Asked(w2, GroupOf(v)) == if deleted then None else w.db.runs[u].sha
  {
    hide Refresh, Inv, BranchAsked, RefreshFails;
    AllRowsCoherent(w);
    assert Coherent(w.db.runs[u]);
    var pr := w.db.prs[(v.repo, v.pr)];
    StaleRefresh(w, v.repo, v, pr, a.refresh);
    StaleRefreshAsks(w, v.repo, v, pr, a.refresh);
  }

  lemma StaleRefreshAsks(w: World, repo: int, run: Run, pr: PrRow, a: RefreshAnswers)
    requires run.id in w.db.runs && w.db.runs[run.id].completedAt.Some? && run.startedAt.Some? && run.completedAt.None?
    ensures Asked(Refresh(w, repo, run, pr, a).w, GroupFor(repo, run)) ==
            if RefreshFails(w, repo, run.startedAt.value, a) && a.fail.message then None
            else Asked(w, GroupFor(repo, run))
  {
    hide Refresh, Judge, ByName, BranchAsked;
    RefreshAsks(w, repo, run, pr, a);
  }
}
