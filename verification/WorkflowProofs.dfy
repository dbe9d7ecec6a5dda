/** What each step of a run's life writes, and that it keeps the invariant. */
module WorkflowProofs {
  import opened Basics
  import opened CiRuns
  import opened Checks
  import opened PrRows
  import opened Labels
  import opened Store
  import opened Workflow
  import opened Invariants

  // ---- The rows after each update, column by column ----

  function FailedRows(runs: Rows, id: nat, now: int): Rows {
    if id in runs then runs[id := runs[id].(status := Failure, completedAt := Some(now))] else runs
  }

  function CancelledRows(runs: Rows, id: nat, now: int): Rows {
    if id in runs && runs[id].completedAt.None?
    then runs[id := runs[id].(status := Cancelled, completedAt := Some(now))] else runs
  }

  function SuccessRows(runs: Rows, id: nat, now: int): Rows {
    if id in runs && runs[id].completedAt.None?
    then runs[id := runs[id].(status := Success, completedAt := Some(now))] else runs
  }

  function StartedRows(runs: Rows, id: nat, sha: string, now: int): Rows {
    if id in runs && runs[id].status.Queued?
    then runs[id := runs[id].(status := InProgress, sha := Some(sha), startedAt := Some(now))] else runs
  }

  /** Only run rows, pull request rows, labels and requests may differ. */
  ghost predicate Quiet(w: World, w2: World) {
    SameCore(w, w2) && w2.hub.pushes == w.hub.pushes && w2.hub.minted == w.hub.minted
  }

  // ---- What is written ----

  lemma LabelsWrite(w: World, repo: int, pr: PrRow, status: Status, dry: bool, a: LabelAnswers)
    ensures var o := UpdateLabels(w, repo, pr, status, dry, a);
            Quiet(w, o.w) && o.w.db.runs == w.db.runs
  {
    hide LabelsSettled, LabelsAfter;
  }

  lemma FailWrites(w: World, repo: int, run: Run, pr: PrRow, note: Note, a: FailAnswers)
    ensures var o := Fail(w, repo, run, pr, note, a);
            Quiet(w, o.w) && o.w.db.runs == if a.stored then FailedRows(w.db.runs, run.id, w.now) else w.db.runs
  {
    hide UpdateLabels;
    var w3 := Send(Send(SetRuns(w, FailedRows(w.db.runs, run.id, w.now)), Comment(repo, pr.number, note)),
                   DeleteBranch(repo, run.ciBranch));
    LabelsWrite(w3, repo, pr, Failure, run.dry, a.labels);
  }

  lemma FailedStartWrites(w: World, repo: int, run: Run, pr: PrRow, note: Note, a: FailAnswers)
    ensures var o := FailedStart(w, repo, run, pr, note, a);
            Quiet(w, o.w) && o.w.db.runs == if a.stored then FailedRows(w.db.runs, run.id, w.now) else w.db.runs
  {
    hide Fail;
    FailWrites(w, repo, run, pr, note, a);
  }

  /** The ways `start` may leave the run table, given the merge commit it made. */
  ghost predicate StartOutcome(w: World, w2: World, repo: int, id: nat, a: StartAnswers) {
    && SameCore(w, w2) && w2.hub.pushes == w.hub.pushes
    && (|| (w2.hub.minted == w.hub.minted
            && (w2.db.runs == w.db.runs || w2.db.runs == FailedRows(w.db.runs, id, w.now)))
        || (a.merge.MergedAs? && w2.hub.minted == w.hub.minted[a.merge.sha := repo]
            && var started := StartedRows(w.db.runs, id, a.merge.sha, w.now);
               w2.db.runs == w.db.runs || w2.db.runs == started || w2.db.runs == FailedRows(started, id, w.now)))
  }

  lemma StartOnWrites(w: World, repo: int, run: Run, pr: PrRow, base: string, a: StartAnswers)
    ensures StartOutcome(w, StartOn(w, repo, run, pr, base, a).w, repo, run.id, a)
  {
    hide Fail, FailedStart, UpdateLabels;
    var w1 := Send(w, MakeMerge(repo, base, run.head));
    match a.merge
    case MergeClash => FailedStartWrites(w1, repo, run, pr, MergeConflict, a.fail);
    case MergeErr => FailedStartWrites(w1, repo, run, pr, MergeFailed, a.fail);
    case MergedAs(sha) =>
      var w2 := Mint(w1, sha, repo);
      var w4 := Send(SetRuns(w2, StartedRows(w.db.runs, run.id, sha, w.now)), PushCi(repo, run.ciBranch, sha));
      FailedStartWrites(w4, repo, run, pr, CiPushFailed, a.fail);
      LabelsWrite(Send(w4, Comment(repo, run.pr, TestsStarted)), repo, pr, InProgress, run.dry, a.labels);
  }

  lemma StartWrites(w: World, repo: int, run: Run, pr: PrRow, a: StartAnswers)
    ensures StartOutcome(w, Start(w, repo, run, pr, a).w, repo, run.id, a)
  {
    hide StartOn, FailedStart;
    match run.base
    case Commit(sha) => StartOnWrites(w, repo, run, pr, sha, a);
    case Branch(_) =>
      match a.base
      case BranchErr =>
      case NoBranch => FailedStartWrites(w, repo, run, pr, BaseMissing, a.fail);
      case BranchAt(sha) => StartOnWrites(w, repo, run, pr, sha, a);
  }

  /** Unless an error was answered, the row is not queued. */
  ghost predicate OffQueue(o: Out, id: nat) {
    o.res.Ok? && id in o.w.db.runs ==> !o.w.db.runs[id].status.Queued?
  }

  lemma FailTakesOffQueue(w: World, repo: int, run: Run, pr: PrRow, note: Note, a: FailAnswers)
    ensures OffQueue(FailedStart(w, repo, run, pr, note, a), run.id)
  {
    hide UpdateLabels;
    FailWrites(w, repo, run, pr, note, a);
  }

  lemma StartOnTakesOffQueue(w: World, repo: int, run: Run, pr: PrRow, base: string, a: StartAnswers)
    ensures OffQueue(StartOn(w, repo, run, pr, base, a), run.id)
  {
    hide FailedStart, UpdateLabels;
    var w1 := Send(w, MakeMerge(repo, base, run.head));
    match a.merge
    case MergeClash => FailTakesOffQueue(w1, repo, run, pr, MergeConflict, a.fail);
    case MergeErr => FailTakesOffQueue(w1, repo, run, pr, MergeFailed, a.fail);
    case MergedAs(sha) =>
      var runs2 := StartedRows(w.db.runs, run.id, sha, w.now);
      assert run.id in runs2 ==> !runs2[run.id].status.Queued?;
      var w4 := Send(SetRuns(Mint(w1, sha, repo), runs2), PushCi(repo, run.ciBranch, sha));
      FailTakesOffQueue(w4, repo, run, pr, CiPushFailed, a.fail);
      LabelsWrite(Send(w4, Comment(repo, run.pr, TestsStarted)), repo, pr, InProgress, run.dry, a.labels);
  }

  /** A start that answers without an error leaves no queued row. */
  lemma StartTakesOffQueue(w: World, repo: int, run: Run, pr: PrRow, a: StartAnswers)
    ensures OffQueue(Start(w, repo, run, pr, a), run.id)
  {
    hide StartOn, FailedStart;
    if run.base.Commit? {
      StartOnTakesOffQueue(w, repo, run, pr, run.base.sha, a);
    } else if a.base.NoBranch? {
      FailTakesOffQueue(w, repo, run, pr, BaseMissing, a.fail);
    } else if a.base.BranchAt? {
      StartOnTakesOffQueue(w, repo, run, pr, a.base.sha, a);
    }
  }

  lemma {:induction false} StopAllIsQuiet(w: World, repo: int, sha: string, workflows: seq<WorkflowRun>)
    ensures var w2 := StopAll(w, repo, sha, workflows);
            Quiet(w, w2) && w2.db == w.db
  {
    if workflows != [] {
      StopAllIsQuiet(w, repo, sha, workflows[..|workflows| - 1]);
    }
  }

  lemma CancelWrites(w: World, repo: int, run: Run, pr: PrRow, a: CancelAnswers)
    ensures var o := CancelRun(w, repo, run, pr, a);
            && Quiet(w, o.w)
            && o.w.db.runs == (if a.stored then CancelledRows(w.db.runs, run.id, w.now) else w.db.runs)
            && (o.res.Ok? ==> a.stored)
  {
    hide UpdateLabels, StopAll;
    var w1 := SetRuns(w, CancelledRows(w.db.runs, run.id, w.now));
    LabelsWrite(w1, repo, pr, Cancelled, run.dry, a.labels);
    if run.sha.Some? && a.workflows.Some? {
      StopAllIsQuiet(w1, repo, run.sha.value, a.workflows.value);
      var w2 := Send(StopAll(w1, repo, run.sha.value, a.workflows.value), DeleteBranch(repo, run.ciBranch));
      LabelsWrite(w2, repo, pr, Cancelled, run.dry, a.labels);
    }
  }

  /** The push `success` makes, if it gets that far. */
  function PushOf(w: World, repo: int, run: Run, pr: PrRow, a: SuccessAnswers): Push
    requires run.sha.Some?
  {
    Push(run.id, repo, pr.targetBranch, run.sha.value, a.push, w.db.checks)
  }

  /** The ways `success` may leave the run table and the log. */
  ghost predicate SuccessOutcome(w: World, w2: World, repo: int, run: Run, pr: PrRow, a: SuccessAnswers) {
    && SameCore(w, w2) && w2.hub.minted == w.hub.minted
    && (|| w2.hub.pushes == w.hub.pushes
        || (run.sha.Some? && !run.dry && w2.hub.pushes == w.hub.pushes + [PushOf(w, repo, run, pr, a)]))
    && (|| (w2.db.runs == w.db.runs && w2.hub.pushes == w.hub.pushes)
        || (Reaches(w.db.runs, run.id, NotDone)
            && var done := SuccessRows(w.db.runs, run.id, w.now);
               w2.db.runs == done || w2.db.runs == FailedRows(done, run.id, w.now)))
  }

  lemma SucceedWrites(w: World, repo: int, run: Run, pr: PrRow, a: SuccessAnswers)
    ensures SuccessOutcome(w, Succeed(w, repo, run, pr, a).w, repo, run, pr, a)
  {
    hide Fail, UpdateLabels;
    var w1 := SetRuns(w, SuccessRows(w.db.runs, run.id, w.now));
    if run.sha.Some? {
      var w2 := Send(w1, Comment(repo, run.pr, TestsPassed));
      LabelsWrite(Send(w2, DeleteBranch(repo, run.ciBranch)), repo, pr, Success, run.dry, a.labels);
      var w3 := LogPush(Send(w1, Comment(repo, run.pr, TestsPassedMerge)), PushOf(w, repo, run, pr, a));
      FailWrites(w3, repo, run, pr, PushRefused, a.fail);
      LabelsWrite(Send(w3, DeleteBranch(repo, run.ciBranch)), repo, pr, Success, run.dry, a.labels);
    }
  }

  /** Once its update is stored, `success` leaves the run completed. */
  lemma SucceedCompletes(w: World, repo: int, run: Run, pr: PrRow, a: SuccessAnswers)
    requires run.id in w.db.runs && a.stored
    ensures var runs := Succeed(w, repo, run, pr, a).w.db.runs;
            && run.id in runs && runs[run.id].completedAt.Some?
            && (Reaches(w.db.runs, run.id, NotDone) ==> runs[run.id].status.Success? || runs[run.id].status.Failure?)
  {
    hide Fail, UpdateLabels;
    var w1 := SetRuns(w, SuccessRows(w.db.runs, run.id, w.now));
    if run.sha.Some? {
      var w2 := Send(w1, Comment(repo, run.pr, TestsPassed));
      LabelsWrite(Send(w2, DeleteBranch(repo, run.ciBranch)), repo, pr, Success, run.dry, a.labels);
      var w3 := LogPush(Send(w1, Comment(repo, run.pr, TestsPassedMerge)), PushOf(w, repo, run, pr, a));
      FailWrites(w3, repo, run, pr, PushRefused, a.fail);
      LabelsWrite(Send(w3, DeleteBranch(repo, run.ciBranch)), repo, pr, Success, run.dry, a.labels);
    }
  }

  /**
   When `success` claims a merge run it ends in Failure exactly when its push was made, refused,
   and the failure could be stored; and it pushes exactly when the approvers could be fetched
   and the comment was sent. A Success row is no proof of a push.
   */
  lemma SuccessEndsIn(w: World, repo: int, run: Run, pr: PrRow, a: SuccessAnswers)
    requires a.stored && Reaches(w.db.runs, run.id, NotDone) && run.sha.Some? && !run.dry
    ensures var w2 := Succeed(w, repo, run, pr, a).w;
            var pushed := w2.hub.pushes != w.hub.pushes;
            && run.id in w2.db.runs && (pushed <==> a.users && a.message)
            && var status := w2.db.runs[run.id].status;
               && (status.Failure? <==> pushed && !a.push && a.fail.stored)
               && (status.Success? <==> !(pushed && !a.push && a.fail.stored))
  {
    hide Fail, UpdateLabels;
    var w1 := SetRuns(w, SuccessRows(w.db.runs, run.id, w.now));
    var p := PushOf(w, repo, run, pr, a);
    assert |w.hub.pushes + [p]| == |w.hub.pushes| + 1;
    var w3 := LogPush(Send(w1, Comment(repo, run.pr, TestsPassedMerge)), p);
    FailWrites(w3, repo, run, pr, PushRefused, a.fail);
    LabelsWrite(Send(w3, DeleteBranch(repo, run.ciBranch)), repo, pr, Success, run.dry, a.labels);
  }

  // ---- The invariant is kept ----

  lemma OneWriteKeepsInv(w: World, w2: World, id: nat, r: Run)
    requires Inv(w) && Quiet(w, w2) && w2.db.runs == w.db.runs[id := r]
    requires MayWrite(w.db.runs, id, r, w.hub.minted, w.db.checks, w.conf)
    ensures Inv(w2)
  {
    WriteKeepsRuns(w.db.runs, w.next, w.hub.minted, w.conf, id, r, w.db.checks);
    WriteKeepsLog(w.db.runs, w.db.checks, w.hub, w.conf, id, r, w.hub.minted);
    assert PushesJustified(w2.hub.pushes, w2.db.runs, w2.hub.reports, w2.conf);
  }

  lemma FailRowsKeepInv(w: World, w2: World, id: nat)
    requires Inv(w) && Quiet(w, w2) && w2.db.runs == FailedRows(w.db.runs, id, w.now)
    ensures Inv(w2)
  {
    if id in w.db.runs {
      OneWriteKeepsInv(w, w2, id, Patch(w.db.runs[id], Finish(Failure, w.now)));
    } else {
      SameRunsKeepInv(w, w2);
    }
  }

  lemma SameRunsKeepInv(w: World, w2: World)
    requires Inv(w) && Quiet(w, w2) && w2.db.runs == w.db.runs
    ensures Inv(w2)
  {
    assert PushesJustified(w2.hub.pushes, w2.db.runs, w2.hub.reports, w2.conf);
  }

  lemma FailKeepsInv(w: World, repo: int, run: Run, pr: PrRow, note: Note, a: FailAnswers)
    requires Inv(w)
    ensures Inv(Fail(w, repo, run, pr, note, a).w)
  {
    var w2 := Fail(w, repo, run, pr, note, a).w;
    FailWrites(w, repo, run, pr, note, a);
    if a.stored {
      FailRowsKeepInv(w, w2, run.id);
    } else {
      SameRunsKeepInv(w, w2);
    }
  }

  lemma CancelKeepsInv(w: World, repo: int, run: Run, pr: PrRow, a: CancelAnswers)
    requires Inv(w)
    ensures Inv(CancelRun(w, repo, run, pr, a).w)
  {
    var w2 := CancelRun(w, repo, run, pr, a).w;
    CancelWrites(w, repo, run, pr, a);
    if a.stored && Reaches(w.db.runs, run.id, NotDone) {
      OneWriteKeepsInv(w, w2, run.id, Patch(w.db.runs[run.id], Finish(Cancelled, w.now)));
    } else {
      SameRunsKeepInv(w, w2);
    }
  }

  /** A run as it was read at some earlier time. */
  ghost predicate Snapshot(run: Run, runs: Rows) {
    run.id in runs && Coherent(run) && Evolves(run, runs[run.id])
  }

  lemma StartKeepsInv(w: World, repo: int, run: Run, pr: PrRow, a: StartAnswers)
    requires Inv(w) && run.id in w.db.runs && w.db.runs[run.id].repo == repo
    requires a.merge.MergedAs? ==> a.merge.sha !in w.hub.minted
    requires w.db.runs[run.id].status.Queued? ==>
               forall i :: i in w.db.runs && SameGroup(w.db.runs[i], w.db.runs[run.id]) ==>
                 !w.db.runs[i].status.InProgress?
    ensures Inv(Start(w, repo, run, pr, a).w)
  {
    var w2 := Start(w, repo, run, pr, a).w;
    StartWrites(w, repo, run, pr, a);
    if a.merge.MergedAs? && w2.hub.minted == w.hub.minted[a.merge.sha := repo] {
      var m := Mint(w, a.merge.sha, repo);
      MintKeeps(w.db.runs, w.next, w.hub.minted, w.conf, a.merge.sha, repo);
      assert Inv(m);
      StartRowsKeepInv(m, w2, repo, run.id, a.merge.sha);
    } else if w2.db.runs == w.db.runs {
      SameRunsKeepInv(w, w2);
    } else {
      FailRowsKeepInv(w, w2, run.id);
    }
  }

  lemma StartRowsKeepInv(m: World, w2: World, repo: int, id: nat, sha: string)
    requires Inv(m) && Quiet(m, w2) && id in m.db.runs && m.db.runs[id].repo == repo
    requires sha in m.hub.minted && m.hub.minted[sha] == repo
    requires forall i :: i in m.db.runs ==> m.db.runs[i].sha != Some(sha)
    requires m.db.runs[id].status.Queued? ==>
               forall i :: i in m.db.runs && SameGroup(m.db.runs[i], m.db.runs[id]) ==> !m.db.runs[i].status.InProgress?
    requires || w2.db.runs == m.db.runs
             || w2.db.runs == FailedRows(m.db.runs, id, m.now)
             || w2.db.runs == StartedRows(m.db.runs, id, sha, m.now)
             || w2.db.runs == FailedRows(StartedRows(m.db.runs, id, sha, m.now), id, m.now)
    ensures Inv(w2)
  {
    var started := SetRuns(m, StartedRows(m.db.runs, id, sha, m.now));
    if m.db.runs[id].status.Queued? {
      OneWriteKeepsInv(m, started, id, Patch(m.db.runs[id], Begin(sha, m.now)));
    }
    assert Inv(started);
    if w2.db.runs == m.db.runs {
      SameRunsKeepInv(m, w2);
    } else if w2.db.runs == FailedRows(m.db.runs, id, m.now) {
      FailRowsKeepInv(m, w2, id);
    } else if w2.db.runs == started.db.runs {
      SameRunsKeepInv(started, w2);
    } else {
      FailRowsKeepInv(started, w2, id);
    }
  }

  lemma PushKeepsInv(w: World, w2: World, p: Push)
    requires Inv(w) && SameCore(w, w2) && w2.db.runs == w.db.runs && w2.hub.minted == w.hub.minted
    requires w2.hub.pushes == w.hub.pushes + [p] && Justified(p, w.db.runs, w.hub.reports, w.conf)
    ensures Inv(w2)
  {
    forall k | 0 <= k < |w2.hub.pushes|
      ensures Justified(w2.hub.pushes[k], w2.db.runs, w2.hub.reports, w2.conf)
    {
      if k < |w.hub.pushes| {
        assert Justified(w.hub.pushes[k], w.db.runs, w.hub.reports, w.conf);
      }
    }
  }

  /** Green check rows of a started run justify pushing its commit. */
  lemma GreenJustifies(w: World, repo: int, run: Run, pr: PrRow, a: SuccessAnswers)
    requires Inv(w) && Snapshot(run, w.db.runs) && run.sha.Some? && !run.dry && run.repo == repo
    requires GreenRows(w.db.checks, run.id, RequiredBy(w.conf, repo))
    ensures Justified(PushOf(w, repo, run, pr, a), w.db.runs, w.hub.reports, w.conf)
  {
    forall k | k in w.db.checks && w.db.checks[k].run == run.id
      ensures Reported(w.hub.reports, run.sha.value, w.db.checks[k].name, w.db.checks[k].status)
    {
      assert Attached(w.db.checks[k], k, w.db.runs, w.hub.heads, w.hub.reports);
    }
  }

  lemma SuccessMayWrite(w: World, run: Run)
    requires Inv(w) && Snapshot(run, w.db.runs) && run.startedAt.Some? && Reaches(w.db.runs, run.id, NotDone)
    requires GreenRows(w.db.checks, run.id, RequiredBy(w.conf, run.repo))
    ensures MayWrite(w.db.runs, run.id, Patch(w.db.runs[run.id], Finish(Success, w.now)), w.hub.minted, w.db.checks,
                     w.conf)
  {
  }

  lemma SucceedKeepsInv(w: World, repo: int, run: Run, pr: PrRow, a: SuccessAnswers)
    requires Inv(w) && Snapshot(run, w.db.runs) && run.startedAt.Some? && run.repo == repo
    requires GreenRows(w.db.checks, run.id, RequiredBy(w.conf, repo))
    ensures Inv(Succeed(w, repo, run, pr, a).w)
  {
    hide Succeed, Inv, GreenRows, Snapshot, MayWrite, Justified;
    var w2 := Succeed(w, repo, run, pr, a).w;
    SucceedWrites(w, repo, run, pr, a);
    var v := w;
    if w2.hub.pushes != w.hub.pushes {
      GreenJustifies(w, repo, run, pr, a);
      v := LogPush(w, PushOf(w, repo, run, pr, a));
      PushKeepsInv(w, v, PushOf(w, repo, run, pr, a));
    }
    if w2.db.runs == w.db.runs {
      SameRunsKeepInv(v, w2);
    } else {
      SuccessMayWrite(w, run);
      var s := SetRuns(v, SuccessRows(w.db.runs, run.id, w.now));
      OneWriteKeepsInv(v, s, run.id, Patch(w.db.runs[run.id], Finish(Success, w.now)));
      if w2.db.runs == s.db.runs {
        SameRunsKeepInv(s, w2);
      } else {
        FailRowsKeepInv(s, w2, run.id);
      }
    }
  }

  lemma RefreshKeepsInv(w: World, repo: int, run: Run, pr: PrRow, a: RefreshAnswers)
    requires Inv(w) && Snapshot(run, w.db.runs) && run.repo == repo
    requires a.rows.Some? ==> RowsFor(a.rows.value, w.db.checks, run.id)
    ensures Inv(Refresh(w, repo, run, pr, a).w)
  {
    if run.completedAt.None? && run.startedAt.Some? && a.rows.Some? {
      var v := Judge(ConfigOf(w, repo).required, ByName(a.rows.value));
      if v.Green? {
        GreenIsBacked(w.db.checks, run.id, a.rows.value, ConfigOf(w, repo).required);
        SucceedKeepsInv(w, repo, run, pr, a.success);
      } else if v.Broken? {
        FailKeepsInv(w, repo, run, pr, TestsFailed(v.check.name), a.fail);
      } else if TimedOut(w, repo, run.startedAt.value) {
        FailKeepsInv(w, repo, run, pr, TestsTimedOut, a.fail);
      }
    }
  }

  /** The ways `refresh` may leave the run table and the log. */
  ghost predicate RefreshOutcome(w: World, w2: World, repo: int, run: Run, pr: PrRow, a: RefreshAnswers) {
    && SameCore(w, w2) && w2.hub.minted == w.hub.minted
    && (|| (w2.db.runs == w.db.runs && w2.hub.pushes == w.hub.pushes)
        || (run.completedAt.None? && run.startedAt.Some? && a.rows.Some?
            && var v := Judge(ConfigOf(w, repo).required, ByName(a.rows.value));
               if v.Green? then SuccessOutcome(w, w2, repo, run, pr, a.success)
               else w2.hub.pushes == w.hub.pushes && w2.db.runs == FailedRows(w.db.runs, run.id, w.now)
                    && (v.Broken? || TimedOut(w, repo, run.startedAt.value))))
  }

  lemma RefreshWrites(w: World, repo: int, run: Run, pr: PrRow, a: RefreshAnswers)
    ensures RefreshOutcome(w, Refresh(w, repo, run, pr, a).w, repo, run, pr, a)
  {
    hide Fail, Succeed, Judge, ByName;
    if run.completedAt.None? && run.startedAt.Some? && a.rows.Some? {
      var v := Judge(ConfigOf(w, repo).required, ByName(a.rows.value));
      if v.Green? {
        SucceedWrites(w, repo, run, pr, a.success);
      } else if v.Broken? {
        FailWrites(w, repo, run, pr, TestsFailed(v.check.name), a.fail);
      } else {
        FailWrites(w, repo, run, pr, TestsTimedOut, a.fail);
      }
    }
  }
}
