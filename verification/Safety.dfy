/** What holds over every run of the server, however its steps interleave. */
module Safety {
  import opened Basics
  import opened CiRuns
  import opened Checks
  import opened PrRows
  import opened Labels
  import opened Store
  import opened Workflow
  import opened Handlers
  import opened Scheduler
  import opened System
  import opened Invariants
  import opened WorkflowProofs
  import opened HandlerProofs
  import opened SystemProofs
  import opened Commands

  /** States some run of the system passes through. */
  ghost predicate Reachable(s: Sys) {
    exists s0, es :: Initial(s0) && ValidTrace(s0, es) && RunTrace(s0, es) == s
  }

  lemma ReachableInv(s: Sys)
    requires Reachable(s)
    ensures SysInv(s)
  {
    hide SysInv;
    var s0, es :| Initial(s0) && ValidTrace(s0, es) && RunTrace(s0, es) == s;
    InitialSysInv(s0);
    TraceKeepsSysInv(s0, es);
  }

  // ---- Pushes to target branches ----

  /**
   Whatever the bot pushed to a target branch is the commit of a merge run, never of a try, and
   at that moment every required check had a Success row that GitHub had reported for that commit.
   */
  lemma PushedCommitsAreTested(s: Sys, k: nat, n: string)
    requires Reachable(s) && k < |s.w.hub.pushes|
    ensures var p := s.w.hub.pushes[k];
            && p.run in s.w.db.runs && !s.w.db.runs[p.run].dry && s.w.db.runs[p.run].sha == Some(p.sha)
            && s.w.db.runs[p.run].repo == p.repo
            && (n in RequiredBy(s.w.conf, p.repo) ==>
                  && (exists c :: c in p.table && p.table[c].run == p.run && p.table[c].name == n
                                  && p.table[c].status.CheckSuccess?)
                  && Report(p.sha, n, Some(ConclSuccess)) in s.w.hub.reports)
  {
    ReachableInv(s);
    var p := s.w.hub.pushes[k];
    assert Justified(p, s.w.db.runs, s.w.hub.reports, s.w.conf);
    if n in RequiredBy(s.w.conf, p.repo) {
      var c :| c in p.table && p.table[c].run == p.run && p.table[c].name == n && p.table[c].status.CheckSuccess?;
      assert Reported(s.w.hub.reports, p.sha, p.table[c].name, p.table[c].status);
    }
  }

  function PushesOf(pushes: seq<Push>, run: nat): nat {
    if pushes == [] then 0
    else PushesOf(pushes[..|pushes| - 1], run) + if pushes[|pushes| - 1].run == run then 1 else 0
  }

  lemma PushesOfSnoc(pushes: seq<Push>, p: Push, run: nat)
    ensures PushesOf(pushes + [p], run) == PushesOf(pushes, run) + if p.run == run then 1 else 0
  {
    assert (pushes + [p])[..|pushes|] == pushes;
  }

  /** Handling a run pushes at most once, like a transaction. */
  lemma HandlePushesOnce(w: World, run: Run, a: HandleAnswers, horizon: nat)
    requires Inv(w) && WorkItem(run, w.db.runs, horizon) && TrueRows(a.refresh, w.db.checks, run.id)
    ensures OnePush(w, HandleRun(w, run, a).w)
  {
    hide Inv, Start, Refresh, Judge, ByName;
    if (run.repo, run.pr) in w.db.prs {
      var pr := w.db.prs[(run.repo, run.pr)];
      if run.startedAt.None? {
        StartWrites(w, run.repo, run, pr, a.start);
      } else {
        var w2 := Refresh(w, run.repo, run, pr, a.refresh).w;
        RefreshWrites(w, run.repo, run, pr, a.refresh);
        if w2.hub.pushes != w.hub.pushes {
          GreenIsBacked(w.db.checks, run.id, a.refresh.rows.value, ConfigOf(w, run.repo).required);
          GreenJustifies(w, run.repo, run, pr, a.refresh.success);
        }
      }
    }
  }

  /** A transaction that pushed a run and was then rolled back. */
  ghost predicate RollsBackPush(s: Sys, e: Event, run: nat) {
    IsWebhook(e)
    && var o := Result(Heard(s.w, e), e);
       o.w.hub.pushes != [] && o.w.hub.pushes != s.w.hub.pushes && o.w.hub.pushes[|o.w.hub.pushes| - 1].run == run
       && !(o.res.Ok? && e.commit)
  }

  /** A step that pushes a run. */
  ghost predicate PushesRun(s: Sys, e: Event, run: nat)
    requires e.Handle? || e.Skip? ==> s.work != []
  {
    var pushes := Apply(s, e).w.hub.pushes;
    pushes != [] && pushes != s.w.hub.pushes && pushes[|pushes| - 1].run == run
  }

  /**
   A step pushes at most once, a run that was not completed, and leaves it completed exactly
   when its transaction is not rolled back.
   */
  lemma StepPushes(s: Sys, e: Event)
    requires SysInv(s) && Enabled(s, e)
    ensures var runs, s2 := s.w.db.runs, Apply(s, e);
            || s2.w.hub.pushes == s.w.hub.pushes
            || (s2.w.hub.pushes != [] && var p := s2.w.hub.pushes[|s2.w.hub.pushes| - 1];
                && s2.w.hub.pushes == s.w.hub.pushes + [p]
                && p.run in runs && runs[p.run].completedAt.None? && p.run in s2.w.db.runs
                && (s2.w.db.runs[p.run].completedAt.Some? <==> !RollsBackPush(s, e, p.run)))
  {
    hide Inv, Result, HandleRun;
    if IsWebhook(e) {
      HandlerIsGood(s, e);
    } else if e.Handle? {
      assert WorkItem(s.work[0], s.w.db.runs, s.horizon);
      HandlePushesOnce(s.w, s.work[0], e.handled, s.horizon);
    }
  }

  /** Rows evolve over every step. */
  lemma StepEvolves(s: Sys, e: Event)
    requires SysInv(s) && Enabled(s, e)
    ensures RowsEvolve(s.w.db.runs, Apply(s, e).w.db.runs, s.w.next) && Apply(s, e).w.next >= s.w.next
  {
    hide Inv, Result, HandleRun;
    if IsWebhook(e) {
      HandlerIsGood(s, e);
      TransactionIsGentle(Heard(s.w, e), Result(Heard(s.w, e), e), e.commit);
      forall i | i in s.w.db.runs
        ensures i in Apply(s, e).w.db.runs && Evolves(s.w.db.runs[i], Apply(s, e).w.db.runs[i])
      {
        assert GentleRow(s.w.db.runs[i], Apply(s, e).w.db.runs[i]);
      }
    } else if e.Handle? {
      AllRowsCoherent(s.w);
      assert WorkItem(s.work[0], s.w.db.runs, s.horizon);
      HandleOnlyWrites(s.w, s.work[0], e.handled);
      HandleKeepsInv(s.w, s.work[0], e.handled, s.horizon);
    }
  }

  /**
   Over any part of any run: rows keep their identity, the run commit and the start are written
   at most once, a completed row stays completed and can only turn into Failure, and nothing
   goes back to the queue.
   */
  lemma {:induction false} RowsEvolveOverRuns(s: Sys, es: seq<Event>)
    requires SysInv(s) && ValidTrace(s, es)
    ensures RowsEvolve(s.w.db.runs, RunTrace(s, es).w.db.runs, s.w.next)
    decreases |es|
  {
    hide SysInv, Apply;
    if es != [] {
      var s1 := Apply(s, es[0]);
      StepKeepsSysInv(s, es[0]);
      StepEvolves(s, es[0]);
      RowsEvolveOverRuns(s1, es[1..]);
      var a, b, c := s.w.db.runs, s1.w.db.runs, RunTrace(s1, es[1..]).w.db.runs;
      forall i | i in a
        ensures i in c && Evolves(a[i], c[i])
      {
        EvolvesTrans(a[i], b[i], c[i]);
      }
    }
  }

  /** Once a run is completed, by a cancellation or otherwise, it is never pushed again. */
  lemma {:induction false} NoPushAfterCompletion(s: Sys, es: seq<Event>, run: nat)
    requires SysInv(s) && ValidTrace(s, es)
    requires run in s.w.db.runs && s.w.db.runs[run].completedAt.Some?
    ensures PushesOf(RunTrace(s, es).w.hub.pushes, run) == PushesOf(s.w.hub.pushes, run)
    decreases |es|
  {
    hide SysInv, Apply;
    if es != [] {
      var s1 := Apply(s, es[0]);
      StepKeepsSysInv(s, es[0]);
      StepEvolves(s, es[0]);
      StepPushes(s, es[0]);
      if s1.w.hub.pushes != s.w.hub.pushes {
        PushesOfSnoc(s.w.hub.pushes, s1.w.hub.pushes[|s1.w.hub.pushes| - 1], run);
      }
      NoPushAfterCompletion(s1, es[1..], run);
    }
  }

  /** No transaction that pushed the run is rolled back. */
  ghost predicate NoPushRolledBack(s: Sys, es: seq<Event>, run: nat)
    requires ValidTrace(s, es)
    decreases |es|
  {
    es == [] || (!RollsBackPush(s, es[0], run) && NoPushRolledBack(Apply(s, es[0]), es[1..], run))
  }

  /** A run that was pushed is completed, and was pushed once. */
  ghost predicate PushedOnce(s: Sys, run: nat) {
    && PushesOf(s.w.hub.pushes, run) <= 1
    && (PushesOf(s.w.hub.pushes, run) == 1 ==> run in s.w.db.runs && s.w.db.runs[run].completedAt.Some?)
  }

  lemma {:induction false} PushedOnceStays(s: Sys, es: seq<Event>, run: nat)
    requires SysInv(s) && ValidTrace(s, es) && NoPushRolledBack(s, es, run) && PushedOnce(s, run)
    ensures PushedOnce(RunTrace(s, es), run)
    decreases |es|
  {
    hide SysInv, Apply, RollsBackPush;
    if es != [] {
      var s1 := Apply(s, es[0]);
      StepKeepsSysInv(s, es[0]);
      StepEvolves(s, es[0]);
      StepPushes(s, es[0]);
      if s1.w.hub.pushes != s.w.hub.pushes {
        PushesOfSnoc(s.w.hub.pushes, s1.w.hub.pushes[|s1.w.hub.pushes| - 1], run);
      }
      PushedOnceStays(s1, es[1..], run);
    }
  }

  /** A run none of whose own pushes is rolled back is pushed at most once, over the whole history. */
  lemma EachRunPushedAtMostOnce(s: Sys, es: seq<Event>, run: nat)
    requires Initial(s) && ValidTrace(s, es) && NoPushRolledBack(s, es, run)
    ensures PushesOf(RunTrace(s, es).w.hub.pushes, run) <= 1
  {
    InitialSysInv(s);
    PushedOnceStays(s, es, run);
  }

  /** The run is pushed once more in some continuation. */
  ghost predicate CanBePushed(s: Sys, run: nat) {
    exists es :: ValidTrace(s, es) && PushesOf(RunTrace(s, es).w.hub.pushes, run) > PushesOf(s.w.hub.pushes, run)
  }

  /** After a step that pushed a run, the run can be pushed again exactly when the step was rolled back. */
  lemma PushedAgainExactly(s: Sys, e: Event, run: nat)
    requires SysInv(s) && Enabled(s, e)
    ensures PushesRun(s, e, run) ==> (CanBePushed(Apply(s, e), run) <==> RollsBackPush(s, e, run))
  {
    hide SysInv, Apply, RollsBackPush;
    var s1 := Apply(s, e);
    StepKeepsSysInv(s, e);
    StepPushes(s, e);
    if PushesRun(s, e, run) {
      if RollsBackPush(s, e, run) {
        RolledBackPushRepeats(s, e, run);
        assert ValidTrace(s1, [e]) by { OneStep(s1, e); }
        OneStep(s1, e);
      } else if CanBePushed(s1, run) {
        var es :| ValidTrace(s1, es) && PushesOf(RunTrace(s1, es).w.hub.pushes, run) > PushesOf(s1.w.hub.pushes, run);
        NoPushAfterCompletion(s1, es, run);
      }
    }
  }

  lemma OneStep(s: Sys, e: Event)
    requires Enabled(s, e)
    ensures ValidTrace(s, [e]) && RunTrace(s, [e]) == Apply(s, e)
  {
    assert [e][1..] == [];
    assert ValidTrace(Apply(s, e), []);
    assert RunTrace(Apply(s, e), []) == Apply(s, e);
  }

  /** What it takes for `success` to push. */
  predicate SuccessPushes(w: World, run: Run, a: SuccessAnswers) {
    a.stored && Reaches(w.db.runs, run.id, NotDone) && run.sha.Some? && !run.dry && a.users && a.message
  }

  lemma SucceedPushesExactly(w: World, repo: int, run: Run, pr: PrRow, a: SuccessAnswers)
    ensures Succeed(w, repo, run, pr, a).w.hub.pushes ==
            if SuccessPushes(w, run, a) then w.hub.pushes + [PushOf(w, repo, run, pr, a)] else w.hub.pushes
  {
    hide Fail, UpdateLabels;
    var w1 := SetRuns(w, SuccessRows(w.db.runs, run.id, w.now));
    if run.sha.Some? {
      var w2 := Send(w1, Comment(repo, run.pr, TestsPassed));
      LabelsWrite(Send(w2, DeleteBranch(repo, run.ciBranch)), repo, pr, Success, run.dry, a.labels);
      var w3 := LogPush(Send(w1, Comment(repo, run.pr, TestsPassedMerge)), PushOf(w, repo, run, pr, a));
      FailWrites(w3, repo, run, pr, PushRefused, a.fail);
      LabelsWrite(Send(w3, DeleteBranch(repo, run.ciBranch)), repo, pr, Success, run.dry, a.labels);
    }
  }

  predicate RefreshPushes(w: World, repo: int, run: Run, a: RefreshAnswers) {
    && run.completedAt.None? && run.startedAt.Some? && a.rows.Some?
    && Judge(ConfigOf(w, repo).required, ByName(a.rows.value)).Green? && SuccessPushes(w, run, a.success)
  }

  /** A refresh pushes exactly when the required checks are green and `success` gets as far as the push. */
  lemma RefreshPushesExactly(w: World, repo: int, run: Run, pr: PrRow, a: RefreshAnswers)
    ensures Refresh(w, repo, run, pr, a).w.hub.pushes ==
            if RefreshPushes(w, repo, run, a) then w.hub.pushes + [PushOf(w, repo, run, pr, a.success)]
            else w.hub.pushes
  {
    hide Fail, Succeed, Judge, ByName;
    if run.completedAt.None? && run.startedAt.Some? && a.rows.Some? {
      var v := Judge(ConfigOf(w, repo).required, ByName(a.rows.value));
      SucceedPushesExactly(w, repo, run, pr, a.success);
      if v.Broken? {
        FailWrites(w, repo, run, pr, TestsFailed(v.check.name), a.fail);
      }
      FailWrites(w, repo, run, pr, TestsTimedOut, a.fail);
    }
  }

  /** Whether the check webhook gets to refresh the run it finds. */
  predicate CheckRefreshes(w: World, repo: int, c: CheckReport) {
    var found := BySha(w.db.runs, w.next, c.headSha);
    && found.Some? && found.value.completedAt.None? && (found.value.repo, found.value.pr) in w.db.prs
    && IsRequired(ConfigOf(w, repo).required, c.name)
  }

  /** Whether the check webhook gets as far as a push. */
  predicate CheckPushes(w: World, repo: int, c: CheckReport, a: RefreshAnswers) {
    CheckRefreshes(w, repo, c)
    && var run := BySha(w.db.runs, w.next, c.headSha).value;
       RefreshPushes(StoreCheck(w, repo, c, run), repo, run, a)
  }

  lemma CheckPushesExactly(w: World, repo: int, c: CheckReport, a: RefreshAnswers)
    ensures var o := CheckRun(w, repo, c, a);
            if CheckPushes(w, repo, c, a)
            then |o.w.hub.pushes| == |w.hub.pushes| + 1
                 && o.w.hub.pushes[|w.hub.pushes|].run == BySha(w.db.runs, w.next, c.headSha).value.id
                 && o.w.hub.pushes[..|w.hub.pushes|] == w.hub.pushes
            else o.w.hub.pushes == w.hub.pushes
  {
    hide Refresh, RefreshPushes, BySha;
    if CheckRefreshes(w, repo, c) {
      var run := BySha(w.db.runs, w.next, c.headSha).value;
      var w1 := StoreCheck(w, repo, c, run);
      RefreshPushesExactly(w1, repo, run, w.db.prs[(run.repo, run.pr)], a);
    }
  }

  /**
   Why the rollback has to be excluded: after a webhook that pushed a run and was rolled back,
   for whatever reason, the same webhook is possible again and pushes the run a second time.
   */
  lemma RolledBackPushRepeats(s: Sys, e: Event, run: nat)
    requires SysInv(s) && Enabled(s, e)
    ensures RollsBackPush(s, e, run) ==>
              && Enabled(Apply(s, e), e)
              && PushesOf(Apply(s, e).w.hub.pushes, run) == PushesOf(s.w.hub.pushes, run) + 1
              && PushesOf(Apply(Apply(s, e), e).w.hub.pushes, run) == PushesOf(s.w.hub.pushes, run) + 2
  {
    hide CheckRun, BySha, RefreshPushes, TrueRows, Inv;
    if RollsBackPush(s, e, run) {
      var s1 := Apply(s, e);
      var w, w1 := Heard(s.w, e), Heard(s1.w, e);
      HandlerIsGood(s, e);
      CheckKeepsIds(w, e.repo, e.check, e.checked);
      CheckPushesExactly(w, e.repo, e.check, e.checked);
      var found := BySha(s.w.db.runs, s.w.next, e.check.headSha).value;
      assert s1.w.db == s.w.db && s1.w.next == s.w.next && s1.w.conf == s.w.conf && s1.w.now == s.w.now;
      ByShaFacts(s.w, e.check.headSha);
      CommitOfRepo(s.w, found);
      assert StoreCheck(s1.w, e.repo, e.check, found).db.checks == StoreCheck(s.w, e.repo, e.check, found).db.checks;
      OnlyTablesDecide(StoreCheck(w, e.repo, e.check, found), StoreCheck(w1, e.repo, e.check, found), e.repo, found,
                       e.checked);
      CheckPushesExactly(w1, e.repo, e.check, e.checked);
      OneMore(s.w.hub.pushes, s1.w.hub.pushes, run);
      OneMore(s1.w.hub.pushes, Apply(s1, e).w.hub.pushes, run);
    }
  }

  lemma OneMore(a: seq<Push>, b: seq<Push>, run: nat)
    requires |b| == |a| + 1 && b[..|a|] == a && b[|a|].run == run
    ensures PushesOf(b, run) == PushesOf(a, run) + 1
  {
  }

  lemma OnlyTablesDecide(w: World, v: World, repo: int, run: Run, a: RefreshAnswers)
    requires w.db == v.db && w.conf == v.conf
    ensures RefreshPushes(w, repo, run, a) <==> RefreshPushes(v, repo, run, a)
  {
  }

  lemma CheckKeepsIds(w: World, repo: int, c: CheckReport, a: RefreshAnswers)
    ensures CheckRun(w, repo, c, a).w.next == w.next
  {
    hide Refresh, BySha;
    var found := BySha(w.db.runs, w.next, c.headSha);
    if CheckRefreshes(w, repo, c) {
      RefreshWrites(StoreCheck(w, repo, c, found.value), repo, found.value,
                    w.db.prs[(found.value.repo, found.value.pr)], a);
    }
  }

  // ---- Concurrency ----

  /** At most one run in progress per repository and CI branch; the database's index is not needed for it. */
  lemma OneRunInProgressPerGroup(s: Sys, i: nat, j: nat)
    requires Reachable(s) && i in s.w.db.runs && j in s.w.db.runs
    requires s.w.db.runs[i].status.InProgress? && s.w.db.runs[j].status.InProgress?
    requires s.w.db.runs[i].repo == s.w.db.runs[j].repo && s.w.db.runs[i].ciBranch == s.w.db.runs[j].ciBranch
    ensures i == j
  {
    ReachableInv(s);
    assert BothInProgress(s.w.db.runs[i], s.w.db.runs[j]);
  }

  /** At most one uncompleted run per pull request, and it is the newest of its runs. */
  lemma OneActiveRunPerPr(s: Sys, i: nat, j: nat)
    requires Reachable(s) && i in s.w.db.runs && j in s.w.db.runs && s.w.db.runs[i].completedAt.None?
    requires s.w.db.runs[i].repo == s.w.db.runs[j].repo && s.w.db.runs[i].pr == s.w.db.runs[j].pr
    ensures j <= i && (s.w.db.runs[j].completedAt.None? ==> j == i)
  {
    ReachableInv(s);
    assert SamePr(s.w.db.runs[i], s.w.db.runs[j]) && SamePr(s.w.db.runs[j], s.w.db.runs[i]);
  }

  /** The state columns of every row agree, and no try is left in the queue. */
  lemma RowsAreCoherent(s: Sys, i: nat)
    requires Reachable(s) && i in s.w.db.runs
    ensures var r := s.w.db.runs[i];
            && (r.completedAt.Some? <==> r.status.Success? || r.status.Failure? || r.status.Cancelled?)
            && (r.startedAt.Some? <==> r.sha.Some?)
            && (r.status.Queued? ==> r.startedAt.None? && !r.dry)
            && (r.status.InProgress? || r.status.Success? ==> r.startedAt.Some?)
  {
    ReachableInv(s);
    assert Coherent(s.w.db.runs[i]);
  }

  // ---- Success is final ----

  /** Whether `refresh` ends in `fail` with the failure stored. */
  predicate RefreshFails(w: World, repo: int, startedAt: int, a: RefreshAnswers) {
    && a.fail.stored && a.rows.Some?
    && var v := Judge(ConfigOf(w, repo).required, ByName(a.rows.value));
       v.Broken? || (v.Unfinished? && TimedOut(w, repo, startedAt))
  }

  /** `refresh` given a row that was completed since the run was read. */
  lemma StaleRefresh(w: World, repo: int, run: Run, pr: PrRow, a: RefreshAnswers)
    requires run.id in w.db.runs && w.db.runs[run.id].completedAt.Some?
    requires run.startedAt.Some? && run.completedAt.None?
    ensures Refresh(w, repo, run, pr, a).w.db.runs ==
            if RefreshFails(w, repo, run.startedAt.value, a) then FailedRows(w.db.runs, run.id, w.now) else w.db.runs
  {
    hide Fail, Succeed, Judge, ByName, FailedRows;
    if a.rows.Some? {
      var v := Judge(ConfigOf(w, repo).required, ByName(a.rows.value));
      if v.Green? {
        SucceedWrites(w, repo, run, pr, a.success);
      } else if v.Broken? {
        FailWrites(w, repo, run, pr, TestsFailed(v.check.name), a.fail);
      } else {
        FailWrites(w, repo, run, pr, TestsTimedOut, a.fail);
      }
    }
  }

  /** What handling a stale item does to a row that became Success in the meantime. */
  lemma StaleRefreshOfSuccess(w: World, run: Run, a: HandleAnswers)
    requires run.id in w.db.runs && w.db.runs[run.id].status.Success? && w.db.runs[run.id].completedAt.Some?
    requires run.startedAt.Some? && run.completedAt.None? && (run.repo, run.pr) in w.db.prs
    ensures var runs := HandleRun(w, run, a).w.db.runs;
            && run.id in runs
            && var fails := RefreshFails(w, run.repo, run.startedAt.value, a.refresh);
               runs[run.id].status == if fails then Failure else Success
  {
    hide Refresh, Start, RefreshFails;
    StaleRefresh(w, run.repo, run, w.db.prs[(run.repo, run.pr)], a.refresh);
    assert FailedRows(w.db.runs, run.id, w.now)[run.id].status.Failure?;
  }

  // ---- Check rows ----

  /** The check rows of a run are the same in both tables. */
  ghost predicate SameChecksOf(a: Table, b: Table, run: nat) {
    && (forall k :: k in a && a[k].run == run ==> k in b && b[k] == a[k])
    && (forall k :: k in b && b[k].run == run ==> k in a && a[k] == b[k])
  }

  /** The uncompleted run a commit belongs to, whose pull request is stored. */
  predicate RunsCommit(w: World, i: nat, sha: string) {
    && i in w.db.runs && w.db.runs[i].sha == Some(sha) && w.db.runs[i].completedAt.None?
    && (w.db.runs[i].repo, w.db.runs[i].pr) in w.db.prs
  }

  /** What a conclusion is stored as. */
  predicate StoredAs(conclusion: Option<Conclusion>, status: CheckStatus) {
    && (status.CheckSuccess? <==> conclusion == Some(ConclSuccess))
    && (status.CheckFailure? <==> conclusion in {Some(ConclFailure), Some(ConclTimedOut), Some(ConclActionRequired)})
    && (status.CheckCancelled? <==> conclusion == Some(ConclCancelled))
    && (status.CheckSkipped? <==> conclusion == Some(ConclSkipped))
    && (status.CheckPending? <==> conclusion in {None, Some(ConclNeutral)})
  }

  lemma FoundCommit(w: World, sha: string)
    requires Inv(w)
    ensures var found := BySha(w.db.runs, w.next, sha);
            && (found.Some? ==> found.value.id in w.db.runs && w.db.runs[found.value.id] == found.value
                                && found.value.sha == Some(sha))
            && (forall i :: i in w.db.runs && w.db.runs[i].sha == Some(sha) ==> found == Some(w.db.runs[i]))
  {
  }

  /** The check webhook writes one row exactly when the commit is an uncompleted run's: the report, for that run. */
  lemma CheckIsStoredExactly(w: World, repo: int, c: CheckReport, a: RefreshAnswers)
    requires Inv(w)
    ensures var t, t2 := w.db.checks, CheckRun(w, repo, c, a).w.db.checks;
            if exists i :: RunsCommit(w, i, c.headSha) then
              c.id in t2 && t2 == t[c.id := t2[c.id]]
              && var row := t2[c.id];
              && RunsCommit(w, row.run, c.headSha)
              && row.id == c.id && row.name == c.name && StoredAs(c.conclusion, row.status)
              && (row.required <==> IsRequired(ConfigOf(w, repo).required, c.name))
              && row.completedAt == c.completedAt
              && row.startedAt == (if c.startedAt.Some? then c.startedAt.value else w.now)
              && (c.htmlUrl.Some? ==> c.htmlUrl == Some(row.url))
              && (c.htmlUrl.None? ==> row.url == if c.detailsUrl.Some? then c.detailsUrl.value else c.url)
            else t2 == t
  {
    hide Inv, Refresh, BySha;
    FoundCommit(w, c.headSha);
    var found := BySha(w.db.runs, w.next, c.headSha);
    if found.Some? && RunsCommit(w, found.value.id, c.headSha) {
      var run := found.value;
      RefreshWrites(StoreCheck(w, repo, c, run), repo, run, w.db.prs[(run.repo, run.pr)], a);
    }
  }

  lemma CheckKeepsCompleted(w: World, repo: int, c: CheckReport, a: RefreshAnswers, run: nat)
    requires Inv(w) && run in w.db.runs && w.db.runs[run].completedAt.Some?
    requires c.id in w.hub.heads && w.hub.heads[c.id] == c.headSha
    ensures SameChecksOf(w.db.checks, CheckRun(w, repo, c, a).w.db.checks, run)
  {
    hide CheckRun, BySha, Justified, Coherent, GreenRows, Named;
    CheckIsStoredExactly(w, repo, c, a);
    if c.id in w.db.checks {
      assert Attached(w.db.checks[c.id], c.id, w.db.runs, w.hub.heads, w.hub.reports);
    }
  }

  lemma StepKeepsChecks(s: Sys, e: Event, run: nat)
    requires SysInv(s) && Enabled(s, e) && run in s.w.db.runs && s.w.db.runs[run].completedAt.Some?
    ensures SameChecksOf(s.w.db.checks, Apply(s, e).w.db.checks, run)
  {
    hide Inv, Result, HandleRun, CheckRun, Gentle, OnePush, WorkOk, SameChecksOf, TrueRows;
    assert SameChecksOf(s.w.db.checks, s.w.db.checks, run) by { ChecksStay(s.w.db.checks, run); }
    if IsWebhook(e) {
      HandlerIsGood(s, e);
      if e.CheckEvent? {
        CheckKeepsCompleted(Heard(s.w, e), e.repo, e.check, e.checked, run);
        assert Result(Heard(s.w, e), e) == CheckRun(Heard(s.w, e), e.repo, e.check, e.checked)
        by { CheckResult(Heard(s.w, e), e); }
      }
    } else if e.Handle? {
      HandleKeepsChecks(s.w, s.work[0], e.handled);
    }
  }

  lemma ChecksStay(t: Table, run: nat)
    ensures SameChecksOf(t, t, run)
  {
  }

  lemma CheckResult(w: World, e: Event)
    requires e.CheckEvent?
    ensures Result(w, e) == CheckRun(w, e.repo, e.check, e.checked)
  {
  }

  lemma HandleKeepsChecks(w: World, run: Run, a: HandleAnswers)
    ensures HandleRun(w, run, a).w.db.checks == w.db.checks
  {
    hide Start, Refresh;
    if (run.repo, run.pr) in w.db.prs {
      StartWrites(w, run.repo, run, w.db.prs[(run.repo, run.pr)], a.start);
      RefreshWrites(w, run.repo, run, w.db.prs[(run.repo, run.pr)], a.refresh);
    }
  }

  /** Once a run is completed its check rows are frozen: none is added, changed or taken over by another run. */
  lemma {:induction false} ChecksOfCompletedRunsFrozen(s: Sys, es: seq<Event>, run: nat)
    requires SysInv(s) && ValidTrace(s, es) && run in s.w.db.runs && s.w.db.runs[run].completedAt.Some?
    ensures SameChecksOf(s.w.db.checks, RunTrace(s, es).w.db.checks, run)
    decreases |es|
  {
    hide SysInv, Apply;
    if es != [] {
      StepKeepsSysInv(s, es[0]);
      StepEvolves(s, es[0]);
      StepKeepsChecks(s, es[0], run);
      ChecksOfCompletedRunsFrozen(Apply(s, es[0]), es[1..], run);
    }
  }

  // ---- Success is final ----

  /** No row speaks against a Success. */
  ghost predicate Unopposed(w: World, run: nat)
    requires run in w.db.runs
  {
    NoneAgainst(w.db.checks, run, RequiredBy(w.conf, w.db.runs[run].repo))
  }

  /** With distinct names nothing does. */
  lemma DistinctNamesSuffice(w: World, run: nat)
    requires Inv(w) && run in w.db.runs && w.db.runs[run].status.Success? && OneRowPerName(w.db.checks, run)
    ensures Unopposed(w, run)
  {
  }

  lemma StepKeepsSuccess(s: Sys, e: Event, run: nat)
    requires SysInv(s) && Enabled(s, e) && run in s.w.db.runs && s.w.db.runs[run].status.Success? && Unopposed(s.w, run)
    ensures run in Apply(s, e).w.db.runs && Apply(s, e).w.db.runs[run].status.Success?
  {
    hide Inv, Result, HandleRun, Unopposed;
    AllRowsCoherent(s.w);
    assert Coherent(s.w.db.runs[run]);
    if IsWebhook(e) {
      HandlerIsGood(s, e);
      TransactionIsGentle(Heard(s.w, e), Result(Heard(s.w, e), e), e.commit);
      assert GentleRow(s.w.db.runs[run], Apply(s, e).w.db.runs[run]);
    } else if e.Handle? {
      var item := s.work[0];
      assert WorkItem(item, s.w.db.runs, s.horizon);
      HandleOnlyWrites(s.w, item, e.handled);
      if item.id == run {
        StaleRefreshOfSuccess(s.w, item, e.handled);
        if e.handled.refresh.rows.Some? {
          GreenStaysGreen(s.w, run, e.handled.refresh.rows.value);
        }
      }
    }
  }

  lemma GreenStaysGreen(w: World, run: nat, rows: seq<Check>)
    requires Inv(w) && run in w.db.runs && w.db.runs[run].status.Success? && Unopposed(w, run)
    requires RowsFor(rows, w.db.checks, run)
    ensures Judge(ConfigOf(w, w.db.runs[run].repo).required, ByName(rows)).Green?
  {
    NoneAgainstIsGreen(w.db.checks, run, rows, RequiredBy(w.conf, w.db.runs[run].repo));
  }

  /** The configuration does not change, and neither do the check rows of a completed run. */
  lemma StepKeepsUnopposed(s: Sys, e: Event, run: nat)
    requires SysInv(s) && Enabled(s, e) && run in s.w.db.runs && s.w.db.runs[run].status.Success? && Unopposed(s.w, run)
    ensures run in Apply(s, e).w.db.runs && Unopposed(Apply(s, e).w, run)
  {
    hide Inv, Result, HandleRun, Gentle, OnePush, WorkOk, Evolves;
    AllRowsCoherent(s.w);
    assert Coherent(s.w.db.runs[run]);
    StepKeepsChecks(s, e, run);
    StepEvolves(s, e);
    assert SameRun(s.w.db.runs[run], Apply(s, e).w.db.runs[run])
    by { EvolvesIsSame(s.w.db.runs[run], Apply(s, e).w.db.runs[run]); }
    StepKeepsConf(s, e);
  }

  lemma EvolvesIsSame(a: Run, b: Run)
    requires Evolves(a, b)
    ensures SameRun(a, b)
  {
  }

  lemma StepKeepsConf(s: Sys, e: Event)
    requires SysInv(s) && Enabled(s, e)
    ensures Apply(s, e).w.conf == s.w.conf
  {
    hide Inv, Result, HandleRun;
    if IsWebhook(e) {
      HandlerIsGood(s, e);
    } else if e.Handle? {
      assert WorkItem(s.work[0], s.w.db.runs, s.horizon);
      HandleKeepsInv(s.w, s.work[0], e.handled, s.horizon);
    }
  }

  /** A committed Success that no check row speaks against is final, even with stale refreshes on their way. */
  lemma {:induction false} SuccessIsFinal(s: Sys, es: seq<Event>, run: nat)
    requires SysInv(s) && ValidTrace(s, es)
    requires run in s.w.db.runs && s.w.db.runs[run].status.Success? && Unopposed(s.w, run)
    ensures run in RunTrace(s, es).w.db.runs && RunTrace(s, es).w.db.runs[run].status.Success?
    decreases |es|
  {
    hide SysInv, Apply, Unopposed;
    if es != [] {
      StepKeepsSysInv(s, es[0]);
      StepKeepsSuccess(s, es[0], run);
      StepKeepsUnopposed(s, es[0], run);
      SuccessIsFinal(Apply(s, es[0]), es[1..], run);
    }
  }

  /** A row of a required name that takes the Success of an old refresh away if it is the last one returned. */
  ghost predicate Opposes(w: World, run: Run, k: int) {
    && k in w.db.checks && w.db.checks[k].run == run.id && w.db.checks[k].name in RequiredBy(w.conf, run.repo)
    && !w.db.checks[k].status.CheckSuccess?
    && (w.db.checks[k].status.CheckFailure? || (run.startedAt.Some? && TimedOut(w, run.repo, run.startedAt.value)))
  }

  /** The handling of an old snapshot, with the rows of the run in some order, turns the run into a failure. */
  ghost predicate CanBeLost(w: World, run: Run) {
    exists a: HandleAnswers :: TrueRows(a.refresh, w.db.checks, run.id) && LosesSuccess(w, run, a)
  }

  ghost predicate LosesSuccess(w: World, run: Run, a: HandleAnswers) {
    var runs := HandleRun(w, run, a).w.db.runs;
    run.id in runs && runs[run.id].status.Failure?
  }

  /**
   A Success can be lost to the handling of an old snapshot exactly when some row of a required
   name failed, or the run is overdue and some such row is not a success.
   */
  lemma SuccessLostExactly(w: World, run: Run)
    requires Inv(w) && run.id in w.db.runs && w.db.runs[run.id].status.Success?
    requires SameRun(run, w.db.runs[run.id]) && run.startedAt.Some? && run.completedAt.None?
    requires (run.repo, run.pr) in w.db.prs
    ensures CanBeLost(w, run) <==> exists k :: Opposes(w, run, k)
  {
    hide Inv, HandleRun, RefreshFails, TimedOut;
    AllRowsCoherent(w);
    assert Coherent(w.db.runs[run.id]);
    KeyedChecks(w);
    forall a: HandleAnswers
      ensures LosesSuccess(w, run, a) <==> RefreshFails(w, run.repo, run.startedAt.value, a.refresh)
    {
      StaleRefreshOfSuccess(w, run, a);
    }
    if CanBeLost(w, run) {
      var a: HandleAnswers :| TrueRows(a.refresh, w.db.checks, run.id) && LosesSuccess(w, run, a);
      var k := FailingRefresh(w, run, a.refresh);
    }
    if k :| Opposes(w, run, k) {
      var a: HandleAnswers :| true;
      var rows := EndingWith(w.db.checks, run.id, k);
      a := a.(refresh := a.refresh.(rows := Some(rows), fail := a.refresh.fail.(stored := true)));
      OpposedRefresh(w, run, k, a.refresh, rows);
      assert TrueRows(a.refresh, w.db.checks, run.id) && LosesSuccess(w, run, a);
    }
  }

  lemma KeyedChecks(w: World)
    requires Inv(w)
    ensures KeyedById(w.db.checks)
  {
    forall k | k in w.db.checks
      ensures w.db.checks[k].id == k
    {
      assert Attached(w.db.checks[k], k, w.db.runs, w.hub.heads, w.hub.reports);
    }
  }

  /** A refresh that fails the run found a row that opposes it. */
  lemma FailingRefresh(w: World, run: Run, a: RefreshAnswers) returns (k: int)
    requires Inv(w) && run.id in w.db.runs && w.db.runs[run.id].status.Success? && w.db.runs[run.id].repo == run.repo
    requires TrueRows(a, w.db.checks, run.id) && run.startedAt.Some?
    ensures RefreshFails(w, run.repo, run.startedAt.value, a) ==> Opposes(w, run, k)
  {
    hide TimedOut;
    k := 0;
    if RefreshFails(w, run.repo, run.startedAt.value, a) {
      var required := RequiredBy(w.conf, run.repo);
      var view := ByName(a.rows.value);
      var v := Judge(required, view);
      if v.Broken? {
        k := v.check.id;
      } else {
        assert GreenRows(w.db.checks, run.id, required);
        var n :| n in required && !(n in view && view[n].status.CheckSuccess?);
        k := view[n].id;
      }
    }
  }

  lemma OpposedRefresh(w: World, run: Run, k: int, a: RefreshAnswers, rows: seq<Check>)
    requires Opposes(w, run, k) && run.startedAt.Some? && a.rows == Some(rows) && a.fail.stored
    requires w.db.checks[k].name in ByName(rows) && ByName(rows)[w.db.checks[k].name] == w.db.checks[k]
    ensures RefreshFails(w, run.repo, run.startedAt.value, a)
  {
    hide TimedOut;
    var n := w.db.checks[k].name;
    var view := ByName(rows);
    assert n in RequiredBy(w.conf, run.repo) && n in view && view[n] == w.db.checks[k];
  }

  // ---- What the scheduler's stale items can still do ----

  /** Whether `start` ends in `fail` with the failure stored. */
  predicate StartFails(run: Run, a: StartAnswers) {
    && a.fail.stored
    && if run.base.Branch? && a.base.NoBranch? then true
       else (run.base.Commit? || a.base.BranchAt?) && a.users
            && (a.merge.MergeClash? || a.merge.MergeErr? || (a.merge.MergedAs? && a.stored && !a.push))
  }

  /**
   A run that was cancelled after the list was fetched: handling its stale item leaves the row
   as it is or, exactly when the start fails, turns Cancelled into Failure. It is never started.
   */
  lemma StaleStartOfCancelled(w: World, run: Run, a: HandleAnswers)
    requires run.id in w.db.runs && w.db.runs[run.id].status.Cancelled?
    requires run.startedAt.None? && (run.repo, run.pr) in w.db.prs
    ensures var runs := HandleRun(w, run, a).w.db.runs;
            && run.id in runs
            && (runs[run.id].status.Failure? <==> StartFails(run, a.start))
            && (!StartFails(run, a.start) ==> runs[run.id] == w.db.runs[run.id])
            && runs[run.id].sha == w.db.runs[run.id].sha && runs[run.id].startedAt == w.db.runs[run.id].startedAt
  {
    hide Refresh, Start, StartFails;
    StaleStart(w, run.repo, run, w.db.prs[(run.repo, run.pr)], a.start);
    assert FailedRows(w.db.runs, run.id, w.now)[run.id] == Patch(w.db.runs[run.id], Finish(Failure, w.now));
  }

  /** `start` given a row that is no longer queued. */
  lemma StaleStart(w: World, repo: int, run: Run, pr: PrRow, a: StartAnswers)
    requires run.id in w.db.runs && !w.db.runs[run.id].status.Queued?
    ensures Start(w, repo, run, pr, a).w.db.runs ==
            if StartFails(run, a) then FailedRows(w.db.runs, run.id, w.now) else w.db.runs
  {
    hide StartOn, Fail, FailedRows;
    FailWrites(w, repo, run, pr, BaseMissing, a.fail);
    if run.base.Commit? {
      StaleStartOn(w, repo, run, pr, run.base.sha, a);
    } else if a.base.BranchAt? {
      StaleStartOn(w, repo, run, pr, a.base.sha, a);
    }
  }

  lemma StaleStartOn(w: World, repo: int, run: Run, pr: PrRow, base: string, a: StartAnswers)
    requires run.id in w.db.runs && !w.db.runs[run.id].status.Queued?
    ensures StartOn(w, repo, run, pr, base, a).w.db.runs ==
            if a.users && a.fail.stored
               && (a.merge.MergeClash? || a.merge.MergeErr? || (a.merge.MergedAs? && a.stored && !a.push))
            then FailedRows(w.db.runs, run.id, w.now) else w.db.runs
  {
    hide FailedStart, UpdateLabels, FailedRows;
    var w1 := Send(w, MakeMerge(repo, base, run.head));
    match a.merge
    case MergeClash => FailedStartWrites(w1, repo, run, pr, MergeConflict, a.fail);
    case MergeErr => FailedStartWrites(w1, repo, run, pr, MergeFailed, a.fail);
    case MergedAs(sha) =>
      var w4 := Send(SetRuns(Mint(w1, sha, repo), w.db.runs), PushCi(repo, run.ciBranch, sha));
      FailedStartWrites(w4, repo, run, pr, CiPushFailed, a.fail);
      LabelsWrite(Send(w4, Comment(repo, run.pr, TestsStarted)), repo, pr, InProgress, run.dry, a.labels);
  }

  // ---- A changed pull request ----

  /**
   The pull_request webhook, when it answers without an error: the stored row shows the pull
   request; if that was a change no merge of it is left active; if not, nothing is touched; a
   pull request seen for the first time touches no run; and tries are never touched.
   */
  lemma ChangedPrLosesItsMerge(w: World, repo: int, user: int, pr: PullRequest, a: PrAnswers)
    requires Inv(w) && PrChange(w, repo, user, pr, a).res.Ok?
    ensures var o := PrChange(w, repo, user, pr, a);
            var key := (repo, pr.number);
            && key in o.w.db.prs && Shows(o.w.db.prs[key], pr)
            && (key !in w.db.prs ==> o.w.db.runs == w.db.runs && o.w.hub == w.hub)
            && (key in w.db.prs && Shows(w.db.prs[key], pr) ==> o.w == w)
            && (key in w.db.prs && !Shows(w.db.prs[key], pr) ==> !MergeGoingOn(o.w.db.runs, repo, pr.number))
            && (forall i :: i in w.db.runs && w.db.runs[i].dry ==> i in o.w.db.runs && o.w.db.runs[i] == w.db.runs[i])
  {
    hide Inv, UpdateFrom, InMemory, Stored, CancelRun, NeedsUpdate, Shows, NewRow;
    var key := (repo, pr.number);
    if key !in w.db.prs {
      assert Shows(NewRow(pr, user, repo, w.now), pr) by { NewRowShows(pr, user, repo, w.now); }
      return;
    }
    var row := w.db.prs[key];
    DiffIsEmptyExactly(row, pr, w.now);
    if NeedsUpdate(UpdateFrom(row, pr, w.now)) {
      var update := UpdateFrom(row, pr, w.now);
      ApplyingTheDiff(row, pr, w.now, w.now);
      var w1 := SetPrs(w, w.db.prs[key := Stored(update, row)]);
      SameRunsKeepInv(w, w1);
      ActiveFacts(w1, repo, pr.number);
      var active := Active(w1.db.runs, w1.next, repo, pr.number);
      if active.Some? && !active.value.dry {
        CancelIsGood(w1, repo, active.value, InMemory(update, row), a.cancel);
        CancelKeepsTracked(w1, repo, active.value, InMemory(update, row), a.cancel, pr);
      }
    }
  }

  lemma NewRowShows(pr: PullRequest, user: int, repo: int, now: int)
    ensures Shows(NewRow(pr, user, repo, now), pr)
  {
  }

  /** Rows that differ in labels and time stamps at most. */
  ghost predicate SameTracked(a: map<PrKey, PrRow>, b: map<PrKey, PrRow>, pr: PullRequest) {
    forall k :: k in a ==> k in b && (Shows(a[k], pr) ==> Shows(b[k], pr))
  }

  lemma LabelsKeepTracked(w: World, repo: int, row: PrRow, status: Status, dry: bool, a: LabelAnswers, pr: PullRequest)
    ensures SameTracked(w.db.prs, UpdateLabels(w, repo, row, status, dry, a).w.db.prs, pr)
  {
    hide LabelsSettled, LabelsAfter, AssignedIds;
  }

  /** Labels are the only columns of a pull request row that the workflow writes. */
  lemma CancelKeepsTracked(w: World, repo: int, run: Run, row: PrRow, a: CancelAnswers, pr: PullRequest)
    ensures SameTracked(w.db.prs, CancelRun(w, repo, run, row, a).w.db.prs, pr)
  {
    hide UpdateLabels, StopAll, Shows;
    var w1 := SetRuns(w, CancelledRows(w.db.runs, run.id, w.now));
    LabelsKeepTracked(w1, repo, row, Cancelled, run.dry, a.labels, pr);
    if run.sha.Some? && a.workflows.Some? {
      StopAllIsQuiet(w1, repo, run.sha.value, a.workflows.value);
      var w2 := Send(StopAll(w1, repo, run.sha.value, a.workflows.value), DeleteBranch(repo, run.ciBranch));
      LabelsKeepTracked(w2, repo, row, Cancelled, run.dry, a.labels, pr);
    }
  }

  /** The stored row shows the pull request, so that the webhook about its change does nothing. */
  ghost predicate ChangeHidden(w: World, o: Out, repo: int, user: int, pr: PullRequest) {
    && o.res.Ok? && o.w.db.runs == w.db.runs
    && (repo, pr.number) in o.w.db.prs && Shows(o.w.db.prs[(repo, pr.number)], pr)
    && forall b :: PrChange(o.w, repo, user, pr, b) == Out(o.w, Ok(true))
  }

  lemma ShownIsHidden(w: World, o: Out, repo: int, user: int, pr: PullRequest)
    requires o.res.Ok? && o.w.db.runs == w.db.runs
    requires o.w.db.prs == UpsertPr(w.db.prs, NewRow(pr, user, repo, w.now))
    ensures ChangeHidden(w, o, repo, user, pr)
  {
    hide UpdateFrom, NeedsUpdate, Shows;
    UpsertShows(w.db.prs, pr, user, repo, w.now);
    DiffIsEmptyExactly(o.w.db.prs[(repo, pr.number)], pr, o.w.now);
  }

  /**
   A try refused because a merge is active still stores the pull request as it is now, so the
   pull_request webhook that follows finds nothing to do and the merge goes on, whatever its
   head and its target have become.
   */
  lemma RefusedTryHidesTheChange(w: World, repo: int, user: int, pr: PullRequest, args: TryArgs, a: TryAnswers)
    requires Inv(w) && TryResolved(w, repo, pr, args, a) && a.message && MergeGoingOn(w.db.runs, repo, pr.number)
    ensures ChangeHidden(w, Try(w, repo, user, pr, args, a), repo, user, pr)
  {
    hide Inv, StartTry, CancelRun, NewRow, UpsertPr, UpsertRow, ChangeHidden;
    ActiveFacts(w, repo, pr.number);
    ShownIsHidden(w, Try(w, repo, user, pr, args, a), repo, user, pr);
  }

  /** So does a retry while any run is active; nobody is asked for permission before. */
  lemma RefusedRetryHidesTheChange(w: World, repo: int, user: int, pr: PullRequest, a: RetryAnswers)
    requires Inv(w) && ConfigOf(w, repo).enabled && a.message && !AllDone(w.db.runs, repo, pr.number)
    ensures ChangeHidden(w, Retry(w, repo, user, pr, a), repo, user, pr)
  {
    hide Inv, Start, AnnounceQueued, NewRow, UpsertPr, UpsertRow, ChangeHidden;
    LatestFacts(w, repo, pr.number);
    if Latest(w.db.runs, w.next, repo, pr.number).None? {
      NobodyLatest(w, repo, pr.number);
    }
    ShownIsHidden(w, Retry(w, repo, user, pr, a), repo, user, pr);
  }

  lemma NobodyLatest(w: World, repo: int, pr: nat)
    requires Inv(w) && Latest(w.db.runs, w.next, repo, pr).None?
    ensures AllDone(w.db.runs, repo, pr)
  {
  }

  /** So does a cancel by somebody who may not cancel. */
  lemma RefusedCancelHidesTheChange(w: World, repo: int, user: int, pr: PullRequest, a: CancelCommandAnswers)
    requires a.can == Some(false)
    ensures ChangeHidden(w, Cancel(w, repo, user, pr, a), repo, user, pr)
  {
    hide CancelRun, NewRow, UpsertPr, UpsertRow, ChangeHidden;
    ShownIsHidden(w, Cancel(w, repo, user, pr, a), repo, user, pr);
  }
}
