/** The invariant of the interleaved system, whose work list may be stale. */
module SystemProofs {
  import opened CiRuns
  import opened Checks
  import opened PrRows
  import opened Store
  import opened Workflow
  import opened Handlers
  import opened Scheduler
  import opened System
  import opened Invariants
  import opened WorkflowProofs
  import opened HandlerProofs

  /** Outside a transaction no try is queued. */
  ghost predicate TriesRun(runs: Rows) {
    forall i :: i in runs && runs[i].dry ==> !runs[i].status.Queued?
  }

  ghost predicate GroupFree(v: Run, runs: Rows) {
    forall i :: i in runs && SameGroup(runs[i], v) ==> !runs[i].status.InProgress?
  }

  /** Of the runs that were there when the list was fetched, no queued one of the group comes before `v`. */
  ghost predicate FirstInQueue(v: Run, runs: Rows, horizon: nat) {
    forall i :: i in runs && i < horizon && runs[i].status.Queued? && SameGroup(runs[i], v) && i != v.id ==>
      Before(v, runs[i])
  }

  /**
   What still holds of an item of the work list however long ago it was read: its row evolved
   from it, and if it was not started then it is a merge that is still queued or was cancelled,
   nobody of its group is in progress, and it is the first of its group's queue.
   */
  ghost predicate WorkItem(v: Run, runs: Rows, horizon: nat) {
    && v.id in runs && Coherent(v) && v.completedAt.None? && Evolves(v, runs[v.id])
    && (v.startedAt.None? ==>
          && !v.dry && (runs[v.id].status.Queued? || runs[v.id].status.Cancelled?)
          && GroupFree(v, runs) && FirstInQueue(v, runs, horizon))
  }

  ghost predicate WorkOk(work: seq<Run>, runs: Rows, horizon: nat) {
    && (forall k :: 0 <= k < |work| ==> WorkItem(work[k], runs, horizon))
    && (forall j, k :: 0 <= j < k < |work| ==> GroupOf(work[j]) != GroupOf(work[k]))
  }

  /** Every run's pull request is stored, as the foreign key demands. */
  ghost predicate RunsHavePr(w: World) {
    forall i :: i in w.db.runs ==> (w.db.runs[i].repo, w.db.runs[i].pr) in w.db.prs
  }

  ghost predicate SysInv(s: Sys) {
    Inv(s.w) && RunsHavePr(s.w) && TriesRun(s.w.db.runs) && s.horizon <= s.w.next
    && WorkOk(s.work, s.w.db.runs, s.horizon)
  }

  // ---- Webhooks ----

  /** A transaction, committed or rolled back, keeps the invariant of the tables and the log. */
  lemma TransactionKeepsInv(w: World, o: Out, commit: bool)
    requires Inv(w) && Inv(o.w) && Gentle(w, o.w) && OnePush(w, o.w)
    ensures Inv(Transaction(w, o, commit))
  {
    var w2 := Transaction(w, o, commit);
    if !(o.res.Ok? && commit) {
      RolledBackKeepsRuns(w, o.w);
      forall k | 0 <= k < |w2.hub.pushes|
        ensures Justified(w2.hub.pushes[k], w2.db.runs, w2.hub.reports, w2.conf)
      {
        if k < |w.hub.pushes| {
          assert Justified(w.hub.pushes[k], w.db.runs, w.hub.reports, w.conf);
        }
      }
    }
  }

  lemma RolledBackKeepsRuns(w: World, w2: World)
    requires Inv(w) && Gentle(w, w2)
    ensures RunsInv(w.db.runs, w2.next, w2.hub.minted, w2.conf)
  {
  }

  /** What any transaction does to the rows, committed or not. */
  lemma TransactionIsGentle(w: World, o: Out, commit: bool)
    requires Gentle(w, o.w)
    ensures Gentle(w, Transaction(w, o, commit))
  {
  }

  lemma WorkItemAfterTransaction(v: Run, w: World, w2: World, horizon: nat)
    requires Inv(w) && Inv(w2) && Gentle(w, w2) && horizon <= w.next && WorkItem(v, w.db.runs, horizon)
    ensures WorkItem(v, w2.db.runs, horizon)
  {
    var runs, runs2 := w.db.runs, w2.db.runs;
    assert GentleRow(runs[v.id], runs2[v.id]);
    EvolvesTrans(v, runs[v.id], runs2[v.id]);
    if v.startedAt.None? {
      forall i | i in runs2 && SameGroup(runs2[i], v)
        ensures !runs2[i].status.InProgress?
      {
        if i in runs {
          assert GentleRow(runs[i], runs2[i]);
        } else if runs2[i].dry {
          assert Named(runs2[i], w2.conf) && Named(runs2[v.id], w2.conf);
          TryGroup(runs2[i], runs2[v.id], w2.conf);
        }
      }
      forall i | i in runs2 && i < horizon && runs2[i].status.Queued? && SameGroup(runs2[i], v) && i != v.id
        ensures Before(v, runs2[i])
      {
        assert i in runs && GentleRow(runs[i], runs2[i]);
      }
    }
  }

  lemma EvolvesTrans(a: Run, b: Run, c: Run)
    requires Evolves(a, b) && Evolves(b, c)
    ensures Evolves(a, c)
  {
  }

  lemma WorkAfterTransaction(work: seq<Run>, w: World, w2: World, horizon: nat)
    requires Inv(w) && Inv(w2) && Gentle(w, w2) && horizon <= w.next && WorkOk(work, w.db.runs, horizon)
    ensures WorkOk(work, w2.db.runs, horizon)
  {
    forall k | 0 <= k < |work|
      ensures WorkItem(work[k], w2.db.runs, horizon)
    {
      WorkItemAfterTransaction(work[k], w, w2, horizon);
    }
  }

  lemma HeardInv(w: World, repo: int, c: CheckReport)
    requires Inv(w) && HonestCheck(w, repo, c)
    ensures Inv(Hear(w, c))
  {
    HearKeeps(w.db.runs, w.db.checks, w.hub, w.conf, c.id, c.headSha,
              Report(c.headSha, c.name, c.conclusion));
  }

  /** Every handler, from the world its transaction starts in. */
  lemma HandlerIsGood(s: Sys, e: Event)
    requires Inv(s.w) && IsWebhook(e) && Enabled(s, e)
    ensures var w := Heard(s.w, e);
            var o := Result(w, e);
            && Inv(w) && Inv(o.w) && Gentle(w, o.w) && OnePush(w, o.w)
            && (o.res.Ok? ==> NewTriesRun(w.db.runs, o.w.db.runs))
            && (o.w.hub.pushes != w.hub.pushes || o.w.db.checks != w.db.checks ==> e.CheckEvent?)
  {
    hide Inv, Try, Merge, Retry, Cancel, PrChange, CheckRun;
    match e
    case TryCommand(repo, user, pr, args, a, _) => TryIsGood(s.w, repo, user, pr, args, a);
    case MergeCommand(repo, user, pr, priority, a, _) => MergeIsGood(s.w, repo, user, pr, priority, a);
    case RetryCommand(repo, user, pr, a, _) => RetryIsGood(s.w, repo, user, pr, a);
    case CancelCommand(repo, user, pr, a, _) => CancelCommandIsGood(s.w, repo, user, pr, a);
    case PrEvent(repo, user, pr, a, _) => PrChangeIsGood(s.w, repo, user, pr, a);
    case CheckEvent(repo, c, a, _) =>
      HeardInv(s.w, repo, c);
      CheckRunIsGood(Hear(s.w, c), repo, c, a);
  }

  lemma WebhookKeepsSysInv(s: Sys, e: Event)
    requires SysInv(s) && IsWebhook(e) && Enabled(s, e)
    ensures SysInv(Apply(s, e))
  {
    hide Inv, WorkOk, Result;
    var w := Heard(s.w, e);
    var o := Result(w, e);
    HandlerIsGood(s, e);
    TransactionKeepsInv(w, o, e.commit);
    TransactionIsGentle(w, o, e.commit);
    var w2 := Transaction(w, o, e.commit);
    WorkAfterTransaction(s.work, w, w2, s.horizon);
    assert TriesRun(w2.db.runs) by {
      forall i | i in w2.db.runs && w2.db.runs[i].dry
        ensures !w2.db.runs[i].status.Queued?
      {
        if i in w.db.runs {
          assert GentleRow(w.db.runs[i], w2.db.runs[i]);
        }
      }
    }
  }

  // ---- The tick ----

  /** Handling a run writes no other row. */
  ghost predicate OnlyWrites(runs: Rows, runs2: Rows, id: nat) {
    && runs2.Keys == runs.Keys
    && (forall i :: i in runs && i != id ==> runs2[i] == runs[i])
    && (id in runs ==> Evolves(runs[id], runs2[id]))
  }

  lemma FailedOnlyWrites(runs: Rows, id: nat, now: int)
    ensures OnlyWrites(runs, FailedRows(runs, id, now), id)
  {
  }

  lemma StartedOnlyWrites(runs: Rows, id: nat, sha: string, now: int)
    requires AllCoherent(runs)
    ensures OnlyWrites(runs, StartedRows(runs, id, sha, now), id)
  {
  }

  lemma SuccessOnlyWrites(runs: Rows, id: nat, now: int)
    requires AllCoherent(runs)
    ensures OnlyWrites(runs, SuccessRows(runs, id, now), id)
  {
  }

  lemma OnlyWritesTrans(a: Rows, b: Rows, c: Rows, id: nat)
    requires OnlyWrites(a, b, id) && OnlyWrites(b, c, id)
    ensures OnlyWrites(a, c, id)
  {
  }

  lemma StartOnlyWrites(w: World, repo: int, run: Run, pr: PrRow, a: StartAnswers)
    requires AllCoherent(w.db.runs)
    ensures OnlyWrites(w.db.runs, Start(w, repo, run, pr, a).w.db.runs, run.id)
  {
    hide Start, OnlyWrites, FailedRows, StartedRows;
    StartWrites(w, repo, run, pr, a);
    Unwritten(w.db.runs, run.id);
    FailedOnlyWrites(w.db.runs, run.id, w.now);
    if a.merge.MergedAs? {
      var started := StartedRows(w.db.runs, run.id, a.merge.sha, w.now);
      StartedOnlyWrites(w.db.runs, run.id, a.merge.sha, w.now);
      FailedOnlyWrites(started, run.id, w.now);
      OnlyWritesTrans(w.db.runs, started, FailedRows(started, run.id, w.now), run.id);
    }
  }

  lemma Unwritten(runs: Rows, id: nat)
    ensures OnlyWrites(runs, runs, id)
  {
  }

  lemma RefreshOnlyWrites(w: World, repo: int, run: Run, pr: PrRow, a: RefreshAnswers)
    requires AllCoherent(w.db.runs)
    ensures OnlyWrites(w.db.runs, Refresh(w, repo, run, pr, a).w.db.runs, run.id)
  {
    hide Refresh, Judge, ByName, OnlyWrites, FailedRows, SuccessRows;
    RefreshWrites(w, repo, run, pr, a);
    Unwritten(w.db.runs, run.id);
    FailedOnlyWrites(w.db.runs, run.id, w.now);
    var done := SuccessRows(w.db.runs, run.id, w.now);
    SuccessOnlyWrites(w.db.runs, run.id, w.now);
    FailedOnlyWrites(done, run.id, w.now);
    OnlyWritesTrans(w.db.runs, done, FailedRows(done, run.id, w.now), run.id);
  }

  lemma HandleOnlyWrites(w: World, run: Run, a: HandleAnswers)
    requires AllCoherent(w.db.runs)
    ensures OnlyWrites(w.db.runs, HandleRun(w, run, a).w.db.runs, run.id)
  {
    hide Start, Refresh;
    if (run.repo, run.pr) in w.db.prs {
      var pr := w.db.prs[(run.repo, run.pr)];
      if run.startedAt.None? {
        StartOnlyWrites(w, run.repo, run, pr, a.start);
      } else {
        RefreshOnlyWrites(w, run.repo, run, pr, a.refresh);
      }
    }
  }

  lemma HandleKeepsInv(w: World, run: Run, a: HandleAnswers, horizon: nat)
    requires Inv(w) && WorkItem(run, w.db.runs, horizon)
    requires FreshMerge(w, a.start.merge) && TrueRows(a.refresh, w.db.checks, run.id)
    ensures Inv(HandleRun(w, run, a).w)
    ensures var w2 := HandleRun(w, run, a).w;
            w2.next == w.next && w2.conf == w.conf && w2.now == w.now && w.db.prs.Keys <= w2.db.prs.Keys
  {
    hide Inv, Start, Refresh;
    if (run.repo, run.pr) in w.db.prs {
      var pr := w.db.prs[(run.repo, run.pr)];
      if run.startedAt.None? {
        StartKeepsInv(w, run.repo, run, pr, a.start);
        StartWrites(w, run.repo, run, pr, a.start);
      } else {
        RefreshKeepsInv(w, run.repo, run, pr, a.refresh);
        RefreshWrites(w, run.repo, run, pr, a.refresh);
      }
    }
  }

  /** Items of other groups are not affected by the handling of one. */
  lemma OtherItemStays(v: Run, run: Run, runs: Rows, runs2: Rows, horizon: nat)
    requires WorkItem(v, runs, horizon) && WorkItem(run, runs, horizon) && GroupOf(v) != GroupOf(run)
    requires OnlyWrites(runs, runs2, run.id)
    ensures WorkItem(v, runs2, horizon)
  {
    assert v.id != run.id;
    assert GroupOf(runs2[run.id]) == GroupOf(run);
    forall i | i in runs2 && SameGroup(runs2[i], v)
      ensures i != run.id && runs2[i] == runs[i]
    {
    }
  }

  lemma AllRowsCoherent(w: World)
    requires Inv(w)
    ensures AllCoherent(w.db.runs)
  {
  }

  lemma WorkAfterHandle(work: seq<Run>, runs: Rows, runs2: Rows, horizon: nat)
    requires WorkOk(work, runs, horizon) && work != [] && OnlyWrites(runs, runs2, work[0].id)
    ensures WorkOk(work[1..], runs2, horizon)
  {
    hide WorkItem;
    forall k | 0 <= k < |work[1..]|
      ensures WorkItem(work[1..][k], runs2, horizon)
    {
      assert WorkItem(work[k + 1], runs, horizon);
      OtherItemStays(work[k + 1], work[0], runs, runs2, horizon);
    }
  }

  lemma HandleKeepsSysInv(s: Sys, a: HandleAnswers)
    requires SysInv(s) && Enabled(s, Handle(a))
    ensures SysInv(Apply(s, Handle(a)))
  {
    hide Inv, HandleRun, WorkItem, AllCoherent;
    var run := s.work[0];
    var w2 := HandleRun(s.w, run, a).w;
    assert WorkItem(run, s.w.db.runs, s.horizon);
    AllRowsCoherent(s.w);
    HandleKeepsInv(s.w, run, a, s.horizon);
    HandleOnlyWrites(s.w, run, a);
    WorkAfterHandle(s.work, s.w.db.runs, w2.db.runs, s.horizon);
  }

  /** A run chosen from all pending rows. */
  lemma ChosenItem(rows: seq<Run>, runs: Rows, next: nat, g: Group)
    requires AllCoherent(runs) && Keyed(runs, next) && TriesRun(runs)
    requires PendingRows(rows, runs) && g in Choose(rows)
    ensures WorkItem(Choose(rows)[g], runs, next)
  {
    hide Choose;
    var v := Choose(rows)[g];
    ChoiceIsRight(rows, g);
    assert v in rows;
    if v.startedAt.None? {
      forall i | i in runs && SameGroup(runs[i], v)
        ensures !runs[i].status.InProgress?
      {
        assert runs[i].completedAt.None? ==> runs[i] in rows;
        assert runs[i] in rows ==> Holds(v, runs[i]);
      }
      forall i | i in runs && i < next && runs[i].status.Queued? && SameGroup(runs[i], v) && i != v.id
        ensures Before(v, runs[i])
      {
        assert runs[i] in rows;
        assert Holds(v, runs[i]);
      }
    }
  }

  lemma FetchKeepsSysInv(s: Sys, rows: seq<Run>, list: seq<Run>)
    requires SysInv(s) && Enabled(s, Fetch(rows, list))
    ensures SysInv(Apply(s, Fetch(rows, list)))
  {
    hide Choose, PendingRows;
    forall k | 0 <= k < |list|
      ensures WorkItem(list[k], s.w.db.runs, s.w.next)
    {
      assert list[k] in list;
      var g :| g in Choose(rows) && Choose(rows)[g] == list[k];
      ChosenItem(rows, s.w.db.runs, s.w.next, g);
    }
  }

  lemma StepKeepsSysInv(s: Sys, e: Event)
    requires SysInv(s) && Enabled(s, e)
    ensures SysInv(Apply(s, e))
  {
    hide Inv, WorkItem, TriesRun;
    if IsWebhook(e) {
      WebhookKeepsSysInv(s, e);
    } else if e.Handle? {
      HandleKeepsSysInv(s, e.handled);
    } else if e.Fetch? {
      FetchKeepsSysInv(s, e.rows, e.list);
    } else if e.Clock? {
      ClockKeepsInv(s.w, e.now);
    }
  }

  lemma ClockKeepsInv(w: World, now: int)
    requires Inv(w)
    ensures Inv(w.(now := now))
  {
  }

  lemma InitialSysInv(s: Sys)
    requires Initial(s)
    ensures SysInv(s)
  {
  }

  lemma {:induction false} TraceKeepsSysInv(s: Sys, es: seq<Event>)
    requires SysInv(s) && ValidTrace(s, es)
    ensures SysInv(RunTrace(s, es))
    decreases |es|
  {
    hide SysInv, Apply;
    if es != [] {
      StepKeepsSysInv(s, es[0]);
      TraceKeepsSysInv(Apply(s, es[0]), es[1..]);
    }
  }
}
