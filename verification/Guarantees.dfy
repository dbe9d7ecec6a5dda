/** What a user can count on over whole transactions and ticks: verdicts, times, and what a commit keeps. */
module Guarantees {
  import opened Basics
  import opened CiRuns
  import opened Checks
  import opened PrRows
  import opened Labels
  import opened Store
  import opened Workflow
  import opened Handlers
  import opened Scheduler
  import opened System
  import opened Invariants
  import opened WorkflowProofs
  import opened HandlerProofs
  import opened SystemProofs
  import opened Commands
  import opened Safety
  import opened Effects
  import opened Replies
  import CiBranches
  import Targets

  // ---- Transactions ----

  /** A commit keeps all a handler did; an undone one keeps what GitHub was asked and the ids it used, and no row. */
  lemma CommitExactly(s: Sys, e: Event)
    requires IsWebhook(e)
    ensures var o := Result(Heard(s.w, e), e);
            var s2 := Apply(s, e);
            && s2.work == s.work && s2.horizon == s.horizon
            && (o.res.Ok? && e.commit ==> s2.w == o.w)
            && (o.res.Err? || !e.commit ==> s2.w.db == s.w.db && s2.w.hub == o.w.hub && s2.w.next == o.w.next)
  {
  }

  // ---- A failed check ----

  predicate ReportsFailure(c: CheckReport) {
    c.conclusion in {Some(ConclFailure), Some(ConclTimedOut), Some(ConclActionRequired)}
  }

  /** The report is about the only row the run has under that name. */
  ghost predicate OnlyRowOfName(t: Table, c: CheckReport, run: nat) {
    forall k :: k in t && t[k].run == run && t[k].name == c.name ==> k == c.id
  }

  /**
   A required check that is reported as failed never makes the webhook push: the run fails, once
   that is stored.
   */
  lemma FailedCheckNeverPushes(w: World, repo: int, c: CheckReport, a: RefreshAnswers, i: nat)
    requires Inv(w) && RunsCommit(w, i, c.headSha) && ReportsFailure(c)
    requires c.name in ConfigOf(w, repo).required && OnlyRowOfName(w.db.checks, c, i)
    requires a.rows.Some? ==> RowsFor(a.rows.value, StoreCheck(w, repo, c, w.db.runs[i]).db.checks, i)
    ensures var w2 := CheckRun(w, repo, c, a).w;
            && w2.hub.pushes == w.hub.pushes
            && (a.rows.Some? && a.fail.stored ==> w2.db.runs == FailedRows(w.db.runs, i, w.now))
  {
    hide Inv, Refresh, CheckRun, BySha, Judge;
    var run := w.db.runs[i];
    var w1 := StoreCheck(w, repo, c, run);
    var pr := w.db.prs[(run.repo, run.pr)];
    CheckReplies(w, repo, c, a, i);
    RequiredHere(ConfigOf(w, repo).required, c.name);
    OpenRunFacts(w, i);
    if a.rows.Some? {
      FailedRowDecides(w1, repo, c, a.rows.value, i);
      RefreshDecides(w1, repo, run, pr, a);
      var k :| FirstFailed(ConfigOf(w1, repo).required, ByName(a.rows.value), k);
      FailWrites(w1, repo, run, pr, TestsFailed(ConfigOf(w1, repo).required[k]), a.fail);
    } else {
      RefreshOtherwise(w1, repo, run, pr, a);
    }
  }

  lemma RequiredHere(required: seq<string>, name: string)
    requires name in required
    ensures IsRequired(required, name)
  {
    var i :| 0 <= i < |required| && required[i] == name;
    assert SameIgnoringCase(required[i], name);
  }

  /** A run with a commit that is not completed is in progress. */
  lemma OpenRunFacts(w: World, i: nat)
    requires Inv(w) && i in w.db.runs && w.db.runs[i].sha.Some? && w.db.runs[i].completedAt.None?
    ensures w.db.runs[i].id == i && w.db.runs[i].startedAt.Some? && w.db.runs[i].status.InProgress?
  {
    assert Coherent(w.db.runs[i]);
  }

  lemma FailedRowDecides(w1: World, repo: int, c: CheckReport, rows: seq<Check>, i: nat)
    requires RowsFor(rows, w1.db.checks, i) && c.id in w1.db.checks && OnlyRowOfName(w1.db.checks, c, i)
    requires w1.db.checks[c.id].run == i && w1.db.checks[c.id].name == c.name && w1.db.checks[c.id].status.CheckFailure?
    requires c.name in ConfigOf(w1, repo).required
    ensures exists k :: FirstFailed(ConfigOf(w1, repo).required, ByName(rows), k)
  {
    var required := ConfigOf(w1, repo).required;
    var view := ByName(rows);
    assert w1.db.checks[c.id] in rows;
    assert view[c.name] in rows && view[c.name].name == c.name;
    JudgeFirst(required, view);
    assert view[c.name] == w1.db.checks[c.id];
  }

  // ---- An accepted push ----

  /** Everything a deciding check of a merge needs to go well, up to the answer about the deletion of the branch. */
  ghost predicate DecidesWell(w: World, repo: int, c: CheckReport, a: RefreshAnswers, i: nat) {
    && RunsCommit(w, i, c.headSha) && !w.db.runs[i].dry && IsRequired(ConfigOf(w, repo).required, c.name)
    && a.rows.Some? && AllSucceeded(ConfigOf(w, repo).required, ByName(a.rows.value))
    && a.success.stored && a.success.users && a.success.message && a.success.push && a.success.labels.stored
  }

  /**
   A committed check webhook that decides a merge and whose push is accepted leaves the run a
   Success, completed now, with one more push, the accepted one of its commit.
   */
  lemma AcceptedPushStays(s: Sys, e: Event, i: nat)
    requires SysInv(s) && Enabled(s, e) && e.CheckEvent? && e.commit
    ensures var s2 := Apply(s, e);
            DecidesWell(s.w, e.repo, e.check, e.checked, i) ==>
              && s2.w.db.runs == s.w.db.runs[i := s.w.db.runs[i].(status := Success, completedAt := Some(s.w.now))]
              && |s2.w.hub.pushes| == |s.w.hub.pushes| + 1
              && var p := s2.w.hub.pushes[|s.w.hub.pushes|];
                 p.run == i && p.repo == e.repo && p.accepted && Some(p.sha) == s.w.db.runs[i].sha
  {
    hide Inv, Refresh, Succeed, CheckRun, AllSucceeded, LabelsGo;
    if DecidesWell(s.w, e.repo, e.check, e.checked, i) {
      var w := Heard(s.w, e);
      var run := w.db.runs[i];
      OpenRunFacts(s.w, i);
      HeardInv(s.w, e.repo, e.check);
      CheckReplies(w, e.repo, e.check, e.checked, i);
      var w1 := StoreCheck(w, e.repo, e.check, run);
      var pr := w.db.prs[(run.repo, run.pr)];
      RefreshDecides(w1, e.repo, run, pr, e.checked);
      SuccessExactly(w1, e.repo, run, pr, e.checked.success);
      SucceedPushesExactly(w1, e.repo, run, pr, e.checked.success);
      StoredLabelsGo(w1, e.repo, pr, Success, run.dry, e.checked.success.labels);
      CheckResult(w, e);
    }
  }

  lemma StoredLabelsGo(w: World, repo: int, pr: PrRow, status: Status, dry: bool, a: LabelAnswers)
    requires a.stored
    ensures LabelsGo(w, repo, pr, status, dry, a)
  {
  }

  // ---- The time a run is given ----

  /** A run is in progress now and was not before, if it was there at all. */
  predicate NewlyInProgress(before: Rows, after: Rows, i: nat) {
    i in after && after[i].status.InProgress? && !(i in before && before[i].status.InProgress?)
  }

  lemma HandlerStamps(s: Sys, e: Event, i: nat)
    requires SysInv(s) && IsWebhook(e) && Enabled(s, e)
    ensures var w := Heard(s.w, e);
            var o := Result(w, e);
            o.res.Ok? && NewlyInProgress(w.db.runs, o.w.db.runs, i) ==> o.w.db.runs[i].startedAt == Some(s.w.now)
  {
    hide Inv, Try, Merge, Retry, Cancel, PrChange, CheckRun, ApproversKnown;
    var w := Heard(s.w, e);
    var o := Result(w, e);
    HandlerIsGood(s, e);
    if o.res.Ok? && NewlyInProgress(w.db.runs, o.w.db.runs, i) {
      assert i in w.db.runs ==> GentleRow(w.db.runs[i], o.w.db.runs[i]);
      match e
      case TryCommand(repo, user, pr, args, a, _) => TrySupersedes(s.w, repo, user, pr, args, a);
      case MergeCommand(repo, user, pr, priority, a, _) => MergeQueuesExactly(s.w, repo, user, pr, priority, a);
      case RetryCommand(repo, user, pr, a, _) => RetryStamps(s.w, repo, user, pr, a);
      case CancelCommand(repo, user, pr, a, _) => CancelSupersedes(s.w, repo, user, pr, a);
      case PrEvent(repo, user, pr, a, _) => Targets.PrChangeAddsNoRun(s.w, repo, user, pr, a);
      case CheckEvent(repo, c, a, _) =>
        HeardInv(s.w, repo, c);
        CheckRunIsGood(w, repo, c, a);
    }
  }

  lemma RetryStamps(w: World, repo: int, user: int, pr: PullRequest, a: RetryAnswers)
    requires Inv(w)
    ensures var o := Retry(w, repo, user, pr, a);
            o.w.db.runs == w.db.runs || Added(w, o)
  {
    hide Retry, Latest, Inv;
    Targets.LatestIsNewest(w, repo, pr.number);
    var latest := Latest(w.db.runs, w.next, repo, pr.number);
    if latest.Some? {
      RetryRepeatsExactly(w, repo, user, pr, a, latest.value.id);
    } else {
      RetryOfNothing(w, repo, user, pr, a);
    }
  }

  lemma HandlingStamps(w: World, v: Run, a: HandleAnswers, horizon: nat, i: nat)
    requires Inv(w) && WorkItem(v, w.db.runs, horizon)
    ensures NewlyInProgress(w.db.runs, HandleRun(w, v, a).w.db.runs, i) ==>
              i == v.id && HandleRun(w, v, a).w.db.runs[i].startedAt == Some(w.now)
  {
    hide Start, Refresh, Inv;
    AllRowsCoherent(w);
    HandleOnlyWrites(w, v, a);
    if (v.repo, v.pr) in w.db.prs {
      var pr := w.db.prs[(v.repo, v.pr)];
      if v.startedAt.None? {
        StartExactly(w, v.repo, v, pr, a.start);
      } else {
        CiBranches.RefreshLeavesProgress(w, v, pr, a.refresh);
      }
    }
  }

  /** Whoever puts a run in progress writes down the time. */
  lemma StartsAreStamped(s: Sys, e: Event, i: nat)
    requires SysInv(s) && Enabled(s, e)
    ensures NewlyInProgress(s.w.db.runs, Apply(s, e).w.db.runs, i) ==>
            Apply(s, e).w.db.runs[i].startedAt == Some(s.w.now)
  {
    hide Inv, Result, HandleRun, WorkItem;
    if IsWebhook(e) {
      HandlerStamps(s, e, i);
    } else if e.Handle? {
      assert WorkItem(s.work[0], s.w.db.runs, s.horizon);
      HandlingStamps(s.w, s.work[0], e.handled, s.horizon, i);
    }
  }

  /** The checks of a run, so far: no required one failed, and some required one has not succeeded. */
  ghost predicate Undecided(t: Table, run: nat, required: seq<string>) {
    && (forall k :: k in t && t[k].run == run && t[k].name in required ==> !t[k].status.CheckFailure?)
    && (exists n :: n in required
                    && forall k :: k in t && t[k].run == run && t[k].name == n ==> !t[k].status.CheckSuccess?)
  }

  /** An undecided run that is looked at within its time is left as it is. */
  lemma UndecidedIsLeft(w: World, repo: int, run: Run, pr: PrRow, a: RefreshAnswers)
    requires run.completedAt.None? && run.startedAt.Some?
    requires a.rows.Some? ==> RowsFor(a.rows.value, w.db.checks, run.id)
    requires Undecided(w.db.checks, run.id, ConfigOf(w, repo).required)
    requires w.now - run.startedAt.value <= ConfigOf(w, repo).timeoutMinutes * 60_000
    ensures Refresh(w, repo, run, pr, a).w == w
  {
    hide Refresh, Judge, Undecided;
    var required := ConfigOf(w, repo).required;
    if a.rows.Some? {
      UndecidedView(w.db.checks, run.id, required, a.rows.value);
      RefreshDecides(w, repo, run, pr, a);
    } else {
      RefreshOtherwise(w, repo, run, pr, a);
    }
  }

  lemma UndecidedView(t: Table, run: nat, required: seq<string>, rows: seq<Check>)
    requires RowsFor(rows, t, run) && Undecided(t, run, required)
    ensures !AllSucceeded(required, ByName(rows)) && !exists i :: FirstFailed(required, ByName(rows), i)
  {
    var view := ByName(rows);
    var n :| n in required && forall k :: k in t && t[k].run == run && t[k].name == n ==> !t[k].status.CheckSuccess?;
    var j :| 0 <= j < |required| && required[j] == n;
    if n in view {
      assert view[n] in rows && t[view[n].id] == view[n];
    }
    forall m | m in required && m in view
      ensures !view[m].status.CheckFailure?
    {
      assert view[m] in rows && t[view[m].id] == view[m];
    }
  }

  /** An undecided run that is looked at after its time is failed, once that is stored. */
  lemma UndecidedIsFailedLate(w: World, repo: int, run: Run, pr: PrRow, a: RefreshAnswers)
    requires run.completedAt.None? && run.startedAt.Some? && a.rows.Some?
    requires RowsFor(a.rows.value, w.db.checks, run.id) && Undecided(w.db.checks, run.id, ConfigOf(w, repo).required)
    requires w.now - run.startedAt.value > ConfigOf(w, repo).timeoutMinutes * 60_000
    ensures Refresh(w, repo, run, pr, a) == Fail(w, repo, run, pr, TestsTimedOut, a.fail)
  {
    hide Refresh, Judge, Undecided, Fail;
    UndecidedView(w.db.checks, run.id, ConfigOf(w, repo).required, a.rows.value);
    RefreshDecides(w, repo, run, pr, a);
  }

  lemma {:induction false} ConfStays(s: Sys, es: seq<Event>)
    requires SysInv(s) && ValidTrace(s, es)
    ensures RunTrace(s, es).w.conf == s.w.conf
    decreases |es|
  {
    hide SysInv, Apply;
    if es != [] {
      StepKeepsSysInv(s, es[0]);
      StepKeepsConf(s, es[0]);
      ConfStays(Apply(s, es[0]), es[1..]);
    }
  }

  /** What a start at one time means for an item read later. */
  lemma StartedAtStays(s: Sys, e: Event, es: seq<Event>, v: Run)
    requires SysInv(s) && Enabled(s, e) && ValidTrace(Apply(s, e), es)
    requires NewlyInProgress(s.w.db.runs, Apply(s, e).w.db.runs, v.id) && v.startedAt.Some?
    requires v.id in RunTrace(Apply(s, e), es).w.db.runs && Evolves(v, RunTrace(Apply(s, e), es).w.db.runs[v.id])
    ensures v.startedAt == Some(s.w.now) && SysInv(RunTrace(Apply(s, e), es))
            && RunTrace(Apply(s, e), es).w.conf == s.w.conf
  {
    hide SysInv, Apply;
    var s1 := Apply(s, e);
    StartsAreStamped(s, e, v.id);
    StepKeepsSysInv(s, e);
    StepKeepsConf(s, e);
    RowsEvolveOverRuns(s1, es);
    ConfStays(s1, es);
    TraceKeepsSysInv(s1, es);
    assert Evolves(s1.w.db.runs[v.id], RunTrace(s1, es).w.db.runs[v.id]);
  }

  /**
   A run that a step puts in progress keeps its row when the scheduler handles it at most the
   configured minutes after that step and its checks have not decided it, whatever came between.
   */
  lemma StartedRunIsGivenItsTime(s: Sys, e: Event, es: seq<Event>, a: HandleAnswers)
    requires SysInv(s) && Enabled(s, e) && ValidTrace(Apply(s, e), es)
    ensures var t := RunTrace(Apply(s, e), es);
            && Enabled(t, Handle(a)) && t.work[0].startedAt.Some?
            && NewlyInProgress(s.w.db.runs, Apply(s, e).w.db.runs, t.work[0].id)
            && t.w.now <= s.w.now + ConfigOf(s.w, t.work[0].repo).timeoutMinutes * 60_000
            && Undecided(t.w.db.checks, t.work[0].id, ConfigOf(s.w, t.work[0].repo).required) ==>
              Apply(t, Handle(a)).w == t.w
  {
    hide Inv, Start, Refresh, Apply, Undecided;
    var s1 := Apply(s, e);
    var t := RunTrace(s1, es);
    StepKeepsSysInv(s, e);
    TraceKeepsSysInv(s1, es);
    if && Enabled(t, Handle(a)) && t.work[0].startedAt.Some?
       && NewlyInProgress(s.w.db.runs, s1.w.db.runs, t.work[0].id)
       && t.w.now <= s.w.now + ConfigOf(s.w, t.work[0].repo).timeoutMinutes * 60_000
       && Undecided(t.w.db.checks, t.work[0].id, ConfigOf(s.w, t.work[0].repo).required)
    {
      assert WorkItem(t.work[0], t.w.db.runs, t.horizon);
      StartedAtStays(s, e, es, t.work[0]);
      HandledIsLeft(t, a);
    }
  }

  lemma HandledIsLeft(t: Sys, a: HandleAnswers)
    requires Enabled(t, Handle(a)) && t.work[0].startedAt.Some? && t.work[0].completedAt.None?
    requires t.w.now - t.work[0].startedAt.value <= ConfigOf(t.w, t.work[0].repo).timeoutMinutes * 60_000
    requires Undecided(t.w.db.checks, t.work[0].id, ConfigOf(t.w, t.work[0].repo).required)
    ensures Apply(t, Handle(a)).w == t.w
  {
    hide Refresh, Start, Undecided;
    var v := t.work[0];
    if (v.repo, v.pr) in t.w.db.prs {
      UndecidedIsLeft(t.w, v.repo, v, t.w.db.prs[(v.repo, v.pr)], a.refresh);
    }
  }
}
