/** How long runs take: bounded completion, the order of the queue, and its draining. */
module Progress {
  import opened CiRuns
  import opened Checks
  import opened PrRows
  import opened Store
  import opened Workflow
  import opened Handlers
  import opened Scheduler
  import opened System
  import opened Invariants
  import opened WorkflowProofs
  import opened HandlerProofs
  import opened SystemProofs
  import opened Safety

  // ---- A tick that is carried out ----

  /** The database stores what handling a started run writes; GitHub may answer anything. */
  predicate RefreshStored(a: RefreshAnswers) {
    a.rows.Some? && a.fail.stored && a.success.stored
  }

  /** The database stores what `start` writes, and the reads before the merge commit succeed. */
  predicate StartStored(a: StartAnswers) {
    !a.base.BranchErr? && a.users && a.stored && a.fail.stored
  }

  /**
   Over a run of the system, every item of group `g` that comes up is handled rather than
   skipped, and its statements succeed.
   */
  ghost predicate Attended(s: Sys, es: seq<Event>, g: Group)
    requires ValidTrace(s, es)
    decreases |es|
  {
    es == [] ||
    ( && (es[0].Skip? ==> GroupOf(s.work[0]) != g)
      && (es[0].Handle? && GroupOf(s.work[0]) == g ==>
            if s.work[0].startedAt.Some? then RefreshStored(es[0].handled.refresh)
            else StartStored(es[0].handled.start))
      && Attended(Apply(s, es[0]), es[1..], g))
  }

  // ---- Bounded completion ----

  /** A run that is out of time is completed when it is handled, whatever GitHub answers. */
  lemma RefreshCompletes(w: World, repo: int, run: Run, pr: PrRow, a: RefreshAnswers)
    requires run.id in w.db.runs && run.startedAt.Some? && run.completedAt.None? && RefreshStored(a)
    requires TimedOut(w, repo, run.startedAt.value)
    ensures var runs := Refresh(w, repo, run, pr, a).w.db.runs;
            run.id in runs && runs[run.id].completedAt.Some?
  {
    hide Fail, Succeed, Judge, ByName, TimedOut;
    var v := Judge(ConfigOf(w, repo).required, ByName(a.rows.value));
    if v.Green? {
      SucceedCompletes(w, repo, run, pr, a.success);
    } else if v.Broken? {
      FailWrites(w, repo, run, pr, TestsFailed(v.check.name), a.fail);
    } else {
      FailWrites(w, repo, run, pr, TestsTimedOut, a.fail);
    }
  }

  lemma HandleCompletes(s: Sys, a: HandleAnswers)
    requires SysInv(s) && s.work != [] && s.work[0].startedAt.Some? && RefreshStored(a.refresh)
    requires TimedOut(s.w, s.work[0].repo, s.work[0].startedAt.value)
    ensures var runs := HandleRun(s.w, s.work[0], a).w.db.runs;
            s.work[0].id in runs && runs[s.work[0].id].completedAt.Some?
  {
    hide Inv, Refresh, Start, TimedOut;
    var run := s.work[0];
    assert WorkItem(run, s.w.db.runs, s.horizon);
    RefreshCompletes(s.w, run.repo, run, s.w.db.prs[(run.repo, run.pr)], a.refresh);
  }

  /** Nothing a step does gives a run more time. */
  lemma StepKeepsOverdue(s: Sys, e: Event, repo: int, startedAt: int)
    requires SysInv(s) && Enabled(s, e) && TimedOut(s.w, repo, startedAt)
    ensures TimedOut(Apply(s, e).w, repo, startedAt)
  {
    hide Inv, Result, HandleRun;
    if IsWebhook(e) {
      HandlerIsGood(s, e);
    } else if e.Handle? {
      assert WorkItem(s.work[0], s.w.db.runs, s.horizon);
      HandleKeepsInv(s.w, s.work[0], e.handled, s.horizon);
    }
  }

  /** A row that is completed stays so to the end. */
  lemma StaysCompleted(s: Sys, es: seq<Event>, i: nat)
    requires SysInv(s) && ValidTrace(s, es) && i in s.w.db.runs && s.w.db.runs[i].completedAt.Some?
    ensures i in RunTrace(s, es).w.db.runs && RunTrace(s, es).w.db.runs[i].completedAt.Some?
  {
    RowsEvolveOverRuns(s, es);
  }

  /** An item that is out of time is completed by the time the list is worked off. */
  lemma {:induction false} OverdueItemCompletes(s: Sys, es: seq<Event>, k: nat)
    requires SysInv(s) && ValidTrace(s, es) && k < |s.work| && s.work[k].startedAt.Some?
    requires TimedOut(s.w, s.work[k].repo, s.work[k].startedAt.value)
    requires Attended(s, es, GroupOf(s.work[k])) && RunTrace(s, es).work == []
    ensures var runs := RunTrace(s, es).w.db.runs;
            s.work[k].id in runs && runs[s.work[k].id].completedAt.Some?
    decreases |es|
  {
    hide SysInv, TimedOut, Transaction, Result, HandleRun;
    var e := es[0];
    var s1 := Apply(s, e);
    StepKeepsSysInv(s, e);
    StepKeepsOverdue(s, e, s.work[k].repo, s.work[k].startedAt.value);
    if e.Handle? && k == 0 {
      HandleCompletes(s, e.handled);
      StaysCompleted(s1, es[1..], s.work[0].id);
    } else if e.Handle? {
      assert s1.work[k - 1] == s.work[k];
      OverdueItemCompletes(s1, es[1..], k - 1);
    } else if e.Skip? {
      FirstIsAnotherGroup(s, k);
      assert s1.work[k - 1] == s.work[k];
      OverdueItemCompletes(s1, es[1..], k - 1);
    } else {
      assert s1.work == s.work;
      OverdueItemCompletes(s1, es[1..], k);
    }
  }

  lemma FirstIsAnotherGroup(s: Sys, k: nat)
    requires s.work != [] && k < |s.work| && GroupOf(s.work[0]) != GroupOf(s.work[k])
    ensures k > 0
  {
  }

  /** Every run in progress when a tick begins is in the tick's list. */
  lemma InProgressIsListed(s: Sys, rows: seq<Run>, list: seq<Run>, i: nat) returns (k: nat)
    requires SysInv(s) && Enabled(s, Fetch(rows, list))
    requires i in s.w.db.runs && s.w.db.runs[i].status.InProgress?
    ensures k < |list| && list[k] == s.w.db.runs[i]
  {
    hide Choose;
    var r := s.w.db.runs[i];
    var g := GroupOf(r);
    AllRowsCoherent(s.w);
    assert r in rows;
    GroupIsChosen(rows, r);
    ChoiceIsRight(rows, g);
    var c := Choose(rows)[g];
    assert Holds(c, r);
    var j :| j in s.w.db.runs && s.w.db.runs[j] == c && c.completedAt.None?;
    assert Coherent(c);
    assert BothInProgress(s.w.db.runs[j], s.w.db.runs[i]);
    assert c in list;
    k :| 0 <= k < |list| && list[k] == c;
  }

  lemma GroupIsChosen(rows: seq<Run>, r: Run)
    requires r in rows
    ensures GroupOf(r) in Choose(rows)
  {
    var i :| 0 <= i < |rows| && rows[i] == r;
    EveryGroupChosen(rows, |rows|, i);
  }

  /**
   Bounded completion: a run in progress whose time is over when a tick begins is completed
   when the tick's list is worked off, whatever GitHub answers and whatever is interleaved.
   */
  lemma OverdueRunsComplete(s: Sys, rows: seq<Run>, list: seq<Run>, es: seq<Event>, i: nat)
    requires Reachable(s) && Enabled(s, Fetch(rows, list))
    requires i in s.w.db.runs && s.w.db.runs[i].status.InProgress? && s.w.db.runs[i].startedAt.Some?
    requires var r := s.w.db.runs[i];
             s.w.now - r.startedAt.value > ConfigOf(s.w, r.repo).timeoutMinutes * 60_000
    requires var s1 := Apply(s, Fetch(rows, list));
             ValidTrace(s1, es) && Attended(s1, es, GroupOf(s.w.db.runs[i])) && RunTrace(s1, es).work == []
    ensures var runs := RunTrace(Apply(s, Fetch(rows, list)), es).w.db.runs;
            i in runs && runs[i].completedAt.Some?
  {
    assert TimedOut(s.w, s.w.db.runs[i].repo, s.w.db.runs[i].startedAt.value);
    hide SysInv, TimedOut, Attended;
    ReachableInv(s);
    var k := InProgressIsListed(s, rows, list, i);
    StepKeepsSysInv(s, Fetch(rows, list));
    IdOfRow(s, i);
    OverdueItemCompletes(Apply(s, Fetch(rows, list)), es, k);
  }

  lemma IdOfRow(s: Sys, i: nat)
    requires SysInv(s) && i in s.w.db.runs
    ensures s.w.db.runs[i].id == i
  {
  }

  // ---- The order of the queue ----

  /** The queued runs of a group, and its uncompleted runs. */
  ghost function QueuedIn(runs: Rows, g: Group): set<nat> {
    set i | i in runs && GroupOf(runs[i]) == g && runs[i].status.Queued?
  }

  ghost function OpenIn(runs: Rows, g: Group): set<nat> {
    set i | i in runs && GroupOf(runs[i]) == g && runs[i].completedAt.None?
  }

  /** No arrivals, cancellations or edits: the scheduler, the clock and the checks go on alone. */
  predicate Undisturbed(e: Event) {
    e.Fetch? || e.Handle? || e.Skip? || e.Clock? || e.CheckEvent?
  }

  ghost predicate AllUndisturbed(es: seq<Event>) {
    forall i :: 0 <= i < |es| ==> Undisturbed(es[i])
  }

  /** The run a step takes off the queue of a group, if any. */
  ghost function TakenOff(s: Sys, e: Event, g: Group): seq<nat>
    requires Enabled(s, e)
  {
    if e.Handle? && s.work[0].id in QueuedIn(s.w.db.runs, g) - QueuedIn(Apply(s, e).w.db.runs, g)
    then [s.work[0].id] else []
  }

  /** The runs taken off the queue of a group, in the order in which that happens. */
  ghost function OrderOf(s: Sys, es: seq<Event>, g: Group): seq<nat>
    requires ValidTrace(s, es)
    decreases |es|
  {
    if es == [] then [] else TakenOff(s, es[0], g) + OrderOf(Apply(s, es[0]), es[1..], g)
  }

  /** A check report writes no queued row. */
  lemma CheckLeavesQueue(w: World, repo: int, c: CheckReport, a: RefreshAnswers, i: nat)
    requires Inv(w) && i in w.db.runs && w.db.runs[i].status.Queued?
    ensures i in CheckRun(w, repo, c, a).w.db.runs && CheckRun(w, repo, c, a).w.db.runs[i] == w.db.runs[i]
  {
    hide Refresh, BySha;
    var found := BySha(w.db.runs, w.next, c.headSha);
    if CheckRefreshes(w, repo, c) {
      var run := found.value;
      ByShaFacts(w, c.headSha);
      assert Coherent(w.db.runs[i]);
      RefreshOnlyWrites(StoreCheck(w, repo, c, run), repo, run, w.db.prs[(run.repo, run.pr)], a);
    }
  }

  lemma CheckKeepsQueue(s: Sys, e: Event, g: Group)
    requires SysInv(s) && Enabled(s, e) && e.CheckEvent?
    ensures Apply(s, e).w.db.runs.Keys == s.w.db.runs.Keys
    ensures QueuedIn(Apply(s, e).w.db.runs, g) == QueuedIn(s.w.db.runs, g)
  {
    hide Inv, CheckRun;
    var w := Hear(s.w, e.check);
    var runs, runs2 := s.w.db.runs, Apply(s, e).w.db.runs;
    HeardInv(s.w, e.repo, e.check);
    CheckRunIsGood(w, e.repo, e.check, e.checked);
    StepEvolves(s, e);
    forall i | i in QueuedIn(runs, g)
      ensures i in QueuedIn(runs2, g)
    {
      CheckLeavesQueue(w, e.repo, e.check, e.checked, i);
    }
    assert forall i :: i in runs ==> Evolves(runs[i], runs2[i]);
  }

  /** An undisturbed step takes at most its own item off a queue, and that item was the first of those listed. */
  lemma UndisturbedStep(s: Sys, e: Event, g: Group)
    requires SysInv(s) && Enabled(s, e) && Undisturbed(e)
    ensures var runs, runs2 := s.w.db.runs, Apply(s, e).w.db.runs;
            var taken := TakenOff(s, e, g);
            && runs2.Keys == runs.Keys
            && QueuedIn(runs2, g) == QueuedIn(runs, g) - (set r | r in taken)
            && (taken != [] ==>
                  forall q :: q in QueuedIn(runs, g) && q < s.horizon && q != taken[0] ==>
                      Before(runs[taken[0]], runs[q]))
            && (taken != [] ==> s.work[0].startedAt.None? && GroupOf(s.work[0]) == g)
  {
    hide Inv, HandleRun, Transaction, Result;
    if e.CheckEvent? {
      CheckKeepsQueue(s, e, g);
    } else if e.Handle? {
      HandleTakesOff(s, e.handled, g);
    }
  }

  lemma HandleTakesOff(s: Sys, a: HandleAnswers, g: Group)
    requires SysInv(s) && Enabled(s, Handle(a))
    ensures var e := Handle(a);
            var runs, runs2 := s.w.db.runs, Apply(s, e).w.db.runs;
            var taken := TakenOff(s, e, g);
            && runs2.Keys == runs.Keys
            && QueuedIn(runs2, g) == QueuedIn(runs, g) - (set r | r in taken)
            && (taken != [] ==>
                  forall q :: q in QueuedIn(runs, g) && q < s.horizon && q != taken[0] ==>
                      Before(runs[taken[0]], runs[q]))
            && (taken != [] ==> s.work[0].startedAt.None? && GroupOf(s.work[0]) == g)
  {
    hide Inv, HandleRun, WorkItem, OnlyWrites, AllCoherent, QueuedIn;
    AllRowsCoherent(s.w);
    assert WorkItem(s.work[0], s.w.db.runs, s.horizon);
    HandleOnlyWrites(s.w, s.work[0], a);
    ItemTakenOff(s.work[0], s.w.db.runs, HandleRun(s.w, s.work[0], a).w.db.runs, s.horizon, g);
  }

  /** Writing the row of an item takes at most that row off its queue, if it was the first of those listed. */
  lemma ItemTakenOff(item: Run, runs: Rows, runs2: Rows, horizon: nat, g: Group)
    requires AllCoherent(runs) && WorkItem(item, runs, horizon) && OnlyWrites(runs, runs2, item.id)
    ensures var off := item.id in QueuedIn(runs, g) - QueuedIn(runs2, g);
            && runs2.Keys == runs.Keys
            && QueuedIn(runs2, g) == QueuedIn(runs, g) - (if off then {item.id} else {})
            && (off ==> item.startedAt.None? && GroupOf(item) == g
                        && forall q :: q in QueuedIn(runs, g) && q < horizon && q != item.id ==>
                            Before(runs[item.id], runs[q]))
  {
    assert Coherent(runs[item.id]);
    assert forall q :: q in QueuedIn(runs, g) && GroupOf(item) == g ==> SameGroup(runs[q], item);
  }

  /** Every queued run of the group was there when the list was fetched, if the list still has an unstarted one. */
  ghost predicate Covered(s: Sys, g: Group) {
    forall k, q :: 0 <= k < |s.work| && s.work[k].startedAt.None? && GroupOf(s.work[k]) == g
                   && q in QueuedIn(s.w.db.runs, g) ==>
      q < s.horizon
  }

  lemma StepKeepsCovered(s: Sys, e: Event, g: Group)
    requires SysInv(s) && Enabled(s, e) && Undisturbed(e) && Covered(s, g)
    ensures Covered(Apply(s, e), g)
  {
    hide Inv, HandleRun, Transaction, Result, Choose, PendingRows;
    UndisturbedStep(s, e, g);
    var s1 := Apply(s, e);
    forall k, q | 0 <= k < |s1.work| && s1.work[k].startedAt.None? && GroupOf(s1.work[k]) == g
                  && q in QueuedIn(s1.w.db.runs, g)
      ensures q < s1.horizon
    {
      if e.Fetch? {
        IdsBelowNext(s.w, q);
      } else if e.Handle? || e.Skip? {
        assert s1.work[k] == s.work[k + 1];
      }
    }
  }

  lemma IdsBelowNext(w: World, i: nat)
    requires Inv(w) && i in w.db.runs
    ensures i < w.next
  {
  }

  /** A list of runs in strictly descending queue order. */
  ghost predicate InOrder(order: seq<nat>, runs: Rows) {
    && (forall i :: 0 <= i < |order| ==> order[i] in runs)
    && (forall i, j :: 0 <= i < j < |order| ==> Before(runs[order[i]], runs[order[j]]))
  }

  /**
   Undisturbed, a group's queued runs leave the queue exactly in order of priority, then age:
   those that left are in order, and each of them comes before all that are still queued.
   */
  lemma {:induction false} QueueOrder(s: Sys, es: seq<Event>, g: Group)
    requires SysInv(s) && ValidTrace(s, es) && AllUndisturbed(es) && Covered(s, g)
    ensures var order := OrderOf(s, es, g);
            var left := QueuedIn(RunTrace(s, es).w.db.runs, g);
            var queued := QueuedIn(s.w.db.runs, g);
            && InOrder(order, s.w.db.runs)
            && left <= queued && (set r | r in order) == queued - left
            && (forall i, q :: 0 <= i < |order| && q in left ==> Before(s.w.db.runs[order[i]], s.w.db.runs[q]))
    decreases |es|
  {
    hide SysInv, Apply, TakenOff, Covered;
    if es != [] {
      StepInOrder(s, es[0], g);
      QueueOrder(Apply(s, es[0]), es[1..], g);
      OrderCons(s.w.db.runs, Apply(s, es[0]).w.db.runs, TakenOff(s, es[0], g), OrderOf(Apply(s, es[0]), es[1..], g),
                QueuedIn(s.w.db.runs, g), QueuedIn(Apply(s, es[0]).w.db.runs, g),
                QueuedIn(RunTrace(Apply(s, es[0]), es[1..]).w.db.runs, g));
    }
  }

  /** What one step contributes to the order. */
  lemma StepInOrder(s: Sys, e: Event, g: Group)
    requires SysInv(s) && Enabled(s, e) && Undisturbed(e) && Covered(s, g)
    ensures SysInv(Apply(s, e)) && Covered(Apply(s, e), g)
    ensures var runs, runs2 := s.w.db.runs, Apply(s, e).w.db.runs;
            var taken := TakenOff(s, e, g);
            && (forall i :: i in runs ==> i in runs2 && SameRun(runs[i], runs2[i]))
            && |taken| <= 1 && (forall r :: r in taken ==> r in QueuedIn(runs, g))
            && QueuedIn(runs2, g) == QueuedIn(runs, g) - (set r | r in taken)
            && (forall r, q :: r in taken && q in QueuedIn(runs, g) && q != r ==> Before(runs[r], runs[q]))
  {
    hide Inv, HandleRun, Transaction, Result;
    StepKeepsSysInv(s, e);
    StepKeepsCovered(s, e, g);
    UndisturbedStep(s, e, g);
    StepEvolves(s, e);
  }

  lemma OrderCons(runs: Rows, runs2: Rows, taken: seq<nat>, rest: seq<nat>, q0: set<nat>, q1: set<nat>, q2: set<nat>)
    requires forall i :: i in runs ==> i in runs2 && SameRun(runs[i], runs2[i])
    requires q0 <= runs.Keys && |taken| <= 1 && (forall r :: r in taken ==> r in q0) && q1 == q0 - (set r | r in taken)
    requires forall r, q :: r in taken && q in q0 && q != r ==> Before(runs[r], runs[q])
    requires InOrder(rest, runs2) && q2 <= q1 && (set r | r in rest) == q1 - q2
    requires forall i, q :: 0 <= i < |rest| && q in q2 ==> Before(runs2[rest[i]], runs2[q])
    ensures var order := taken + rest;
            && InOrder(order, runs) && q2 <= q0 && (set r | r in order) == q0 - q2
            && (forall i, q :: 0 <= i < |order| && q in q2 ==> Before(runs[order[i]], runs[q]))
  {
    var order := taken + rest;
    forall i | 0 <= i < |rest|
      ensures rest[i] in q1 && rest[i] in q0
    {
      var x := rest[i];
      assert x in rest;
      assert x in (set r | r in rest);
      assert x in q1 - q2;
    }
    assert forall i :: 0 <= i < |taken| ==> taken[i] in taken;
    assert (set r | r in order) == (set r | r in taken) + (set r | r in rest);
  }

  /** When the queue ends up empty, the order is the whole queue. */
  lemma WholeQueueInOrder(s: Sys, es: seq<Event>, g: Group)
    requires Reachable(s) && s.work == [] && ValidTrace(s, es) && AllUndisturbed(es)
    requires QueuedIn(RunTrace(s, es).w.db.runs, g) == {}
    ensures InOrder(OrderOf(s, es, g), s.w.db.runs)
    ensures forall r :: r in OrderOf(s, es, g) <==> r in QueuedIn(s.w.db.runs, g)
  {
    hide SysInv;
    ReachableInv(s);
    QueueOrder(s, es, g);
    var order := OrderOf(s, es, g);
    forall r
      ensures r in order <==> r in QueuedIn(s.w.db.runs, g)
    {
      assert r in order <==> r in (set x | x in order);
      assert (set x | x in order) == QueuedIn(s.w.db.runs, g);
    }
  }

  /** When a run is in progress, every other run of its group is queued or completed. */
  lemma OthersQueuedOrDone(s: Sys, i: nat, j: nat)
    requires Reachable(s) && i in s.w.db.runs && j in s.w.db.runs && i != j
    requires s.w.db.runs[i].status.InProgress? && GroupOf(s.w.db.runs[i]) == GroupOf(s.w.db.runs[j])
    ensures s.w.db.runs[j].status.Queued? || s.w.db.runs[j].completedAt.Some?
  {
    ReachableInv(s);
    assert Coherent(s.w.db.runs[j]);
    assert BothInProgress(s.w.db.runs[i], s.w.db.runs[j]) || !s.w.db.runs[j].status.InProgress?;
  }

  // ---- The queue drains ----

  /** Work left in a group: one for a run in progress, two for a queued run. */
  ghost function Rank(runs: Rows, g: Group): nat {
    |QueuedIn(runs, g)| + |OpenIn(runs, g)|
  }

  lemma SubsetSize(a: set<nat>, b: set<nat>)
    requires a <= b
    ensures |a| <= |b| && (a != b ==> |a| < |b|)
  {
    assert b == a + (b - a);
    assert |b| == |a| + |b - a|;
  }

  /** Rows that only evolve never add to the rank; a run that leaves the queue or completes lowers it. */
  lemma RankFalls(runs: Rows, runs2: Rows, g: Group)
    requires runs2.Keys == runs.Keys && forall i :: i in runs ==> Evolves(runs[i], runs2[i])
    ensures Rank(runs2, g) <= Rank(runs, g)
    ensures QueuedIn(runs2, g) != QueuedIn(runs, g) || OpenIn(runs2, g) != OpenIn(runs, g) ==>
            Rank(runs2, g) < Rank(runs, g)
  {
    assert QueuedIn(runs2, g) <= QueuedIn(runs, g) && OpenIn(runs2, g) <= OpenIn(runs, g);
    SubsetSize(QueuedIn(runs2, g), QueuedIn(runs, g));
    SubsetSize(OpenIn(runs2, g), OpenIn(runs, g));
  }

  lemma {:induction false} UndisturbedKeepsKeys(s: Sys, es: seq<Event>)
    requires SysInv(s) && ValidTrace(s, es) && AllUndisturbed(es)
    ensures RunTrace(s, es).w.db.runs.Keys == s.w.db.runs.Keys
    decreases |es|
  {
    hide SysInv, Apply, TakenOff;
    if es != [] {
      StepKeepsSysInv(s, es[0]);
      UndisturbedStep(s, es[0], (0, ""));
      UndisturbedKeepsKeys(Apply(s, es[0]), es[1..]);
    }
  }

  /** A queued item leaves the queue when it is handled and its statements succeed. */
  lemma HandleTakesQueued(s: Sys, a: HandleAnswers)
    requires SysInv(s) && s.work != [] && s.work[0].startedAt.None? && StartStored(a.start)
    ensures var runs := HandleRun(s.w, s.work[0], a).w.db.runs;
            s.work[0].id in runs && !runs[s.work[0].id].status.Queued?
  {
    hide Inv, Start, Refresh;
    var run := s.work[0];
    assert WorkItem(run, s.w.db.runs, s.horizon);
    AllRowsCoherent(s.w);
    HandleOnlyWrites(s.w, run, a);
    StoredStartTakes(s.w, run.repo, run, s.w.db.prs[(run.repo, run.pr)], a.start);
  }

  lemma StoredStartTakes(w: World, repo: int, run: Run, pr: PrRow, a: StartAnswers)
    requires StartStored(a)
    ensures var runs := Start(w, repo, run, pr, a).w.db.runs; run.id in runs ==> !runs[run.id].status.Queued?
  {
    hide StartOn, Fail;
    if run.base.Commit? {
      StoredStartOnTakes(w, repo, run, pr, run.base.sha, a);
    } else if a.base.BranchAt? {
      StoredStartOnTakes(w, repo, run, pr, a.base.sha, a);
    } else {
      FailWrites(w, repo, run, pr, BaseMissing, a.fail);
    }
  }

  lemma StoredStartOnTakes(w: World, repo: int, run: Run, pr: PrRow, base: string, a: StartAnswers)
    requires StartStored(a)
    ensures var runs := StartOn(w, repo, run, pr, base, a).w.db.runs; run.id in runs ==> !runs[run.id].status.Queued?
  {
    hide FailedStart, UpdateLabels;
    var w1 := Send(w, MakeMerge(repo, base, run.head));
    match a.merge
    case MergeClash => FailedStartWrites(w1, repo, run, pr, MergeConflict, a.fail);
    case MergeErr => FailedStartWrites(w1, repo, run, pr, MergeFailed, a.fail);
    case MergedAs(sha) =>
      var runs2 := StartedRows(w.db.runs, run.id, sha, w.now);
      assert run.id in runs2 ==> !runs2[run.id].status.Queued?;
      var w4 := Send(SetRuns(Mint(w1, sha, repo), runs2), PushCi(repo, run.ciBranch, sha));
      FailedStartWrites(w4, repo, run, pr, CiPushFailed, a.fail);
      LabelsWrite(Send(w4, Comment(repo, run.pr, TestsStarted)), repo, pr, InProgress, run.dry, a.labels);
  }

  /** A queued item of an attended list has left the queue when the list is worked off. */
  lemma {:induction false} QueuedItemLeaves(s: Sys, es: seq<Event>, k: nat)
    requires SysInv(s) && ValidTrace(s, es) && k < |s.work| && s.work[k].startedAt.None?
    requires Attended(s, es, GroupOf(s.work[k])) && RunTrace(s, es).work == []
    ensures var runs := RunTrace(s, es).w.db.runs;
            s.work[k].id in runs && !runs[s.work[k].id].status.Queued?
    decreases |es|
  {
    hide SysInv, Transaction, Result, HandleRun;
    var e := es[0];
    var s1 := Apply(s, e);
    StepKeepsSysInv(s, e);
    if e.Handle? && k == 0 {
      HandleTakesQueued(s, e.handled);
      RowsEvolveOverRuns(s1, es[1..]);
    } else if e.Handle? {
      assert s1.work[k - 1] == s.work[k];
      QueuedItemLeaves(s1, es[1..], k - 1);
    } else if e.Skip? {
      FirstIsAnotherGroup(s, k);
      assert s1.work[k - 1] == s.work[k];
      QueuedItemLeaves(s1, es[1..], k - 1);
    } else {
      assert s1.work == s.work;
      QueuedItemLeaves(s1, es[1..], k);
    }
  }

  /** One whole tick: a fetch, and then undisturbed steps until the list is worked off. */
  datatype Tick = Tick(rows: seq<Run>, list: seq<Run>, rest: seq<Event>)

  /**
   A tick that group `g` gets the benefit of: it is attended, and if a run of the group is in
   progress when it begins, that run is out of time.
   */
  ghost predicate ServingTick(s: Sys, t: Tick, g: Group) {
    && Enabled(s, Fetch(t.rows, t.list))
    && var s1 := Apply(s, Fetch(t.rows, t.list));
       && ValidTrace(s1, t.rest) && AllUndisturbed(t.rest) && Attended(s1, t.rest, g) && RunTrace(s1, t.rest).work == []
       && (forall i :: i in s.w.db.runs && GroupOf(s.w.db.runs[i]) == g && s.w.db.runs[i].status.InProgress?
                       && s.w.db.runs[i].startedAt.Some? ==>
             TimedOut(s.w, s.w.db.runs[i].repo, s.w.db.runs[i].startedAt.value))
  }

  ghost function AfterTick(s: Sys, t: Tick): Sys
    requires Enabled(s, Fetch(t.rows, t.list)) && ValidTrace(Apply(s, Fetch(t.rows, t.list)), t.rest)
  {
    RunTrace(Apply(s, Fetch(t.rows, t.list)), t.rest)
  }

  /** Each such tick lowers the rank of a group that has work left. */
  lemma TickLowersRank(s: Sys, t: Tick, g: Group)
    requires SysInv(s) && ServingTick(s, t, g)
    ensures SysInv(AfterTick(s, t)) && AfterTick(s, t).work == []
    ensures Rank(AfterTick(s, t).w.db.runs, g) <= Rank(s.w.db.runs, g)
    ensures Rank(s.w.db.runs, g) > 0 ==> Rank(AfterTick(s, t).w.db.runs, g) < Rank(s.w.db.runs, g)
  {
    hide SysInv, Attended, TimedOut, Enabled, Rank;
    var f := Fetch(t.rows, t.list);
    var s1 := Apply(s, f);
    var runs, runs2 := s.w.db.runs, AfterTick(s, t).w.db.runs;
    StepKeepsSysInv(s, f);
    TraceKeepsSysInv(s1, t.rest);
    UndisturbedKeepsKeys(s1, t.rest);
    RowsEvolveOverRuns(s1, t.rest);
    RankFalls(runs, runs2, g);
    if Rank(runs, g) > 0 {
      SomethingOpen(s, g);
      var i :| i in OpenIn(runs, g);
      ListServes(s, t, g, i);
    }
  }

  lemma SomethingOpen(s: Sys, g: Group)
    requires SysInv(s) && Rank(s.w.db.runs, g) > 0
    ensures OpenIn(s.w.db.runs, g) != {}
  {
    AllRowsCoherent(s.w);
    var runs := s.w.db.runs;
    if QueuedIn(runs, g) != {} {
      var i :| i in QueuedIn(runs, g);
      assert Coherent(runs[i]) && i in OpenIn(runs, g);
    }
  }

  /** A group with an open run has an item in the list, and that item moves on. */
  lemma ListServes(s: Sys, t: Tick, g: Group, i: nat)
    requires SysInv(s) && ServingTick(s, t, g) && i in OpenIn(s.w.db.runs, g)
    ensures var runs, runs2 := s.w.db.runs, AfterTick(s, t).w.db.runs;
            QueuedIn(runs2, g) != QueuedIn(runs, g) || OpenIn(runs2, g) != OpenIn(runs, g)
  {
    hide Inv, Attended, TimedOut, Choose;
    var f := Fetch(t.rows, t.list);
    var s1 := Apply(s, f);
    var runs, runs2 := s.w.db.runs, AfterTick(s, t).w.db.runs;
    var r := runs[i];
    StepKeepsSysInv(s, f);
    AllRowsCoherent(s.w);
    assert r in t.rows;
    GroupIsChosen(t.rows, r);
    ChoiceIsRight(t.rows, g);
    var c := Choose(t.rows)[g];
    assert c in t.list;
    var k :| 0 <= k < |t.list| && t.list[k] == c;
    var j :| j in runs && runs[j] == c && c.completedAt.None?;
    IdOfRow(s, j);
    assert Coherent(c);
    if c.startedAt.Some? {
      OverdueItemCompletes(s1, t.rest, k);
      assert j in OpenIn(runs, g) && j !in OpenIn(runs2, g);
    } else {
      QueuedItemLeaves(s1, t.rest, k);
      assert j in QueuedIn(runs, g) && j !in QueuedIn(runs2, g);
    }
  }

  ghost predicate ServingTicks(s: Sys, ts: seq<Tick>, g: Group)
    decreases |ts|
  {
    ts == [] || (ServingTick(s, ts[0], g) && ServingTicks(AfterTick(s, ts[0]), ts[1..], g))
  }

  ghost function AfterTicks(s: Sys, ts: seq<Tick>, g: Group): Sys
    requires ServingTicks(s, ts, g)
    decreases |ts|
  {
    if ts == [] then s else AfterTicks(AfterTick(s, ts[0]), ts[1..], g)
  }

  /** As many serving ticks as the rank leave no uncompleted run in the group. */
  lemma {:induction false} QueueDrains(s: Sys, ts: seq<Tick>, g: Group)
    requires SysInv(s) && ServingTicks(s, ts, g) && |ts| >= Rank(s.w.db.runs, g)
    ensures OpenIn(AfterTicks(s, ts, g).w.db.runs, g) == {}
    decreases |ts|
  {
    hide SysInv, Attended, TimedOut, Apply;
    if ts != [] {
      TickLowersRank(s, ts[0], g);
      QueueDrains(AfterTick(s, ts[0]), ts[1..], g);
    }
  }
}
