/** Choosing and handling runs on each tick (server/src/auto_start.rs). */
module Scheduler {
  import opened Basics
  import opened CiRuns
  import opened Store
  import opened Workflow

  /** Runs of one repository and CI branch go one at a time. */
  type Group = (int, string)

  function GroupOf(r: Run): Group {
    (r.repo, r.ciBranch)
  }

  /** `is_higher_priority`: whether `run` takes the place of `current`. */
  predicate IsHigherPriority(current: Run, run: Run) {
    if current.startedAt.Some? then false
    else if run.startedAt.Some? then true
    else current.priority < run.priority || (current.priority == run.priority && current.id > run.id)
  }

  /** The map after the first `n` rows are folded in, in order. */
  function ChooseUpTo(rows: seq<Run>, n: nat): map<Group, Run>
    requires n <= |rows|
  {
    if n == 0 then map[] else
    var m := ChooseUpTo(rows, n - 1);
    var g := GroupOf(rows[n - 1]);
    if g in m && !IsHigherPriority(m[g], rows[n - 1]) then m else m[g := rows[n - 1]]
  }

  function Choose(rows: seq<Run>): map<Group, Run> {
    ChooseUpTo(rows, |rows|)
  }

  /** `get_pending_runs`, from the rows the database returned; the map's values come in any order. */
  method GetPendingRuns(rows: seq<Run>) returns (list: seq<Run>)
    ensures ValuesOf(list, Choose(rows))
  {
    var picked: map<Group, Run> := map[];
    for i := 0 to |rows|
      invariant picked == ChooseUpTo(rows, i)
    {
      var g := GroupOf(rows[i]);
      if g in picked {
        if IsHigherPriority(picked[g], rows[i]) {
          picked := picked[g := rows[i]];
        }
      } else {
        picked := picked[g := rows[i]];
      }
    }
    forall g | g in picked
      ensures GroupOf(picked[g]) == g
    {
      var i := ChoiceFrom(rows, |rows|, g);
    }
    list := [];
    var rest := picked.Keys;
    while rest != {}
      invariant rest <= picked.Keys
      invariant ValuesOf(list, picked - rest)
    {
      var g :| g in rest;
      assert picked - (rest - {g}) == (picked - rest)[g := picked[g]];
      AddValue(list, picked - rest, g, picked[g]);
      list, rest := list + [picked[g]], rest - {g};
    }
    assert picked - {} == picked;
  }

  lemma AddValue(list: seq<Run>, m: map<Group, Run>, g: Group, r: Run)
    requires ValuesOf(list, m) && g !in m && GroupOf(r) == g && forall h :: h in m ==> GroupOf(m[h]) == h
    ensures ValuesOf(list + [r], m[g := r])
  {
    var m1 := m[g := r];
    forall q
      ensures q in list + [r] <==> exists h :: h in m1 && m1[h] == q
    {
      if q in list {
        var h :| h in m && m[h] == q;
        assert m1[h] == q;
      }
      if q == r {
        assert m1[g] == q;
      }
      if h :| h in m1 && m1[h] == q {
        assert h == g || m[h] == q;
      }
    }
    forall i, j | 0 <= i < j < |list| + 1
      ensures GroupOf((list + [r])[i]) != GroupOf((list + [r])[j])
    {
      assert list[i] in list;
    }
  }

  // ---- What is chosen ----

  /** Higher priority first, then the older run. */
  predicate Before(a: Run, b: Run) {
    a.priority > b.priority || (a.priority == b.priority && a.id < b.id)
  }

  /** Nothing in the group of `r` is to be preferred to it. */
  predicate Holds(r: Run, q: Run) {
    GroupOf(q) == GroupOf(r) && r.startedAt.None? ==> q.startedAt.None? && (q == r || Before(r, q))
  }

  /** The run a group should be given: the started one, else the first in the queue's order. */
  ghost predicate RightChoice(r: Run, rows: seq<Run>) {
    r in rows && forall q :: q in rows ==> Holds(r, q)
  }

  ghost predicate DistinctIds(rows: seq<Run>) {
    forall i, j :: 0 <= i < j < |rows| ==> rows[i].id != rows[j].id
  }

  ghost predicate OneStartedPerGroup(rows: seq<Run>) {
    forall q, r :: q in rows && r in rows && q.startedAt.Some? && r.startedAt.Some? && GroupOf(q) == GroupOf(r) ==>
      q == r
  }

  /** The chosen run is one of the rows, and every group has one. */
  lemma {:induction false} ChoiceFrom(rows: seq<Run>, n: nat, g: Group) returns (i: nat)
    requires n <= |rows| && g in ChooseUpTo(rows, n)
    ensures i < n && rows[i] == ChooseUpTo(rows, n)[g] && GroupOf(rows[i]) == g
  {
    var m := ChooseUpTo(rows, n - 1);
    if g in m && ChooseUpTo(rows, n)[g] == m[g] {
      i := ChoiceFrom(rows, n - 1, g);
    } else {
      i := n - 1;
    }
  }

  lemma {:induction false} EveryGroupChosen(rows: seq<Run>, n: nat, i: nat)
    requires i < n <= |rows|
    ensures GroupOf(rows[i]) in ChooseUpTo(rows, n)
  {
    if i < n - 1 {
      EveryGroupChosen(rows, n - 1, i);
    }
  }

  lemma {:induction false} ChoiceHolds(rows: seq<Run>, n: nat, g: Group, i: nat)
    requires DistinctIds(rows) && i < n <= |rows| && g in ChooseUpTo(rows, n)
    ensures Holds(ChooseUpTo(rows, n)[g], rows[i])
  {
    var m := ChooseUpTo(rows, n - 1);
    var c := ChoiceFrom(rows, n, g);
    if GroupOf(rows[i]) == g {
      if i < n - 1 {
        EveryGroupChosen(rows, n - 1, i);
        var j := ChoiceFrom(rows, n - 1, g);
        ChoiceHolds(rows, n - 1, g, i);
        Replaced(m[g], rows[n - 1], ChooseUpTo(rows, n)[g], rows[i]);
      } else if g in m {
        var j := ChoiceFrom(rows, n - 1, g);
      }
    }
  }

  /** Whatever the rows: a started run is chosen if the group has one, else the first in order. */
  lemma ChoiceIsRight(rows: seq<Run>, g: Group)
    requires DistinctIds(rows) && g in Choose(rows)
    ensures RightChoice(Choose(rows)[g], rows)
    ensures GroupOf(Choose(rows)[g]) == g
  {
    var j := ChoiceFrom(rows, |rows|, g);
    forall q | q in rows
      ensures Holds(Choose(rows)[g], q)
    {
      var i :| 0 <= i < |rows| && rows[i] == q;
      ChoiceHolds(rows, |rows|, g, i);
    }
  }

  /** One step of the fold keeps the choice right. */
  lemma Replaced(current: Run, run: Run, chosen: Run, q: Run)
    requires GroupOf(current) == GroupOf(q) && Holds(current, q) && current.id != run.id
    requires (chosen == run && GroupOf(run) == GroupOf(current) && IsHigherPriority(current, run)) || chosen == current
    ensures Holds(chosen, q)
  {
  }

  /** With at most one started run per group the right choice is unique. */
  lemma RightChoiceUnique(rows: seq<Run>, a: Run, b: Run)
    requires DistinctIds(rows) && OneStartedPerGroup(rows)
    requires RightChoice(a, rows) && RightChoice(b, rows) && GroupOf(a) == GroupOf(b)
    ensures a == b
  {
  }

  /** Two answers of the database with the same rows. */
  ghost predicate SameRows(a: seq<Run>, b: seq<Run>) {
    DistinctIds(a) && DistinctIds(b) && forall r :: r in a <==> r in b
  }

  /** The choice does not depend on the order of the rows if no group has two started runs. */
  lemma ChoiceIgnoresOrder(a: seq<Run>, b: seq<Run>)
    requires SameRows(a, b) && OneStartedPerGroup(a)
    ensures Choose(a) == Choose(b)
  {
    forall g | g in Choose(a)
      ensures g in Choose(b) && Choose(a)[g] == Choose(b)[g]
    {
      SameChoice(a, b, g);
    }
    forall g | g in Choose(b)
      ensures g in Choose(a)
    {
      GroupInBoth(b, a, g);
    }
  }

  lemma GroupInBoth(a: seq<Run>, b: seq<Run>, g: Group)
    requires SameRows(a, b) && g in Choose(a)
    ensures g in Choose(b)
  {
    var i := ChoiceFrom(a, |a|, g);
    assert a[i] in b;
    var j :| 0 <= j < |b| && b[j] == a[i];
    EveryGroupChosen(b, |b|, j);
  }

  lemma SameChoice(a: seq<Run>, b: seq<Run>, g: Group)
    requires SameRows(a, b) && OneStartedPerGroup(a) && g in Choose(a)
    ensures g in Choose(b) && Choose(a)[g] == Choose(b)[g]
  {
    GroupInBoth(a, b, g);
    ChoiceIsRight(a, g);
    ChoiceIsRight(b, g);
    assert RightChoice(Choose(b)[g], a);
    RightChoiceUnique(a, Choose(a)[g], Choose(b)[g]);
  }

  /** Two started runs of one group: whichever comes first is chosen. */
  lemma {:induction false} FirstStartedStays(rows: seq<Run>, n: nat)
    requires 0 < n <= |rows| && rows[0].startedAt.Some?
    ensures GroupOf(rows[0]) in ChooseUpTo(rows, n) && ChooseUpTo(rows, n)[GroupOf(rows[0])] == rows[0]
  {
    if n > 1 {
      FirstStartedStays(rows, n - 1);
    }
  }

  /** The rows without one, which is put in front. */
  function ToFront(rows: seq<Run>, i: nat): seq<Run>
    requires i < |rows|
  {
    [rows[i]] + rows[..i] + rows[i + 1..]
  }

  lemma ToFrontSameRows(rows: seq<Run>, i: nat)
    requires i < |rows| && DistinctIds(rows)
    ensures SameRows(rows, ToFront(rows, i))
  {
    var f := ToFront(rows, i);
    forall r
      ensures r in rows <==> r in f
    {
      if r in rows {
        var k :| 0 <= k < |rows| && rows[k] == r;
        assert r == f[if k == i then 0 else if k < i then k + 1 else k];
      }
    }
  }

  /** The choice is independent of the row order exactly when no group has two started runs. */
  lemma OrderIndependentExactly(rows: seq<Run>)
    requires DistinctIds(rows)
    ensures OneStartedPerGroup(rows) <==> forall other :: SameRows(rows, other) ==> Choose(other) == Choose(rows)
  {
    if OneStartedPerGroup(rows) {
      forall other | SameRows(rows, other)
        ensures Choose(other) == Choose(rows)
      {
        ChoiceIgnoresOrder(rows, other);
      }
    } else {
      var q, r :| q in rows && r in rows && q.startedAt.Some? && r.startedAt.Some? && GroupOf(q) == GroupOf(r)
                  && q != r;
      var i :| 0 <= i < |rows| && rows[i] == q;
      var j :| 0 <= j < |rows| && rows[j] == r;
      StartedToFront(rows, i);
      StartedToFront(rows, j);
      assert Choose(ToFront(rows, i))[GroupOf(q)] != Choose(ToFront(rows, j))[GroupOf(q)];
    }
  }

  lemma StartedToFront(rows: seq<Run>, i: nat)
    requires i < |rows| && DistinctIds(rows) && rows[i].startedAt.Some?
    ensures SameRows(rows, ToFront(rows, i))
    ensures var g := GroupOf(rows[i]);
            g in Choose(ToFront(rows, i)) && Choose(ToFront(rows, i))[g] == rows[i]
  {
    ToFrontSameRows(rows, i);
    FirstStartedStays(ToFront(rows, i), |rows|);
  }

  // ---- Handling ----

  datatype HandleAnswers = HandleAnswers(start: StartAnswers, refresh: RefreshAnswers)

  /** `handle_run`, given the run as it was when the tick began. */
  function HandleRun(w: World, run: Run, a: HandleAnswers): Out {
    if (run.repo, run.pr) !in w.db.prs then Out(w, Err) else
    var pr := w.db.prs[(run.repo, run.pr)];
    if run.startedAt.None? then Start(w, run.repo, run, pr, a.start) else Refresh(w, run.repo, run, pr, a.refresh)
  }

  /** What `CiRun::pending` may answer: every uncompleted row once, in any order. */
  ghost predicate PendingRows(rows: seq<Run>, runs: Rows) {
    && DistinctIds(rows)
    && (forall r :: r in rows <==> exists i :: i in runs && runs[i] == r && r.completedAt.None?)
  }

  /** What `into_values` may answer: every value of the map once, in any order. */
  ghost predicate ValuesOf(list: seq<Run>, m: map<Group, Run>) {
    && (forall r :: r in list <==> exists g :: g in m && m[g] == r)
    && (forall i, j :: 0 <= i < j < |list| ==> GroupOf(list[i]) != GroupOf(list[j]))
  }
}
