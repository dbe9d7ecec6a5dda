/** A run of the server that ends with a push: a merge, a tick that starts it, and its check. */
module Witness {
  import opened Basics
  import opened CiRuns
  import opened Checks
  import opened PrRows
  import opened Labels
  import opened Store
  import opened Workflow
  import opened Handlers
  import opened Scheduler
  import opened System
  import opened WorkflowProofs
  import opened Commands
  import opened Safety
  import Approvers
  import BranchNames

  const NO_LABELS := LabelsConfig([], [], [], [], [], [])

  const ACCEPTED := LabelAnswers({}, true)

  const FAILING := FailAnswers(true, true, true, ACCEPTED)

  const PR := PullRequest(1, "t", "b", Some(IssueOpen), Some(Mergeable.Clean), None, [], [], Some(3), None, None, "f",
                          "h", "main")

  const CONF: Conf := map[1 := Config(true, ["ci"], 60, "try", "merge", NO_LABELS)]

  const EMPTY := World(Db(map[], map[], map[]), 0, Hub(map[], map[], {}, [], [], map[]), CONF, 0)

  const QUEUEING := MergeAnswers(Some(true), true, Some([]), map[], QueuedAnswers(true, true, ACCEPTED))

  const STARTING := StartAnswers(BranchAt("b"), true, MergedAs("m"), true, true, true, ACCEPTED, FAILING)

  const REPORT := CheckReport(5, "ci", "m", None, None, "u", None, None, Some(ConclSuccess))

  const SUCCEEDING := SuccessAnswers(true, true, true, true, FAILING, true, ACCEPTED)

  /** One queued merge, whose pull request is stored. */
  ghost predicate OneQueued(w: World) {
    && w.db.runs.Keys == {0} && w.next == 1 && (1, 1) in w.db.prs && w.conf == CONF && w.hub.pushes == []
    && w.hub.minted == map[] && w.hub.heads == map[] && w.db.checks == map[]
    && var r := w.db.runs[0];
       r.id == 0 && OfPr(r, 1, 1) && r.status.Queued? && r.completedAt.None? && r.startedAt.None? && r.sha.None?
       && !r.dry
       && r.base == Branch("main")
  }

  lemma Queued()
    ensures var o := Merge(EMPTY, 1, 3, PR, None, QUEUEING);
            o.res.Ok? && OneQueued(o.w)
  {
    assert Approvers.Compute([], 3, [], PermissionIn(map[])) == Some([]);
    assert Desired(Status.Queued, false, NO_LABELS) == [];
    assert Elements([]) == {};
  }

  /** That merge in progress with commit `m`. */
  ghost predicate OneStarted(w: World) {
    && w.db.runs.Keys == {0} && w.next == 1 && (1, 1) in w.db.prs && w.conf == CONF && w.hub.pushes == []
    && w.hub.minted == map["m" := 1] && w.hub.heads == map[] && w.db.checks == map[]
    && var r := w.db.runs[0];
       r.id == 0 && OfPr(r, 1, 1) && r.completedAt.None? && r.startedAt.Some? && r.sha == Some("m") && !r.dry
  }

  lemma Started(w: World, refresh: RefreshAnswers)
    requires OneQueued(w)
    ensures OneStarted(HandleRun(w, w.db.runs[0], HandleAnswers(STARTING, refresh)).w)
  {
    hide UpdateLabels;
    var r := w.db.runs[0];
    var pr := w.db.prs[(1, 1)];
    var w2 := Mint(Send(w, MakeMerge(1, "b", r.head)), "m", 1);
    var w4 := Send(SetRuns(w2, StartedRows(w.db.runs, 0, "m", w.now)), PushCi(1, r.ciBranch, "m"));
    LabelsWrite(Send(w4, Comment(1, 1, TestsStarted)), 1, pr, InProgress, false, ACCEPTED);
  }

  /** The answers to its check. */
  function CheckAnswers(w: World): RefreshAnswers
    requires 0 in w.db.runs
  {
    RefreshAnswers(Some([NewCheck(REPORT, 0, IsRequired(["ci"], "ci"), w.now)]), FAILING, SUCCEEDING)
  }

  lemma Pushed(w: World, heard: World)
    requires OneStarted(w) && heard == Hear(w, REPORT)
    ensures |CheckRun(heard, 1, REPORT, CheckAnswers(w)).w.hub.pushes| == 1
    ensures BySha(heard.db.runs, heard.next, "m") == Some(w.db.runs[0])
  {
    hide Refresh;
    var a := CheckAnswers(w);
    assert Highest(w.db.runs, 1, (r: Run) => r.sha == Some("m")) == Some(w.db.runs[0]);
    assert SameIgnoringCase(["ci"][0], "ci");
    var c := a.rows.value[0];
    assert a.rows.value[..0] == [];
    assert ByName(a.rows.value)["ci"] == c;
    CheckPushesExactly(heard, 1, REPORT, a);
  }

  lemma Initially()
    ensures ConfOk(CONF)
  {
    assert BranchNames.Stem("merge") == "merge/" && BranchNames.Stem("try") == "try/";
  }

  lemma {:induction false} TraceSnoc(s: Sys, es: seq<Event>, e: Event)
    requires ValidTrace(s, es) && Enabled(RunTrace(s, es), e)
    ensures ValidTrace(s, es + [e]) && RunTrace(s, es + [e]) == Apply(RunTrace(s, es), e)
    decreases |es|
  {
    if es == [] {
      assert es + [e] == [e];
      OneStep(s, e);
    } else {
      assert (es + [e])[0] == es[0] && (es + [e])[1..] == es[1..] + [e];
      TraceSnoc(Apply(s, es[0]), es[1..], e);
    }
  }

  lemma ReachableStep(s: Sys, e: Event)
    requires Reachable(s) && Enabled(s, e)
    ensures Reachable(Apply(s, e))
  {
    hide Enabled, Apply, ValidTrace, RunTrace, Initial;
    var s0, es :| Initial(s0) && ValidTrace(s0, es) && RunTrace(s0, es) == s;
    TraceSnoc(s0, es, e);
  }

  lemma QueuedReachable() returns (s: Sys)
    ensures Reachable(s) && OneQueued(s.w) && s.work == []
  {
    hide Merge, RunTrace;
    Initially();
    Queued();
    var s0 := Sys(EMPTY, [], 0);
    assert Reachable(s0) by { assert RunTrace(s0, []) == s0 by { NoSteps(s0); } }
    var e := MergeCommand(1, 3, PR, None, QUEUEING, true);
    ReachableStep(s0, e);
    s := Apply(s0, e);
  }

  lemma NoSteps(s: Sys)
    ensures ValidTrace(s, []) && RunTrace(s, []) == s
  {
  }

  lemma OnlyChoice(w: World)
    requires OneQueued(w)
    ensures PendingRows([w.db.runs[0]], w.db.runs) && ValuesOf([w.db.runs[0]], Choose([w.db.runs[0]]))
  {
    var r := w.db.runs[0];
    assert ChooseUpTo([r], 0) == map[];
    assert Choose([r]) == map[GroupOf(r) := r];
  }

  lemma StartedReachable() returns (s: Sys)
    ensures Reachable(s) && OneStarted(s.w)
  {
    hide HandleRun, Reachable, PendingRows, ValuesOf, Choose, OneStarted;
    var s1 := QueuedReachable();
    var r := s1.w.db.runs[0];
    OnlyChoice(s1.w);
    ReachableStep(s1, Fetch([r], [r]));
    var s2 := Apply(s1, Fetch([r], [r]));
    var a := HandleAnswers(STARTING, RefreshAnswers(None, FAILING, SUCCEEDING));
    ReachableStep(s2, Handle(a));
    Started(s1.w, a.refresh);
    s := Apply(s2, Handle(a));
  }

  lemma CheckRowsAre(w: World, heard: World)
    requires OneStarted(w) && heard == Hear(w, REPORT)
    ensures TrueRows(CheckAnswers(w), StoreCheck(heard, 1, REPORT, w.db.runs[0]).db.checks, 0)
  {
    var c := CheckAnswers(w).rows.value[0];
    assert StoreCheck(heard, 1, REPORT, w.db.runs[0]).db.checks == map[5 := c];
  }

  /** The results about pushes are about something: a state with a push is reachable. */
  lemma APushIsReachable()
    ensures exists s :: Reachable(s) && s.w.hub.pushes != []
  {
    hide CheckRun, Reachable, BySha, TrueRows, StoreCheck;
    var s := StartedReachable();
    var heard := Hear(s.w, REPORT);
    var e := CheckEvent(1, REPORT, CheckAnswers(s.w), true);
    Pushed(s.w, heard);
    CheckRowsAre(s.w, heard);
    assert TrueRows(CheckAnswers(s.w), StoreCheck(s.w, 1, REPORT, s.w.db.runs[0]).db.checks, 0)
    by { StoreIsDeaf(s.w, heard); }
    ReachableStep(s, e);
    assert Reachable(Apply(s, e)) && Apply(s, e).w.hub.pushes != [];
  }

  lemma StoreIsDeaf(w: World, heard: World)
    requires 0 in w.db.runs && heard == Hear(w, REPORT)
    ensures StoreCheck(w, 1, REPORT, w.db.runs[0]).db == StoreCheck(heard, 1, REPORT, w.db.runs[0]).db
  {
  }
}
