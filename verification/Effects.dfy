/**
 What each step of a run's life answers, writes and asks of GitHub, said in terms of the rows,
 the requests and the configuration alone.
 */
module Effects {
  import opened Basics
  import opened CiRuns
  import opened Checks
  import opened PrRows
  import opened Labels
  import opened Store
  import opened Workflow
  import opened WorkflowProofs

  // ---- Labels ----

  /** The labels a configuration lists for a state of a merge or a try. */
  predicate Listed(c: LabelsConfig, status: Status, dry: bool, l: string) {
    || (status.Queued? && !dry && l in c.onMergeQueued)
    || (status.InProgress? && !dry && l in c.onMergeInProgress)
    || (status.InProgress? && dry && l in c.onTryInProgress)
    || (status.Failure? && !dry && l in c.onMergeFailure)
    || (status.Failure? && dry && l in c.onTryFailure)
    || (status.Success? && !dry && l in c.onMergeSuccess)
  }

  lemma DesiredIsListed(c: LabelsConfig, status: Status, dry: bool, l: string)
    ensures l in Desired(status, dry, c) <==> Listed(c, status, dry, l)
  {
    DesiredSorted(status, dry, c);
  }

  /** The record already names exactly the labels of the state, or what is written is stored. */
  ghost predicate LabelsGo(w: World, repo: int, pr: PrRow, status: Status, dry: bool, a: LabelAnswers) {
    a.stored || forall l :: l in pr.addedLabels <==> Listed(ConfigOf(w, repo).labels, status, dry, l)
  }

  lemma LabelsAnswerExactly(w: World, repo: int, pr: PrRow, status: Status, dry: bool, a: LabelAnswers)
    ensures UpdateLabels(w, repo, pr, status, dry, a).res ==
            if LabelsGo(w, repo, pr, status, dry, a) then Ok(true) else Err
  {
    hide LabelsAfter, Desired, Listed;
    var desired := Desired(status, dry, ConfigOf(w, repo).labels);
    forall l
      ensures l in desired <==> Listed(ConfigOf(w, repo).labels, status, dry, l)
    {
      DesiredIsListed(ConfigOf(w, repo).labels, status, dry, l);
    }
    SettledExactly(pr.addedLabels, desired);
  }

  lemma SettledExactly(recorded: seq<string>, desired: seq<string>)
    ensures ToAdd(recorded, desired) == {} && ToRemove(recorded, desired) == {}
            <==> forall l :: l in recorded <==> l in desired
  {
    assert forall l :: l in Elements(recorded) <==> l in recorded;
    assert forall l :: l in Elements(desired) <==> l in desired;
    if ToAdd(recorded, desired) == {} && ToRemove(recorded, desired) == {} {
      forall l
        ensures l in recorded <==> l in desired
      {
        assert l !in ToAdd(recorded, desired) && l !in ToRemove(recorded, desired);
      }
    }
  }

  /** A pull request row as it is stored, whose recorded labels are on the pull request. */
  predicate Current(w: World, repo: int, pr: PrRow) {
    var key := (repo, pr.number);
    pr.repo == repo && key in w.db.prs && w.db.prs[key] == pr
    && forall l :: l in pr.addedLabels ==> l in LabelsOn(w, key)
  }

  predicate OnlyLabelsDiffer(a: PrRow, b: PrRow) {
    b == a.(addedLabels := b.addedLabels, updatedAt := b.updatedAt)
  }

  /** What becomes of one label of a pull request that is taken to a state. */
  ghost predicate LabelMoved(w: World, w2: World, key: PrKey, listed: bool, refused: bool, l: string)
    requires key in w.db.prs
  {
    && key in w2.db.prs && OnlyLabelsDiffer(w.db.prs[key], w2.db.prs[key])
    && var recorded := l in w.db.prs[key].addedLabels;
    && (l in w2.db.prs[key].addedLabels <==> listed)
    && (listed && !refused ==> l in LabelsOn(w2, key))
    && (recorded && !listed && !refused ==> l !in LabelsOn(w2, key))
    && (refused || (!recorded && !listed) ==> (l in LabelsOn(w2, key) <==> l in LabelsOn(w, key)))
  }

  /** A stored update: the record is the state's labels, and each label is where it should be unless refused. */
  lemma LabelsMove(w: World, repo: int, pr: PrRow, status: Status, dry: bool, a: LabelAnswers, l: string)
    requires Current(w, repo, pr) && LabelsGo(w, repo, pr, status, dry, a)
    ensures var w2 := UpdateLabels(w, repo, pr, status, dry, a).w;
            var key := (repo, pr.number);
            && LabelMoved(w, w2, key, Listed(ConfigOf(w, repo).labels, status, dry, l), l in a.refused, l)
            && w2.db.prs == w.db.prs[key := pr.(addedLabels := w2.db.prs[key].addedLabels,
                                                updatedAt := w2.db.prs[key].updatedAt)]
            && (w2 == w || w2.db.prs[key].updatedAt == w.now)
  {
    hide Desired, Listed;
    var desired := Desired(status, dry, ConfigOf(w, repo).labels);
    forall l
      ensures l in desired <==> Listed(ConfigOf(w, repo).labels, status, dry, l)
    {
      DesiredIsListed(ConfigOf(w, repo).labels, status, dry, l);
    }
    SettledExactly(pr.addedLabels, desired);
    assert l in Elements(pr.addedLabels) <==> l in pr.addedLabels;
    assert l in Elements(desired) <==> l in desired;
  }

  // ---- fail ----

  ghost predicate FailGoes(w: World, repo: int, run: Run, pr: PrRow, a: FailAnswers) {
    a.stored && run.id in w.db.runs && a.message && a.delete && LabelsGo(w, repo, pr, Failure, run.dry, a.labels)
  }

  /** The requests of a failure: the comment, then the branch, as far as it gets. */
  function FailAsked(repo: int, run: Run, pr: PrRow, note: Note, reached: bool, a: FailAnswers): seq<Request> {
    if !reached then []
    else if !a.message then [Comment(repo, pr.number, note)]
    else [Comment(repo, pr.number, note), DeleteBranch(repo, run.ciBranch)]
  }

  lemma FailExactly(w: World, repo: int, run: Run, pr: PrRow, note: Note, a: FailAnswers)
    ensures var o := Fail(w, repo, run, pr, note, a);
            var reached := a.stored && run.id in w.db.runs;
            && o.res == (if FailGoes(w, repo, run, pr, a) then Ok(true) else Err)
            && o.w.db.runs == (if reached then FailedRows(w.db.runs, run.id, w.now) else w.db.runs)
            && o.w.hub.requests == w.hub.requests + FailAsked(repo, run, pr, note, reached, a)
  {
    hide UpdateLabels, LabelsGo;
    FailWrites(w, repo, run, pr, note, a);
    if a.stored && run.id in w.db.runs {
      var w1 := SetRuns(w, FailedRows(w.db.runs, run.id, w.now));
      var w3 := Send(Send(w1, Comment(repo, pr.number, note)), DeleteBranch(repo, run.ciBranch));
      LabelsAnswer(w, w3, repo, pr, Failure, run.dry, a.labels);
    }
  }

  /** A world with the same configuration. */
  lemma LabelsAnswer(w: World, v: World, repo: int, pr: PrRow, status: Status, dry: bool, a: LabelAnswers)
    requires v.conf == w.conf
    ensures var o := UpdateLabels(v, repo, pr, status, dry, a);
            o.res == (if LabelsGo(w, repo, pr, status, dry, a) then Ok(true) else Err)
            && o.w.hub.requests == v.hub.requests
  {
    hide LabelsSettled, LabelsAfter, Listed;
    LabelsAnswerExactly(v, repo, pr, status, dry, a);
  }

  // ---- success ----

  ghost predicate SuccessGoes(w: World, repo: int, run: Run, pr: PrRow, a: SuccessAnswers) {
    && a.stored
    && (Reaches(w.db.runs, run.id, NotDone) ==>
          && run.sha.Some? && a.users && a.message
          && (if run.dry || a.push then LabelsGo(w, repo, pr, Success, run.dry, a.labels)
              else FailGoes(w, repo, run, pr, a.fail)))
  }

  /** A refused push ends in the requests of a failure; after an accepted one a refused deletion does not matter. */
  function SuccessAsked(repo: int, run: Run, pr: PrRow, a: SuccessAnswers): seq<Request> {
    if run.sha.None? || !a.users then []
    else
      var said := [Comment(repo, run.pr, if run.dry then TestsPassed else TestsPassedMerge)];
      if !a.message then said
      else if run.dry || a.push then said + [DeleteBranch(repo, run.ciBranch)]
      else said + FailAsked(repo, run, pr, PushRefused, a.fail.stored, a.fail)
  }

  /** `success` answers Ok exactly when it goes through or the run was not its to claim. */
  lemma SuccessExactly(w: World, repo: int, run: Run, pr: PrRow, a: SuccessAnswers)
    ensures var o := Succeed(w, repo, run, pr, a);
            var claimed := a.stored && Reaches(w.db.runs, run.id, NotDone);
            var refused := claimed && run.sha.Some? && a.users && a.message && !run.dry && !a.push && a.fail.stored;
            && o.res == (if SuccessGoes(w, repo, run, pr, a) then Ok(true) else Err)
            && o.w.db.runs == (if refused then FailedRows(w.db.runs, run.id, w.now)
                               else if claimed then SuccessRows(w.db.runs, run.id, w.now) else w.db.runs)
            && o.w.hub.requests == w.hub.requests + if claimed then SuccessAsked(repo, run, pr, a) else []
  {
    hide UpdateLabels, LabelsGo, Fail;
    if a.stored && Reaches(w.db.runs, run.id, NotDone) && run.sha.Some? {
      var w1 := SetRuns(w, SuccessRows(w.db.runs, run.id, w.now));
      var w2 := Send(w1, Comment(repo, run.pr, if run.dry then TestsPassed else TestsPassedMerge));
      var w3 := if run.dry then w2 else LogPush(w2, PushOf(w, repo, run, pr, a));
      var w4 := Send(w3, DeleteBranch(repo, run.ciBranch));
      LabelsAnswer(w, w4, repo, pr, Success, run.dry, a.labels);
      LabelsWrite(w4, repo, pr, Success, run.dry, a.labels);
      FailExactly(w3, repo, run, pr, PushRefused, a.fail);
      SameGoes(w, w3, repo, pr, Failure, run.dry, a.fail.labels);
    }
  }

  lemma SameGoes(w: World, v: World, repo: int, pr: PrRow, status: Status, dry: bool, a: LabelAnswers)
    requires v.conf == w.conf
    ensures LabelsGo(v, repo, pr, status, dry, a) <==> LabelsGo(w, repo, pr, status, dry, a)
  {
    hide Listed;
  }

  // ---- refresh ----

  /** The first required check, in the configured order, that failed. */
  predicate FirstFailed(required: seq<string>, view: map<string, Check>, i: int) {
    && 0 <= i < |required| && required[i] in view && view[required[i]].status.CheckFailure?
    && forall j :: 0 <= j < i ==> !(required[j] in view && view[required[j]].status.CheckFailure?)
  }

  predicate AllSucceeded(required: seq<string>, view: map<string, Check>) {
    forall i :: 0 <= i < |required| ==> required[i] in view && view[required[i]].status.CheckSuccess?
  }

  lemma {:induction false} JudgeFirst(required: seq<string>, view: map<string, Check>)
    ensures var v := Judge(required, view);
            && (v.Green? <==> AllSucceeded(required, view))
            && (v.Broken? <==> exists i :: FirstFailed(required, view, i))
            && (forall i :: FirstFailed(required, view, i) ==> v == Broken(view[required[i]]))
  {
    if required != [] {
      JudgeFirst(required[1..], view);
      assert required == [required[0]] + required[1..];
      if required[0] in view && view[required[0]].status.CheckFailure? {
        assert FirstFailed(required, view, 0);
      } else {
        forall i | FirstFailed(required, view, i)
          ensures FirstFailed(required[1..], view, i - 1) && i > 0
        {
        }
        forall i | FirstFailed(required[1..], view, i)
          ensures FirstFailed(required, view, i + 1)
        {
        }
      }
    }
  }

  /**
   What a refresh does with a started run, as it was read: the first required check that failed
   fails it; it succeeds if all succeeded; else it is failed when more than the configured
   minutes have passed since it was started, and left alone before that.
   */
  lemma RefreshDecides(w: World, repo: int, run: Run, pr: PrRow, a: RefreshAnswers)
    requires run.completedAt.None? && run.startedAt.Some? && a.rows.Some?
    ensures var o := Refresh(w, repo, run, pr, a);
            var config := ConfigOf(w, repo);
            var view := ByName(a.rows.value);
            && (forall i :: FirstFailed(config.required, view, i) ==>
                  o == Fail(w, repo, run, pr, TestsFailed(config.required[i]), a.fail))
            && (AllSucceeded(config.required, view) ==> o == Succeed(w, repo, run, pr, a.success))
            && (!AllSucceeded(config.required, view) && !(exists i :: FirstFailed(config.required, view, i)) ==>
                  o == if w.now - run.startedAt.value > config.timeoutMinutes * 60_000
                       then Fail(w, repo, run, pr, TestsTimedOut, a.fail) else Out(w, Ok(true)))
  {
    hide Fail, Succeed, Judge, FirstFailed, AllSucceeded;
    var required := ConfigOf(w, repo).required;
    JudgeFirst(required, ByName(a.rows.value));
    forall i | FirstFailed(required, ByName(a.rows.value), i)
      ensures 0 <= i < |required| && required[i] in ByName(a.rows.value)
              && ByName(a.rows.value)[required[i]].name == required[i]
    {
      FirstIsNamed(required, a.rows.value, i);
    }
  }

  lemma FirstIsNamed(required: seq<string>, rows: seq<Check>, i: int)
    requires FirstFailed(required, ByName(rows), i)
    ensures 0 <= i < |required| && required[i] in ByName(rows) && ByName(rows)[required[i]].name == required[i]
  {
  }

  /** A refresh of a run that is completed or not started changes nothing; unread checks are an error. */
  lemma RefreshOtherwise(w: World, repo: int, run: Run, pr: PrRow, a: RefreshAnswers)
    requires run.completedAt.Some? || run.startedAt.None? || a.rows.None?
    ensures var skipped := run.completedAt.Some? || run.startedAt.None?;
            Refresh(w, repo, run, pr, a) == Out(w, if skipped then Ok(false) else Err)
  {
  }

  // ---- start ----

  /** The commit a merge is made on, if GitHub knows it. */
  function BaseOf(run: Run, a: StartAnswers): Option<string> {
    if run.base.Commit? then Some(run.base.sha) else if a.base.BranchAt? then Some(a.base.sha) else None
  }

  /** What a start that ends in a failure says. */
  function StartFailure(run: Run, a: StartAnswers): Option<Note> {
    if run.base.Branch? && a.base.NoBranch? then Some(BaseMissing)
    else if BaseOf(run, a).None? || !a.users then None
    else if a.merge.MergeClash? then Some(MergeConflict)
    else if a.merge.MergeErr? then Some(MergeFailed)
    else if a.stored && !a.push then Some(CiPushFailed)
    else None
  }

  /** The start got as far as recording the commit and pushing the CI branch. */
  predicate StartPushes(run: Run, a: StartAnswers) {
    BaseOf(run, a).Some? && a.users && a.merge.MergedAs? && a.stored
  }

  /** `there` says whether the run's row exists, without which a failure is not announced. */
  function StartAsked(there: bool, repo: int, run: Run, pr: PrRow, a: StartAnswers): seq<Request> {
    var made := if BaseOf(run, a).Some? && a.users then [MakeMerge(repo, BaseOf(run, a).value, run.head)] else [];
    var pushed := if StartPushes(run, a) then [PushCi(repo, run.ciBranch, a.merge.sha)] else [];
    var said := if StartFailure(run, a).Some?
                then FailAsked(repo, run, pr, StartFailure(run, a).value, a.fail.stored && there, a.fail)
                else if StartPushes(run, a) then [Comment(repo, run.pr, TestsStarted)] else [];
    made + pushed + said
  }

  function StartRows(w: World, run: Run, a: StartAnswers): Rows {
    var begun := if StartPushes(run, a) then StartedRows(w.db.runs, run.id, a.merge.sha, w.now) else w.db.runs;
    if StartFailure(run, a).Some? && a.fail.stored then FailedRows(begun, run.id, w.now) else begun
  }

  ghost predicate StartGoes(w: World, repo: int, run: Run, pr: PrRow, a: StartAnswers) {
    StartPushes(run, a) && a.push && a.message && LabelsGo(w, repo, pr, InProgress, run.dry, a.labels)
  }

  /** What is claimed of a start. */
  ghost predicate StartIs(o: Out, w: World, repo: int, run: Run, pr: PrRow, a: StartAnswers) {
    && o.res == (if StartGoes(w, repo, run, pr, a) then Ok(true)
                 else if StartFailure(run, a).Some? && FailGoes(w, repo, run, pr, a.fail) then Ok(false) else Err)
    && o.w.db.runs == StartRows(w, run, a)
    && o.w.hub.requests == w.hub.requests + StartAsked(run.id in w.db.runs, repo, run, pr, a)
  }

  lemma StartOnStopped(w: World, repo: int, run: Run, pr: PrRow, base: string, a: StartAnswers)
    requires BaseOf(run, a) == Some(base) && !StartPushes(run, a)
    ensures StartIs(StartOn(w, repo, run, pr, base, a), w, repo, run, pr, a)
  {
    hide UpdateLabels, LabelsGo, Fail;
    var w1 := Send(w, MakeMerge(repo, base, run.head));
    SameGoes(w, w1, repo, pr, Failure, run.dry, a.fail.labels);
    FailExactly(w1, repo, run, pr, MergeConflict, a.fail);
    FailExactly(w1, repo, run, pr, MergeFailed, a.fail);
  }

  lemma StartOnPushed(w: World, repo: int, run: Run, pr: PrRow, base: string, a: StartAnswers)
    requires BaseOf(run, a) == Some(base) && StartPushes(run, a)
    ensures StartIs(StartOn(w, repo, run, pr, base, a), w, repo, run, pr, a)
  {
    hide UpdateLabels, LabelsGo, Fail, FailAsked;
    var sha := a.merge.sha;
    var w2 := Mint(Send(w, MakeMerge(repo, base, run.head)), sha, repo);
    var begun := StartedRows(w.db.runs, run.id, sha, w.now);
    assert run.id in begun <==> run.id in w.db.runs;
    assert begun == Update(w.db.runs, run.id, StillQueued, Begin(sha, w.now));
    hide StartedRows, Update;
    var w4 := Send(SetRuns(w2, begun), PushCi(repo, run.ciBranch, sha));
    assert w4.hub.requests == w.hub.requests + [MakeMerge(repo, base, run.head), PushCi(repo, run.ciBranch, sha)];
    if a.push {
      var w5 := Send(w4, Comment(repo, run.pr, TestsStarted));
      LabelsAnswer(w, w5, repo, pr, InProgress, run.dry, a.labels);
      LabelsWrite(w5, repo, pr, InProgress, run.dry, a.labels);
    } else {
      FailExactly(w4, repo, run, pr, CiPushFailed, a.fail);
      SameGoes(w, w4, repo, pr, Failure, run.dry, a.fail.labels);
    }
  }

  /**
   A start answers true exactly when it goes through, false exactly when it ended in a failure
   that went through; its row, its time and its requests are these.
   */
  lemma StartExactly(w: World, repo: int, run: Run, pr: PrRow, a: StartAnswers)
    ensures StartIs(Start(w, repo, run, pr, a), w, repo, run, pr, a)
  {
    hide StartOn, Fail, LabelsGo, StartIs;
    if BaseOf(run, a).Some? {
      if StartPushes(run, a) {
        StartOnPushed(w, repo, run, pr, BaseOf(run, a).value, a);
      } else {
        StartOnStopped(w, repo, run, pr, BaseOf(run, a).value, a);
      }
    } else {
      StartWithoutBase(w, repo, run, pr, a);
    }
  }

  lemma StartWithoutBase(w: World, repo: int, run: Run, pr: PrRow, a: StartAnswers)
    requires BaseOf(run, a).None?
    ensures StartIs(Start(w, repo, run, pr, a), w, repo, run, pr, a)
  {
    hide Fail, LabelsGo;
    FailExactly(w, repo, run, pr, BaseMissing, a.fail);
  }

  // ---- cancel and queued ----

  /** The requests that stop the workflows of the commit that are still going. */
  function StopsOf(repo: int, sha: string, workflows: seq<WorkflowRun>): seq<Request> {
    if workflows == [] then []
    else if workflows[0] == WorkflowRun(workflows[0].id, sha, false)
    then [StopWorkflow(repo, workflows[0].id)] + StopsOf(repo, sha, workflows[1..])
    else StopsOf(repo, sha, workflows[1..])
  }

  lemma {:induction false} StopsContain(repo: int, sha: string, workflows: seq<WorkflowRun>, id: int)
    ensures StopWorkflow(repo, id) in StopsOf(repo, sha, workflows) <==> WorkflowRun(id, sha, false) in workflows
    ensures forall r :: r in StopsOf(repo, sha, workflows) ==> r.StopWorkflow? && r.repo == repo
    decreases |workflows|
  {
    if workflows != [] {
      StopsContain(repo, sha, workflows[1..], id);
      assert workflows == [workflows[0]] + workflows[1..];
    }
  }

  lemma {:induction false} StopAllAsksThem(w: World, repo: int, sha: string, workflows: seq<WorkflowRun>)
    ensures StopAll(w, repo, sha, workflows).hub.requests == w.hub.requests + StopsOf(repo, sha, workflows)
    ensures StopAll(w, repo, sha, workflows).conf == w.conf
    decreases |workflows|
  {
    if workflows != [] {
      var k := |workflows| - 1;
      StopAllAsksThem(w, repo, sha, workflows[..k]);
      StopsOfSnoc(repo, sha, workflows[..k], workflows[k]);
      assert workflows == workflows[..k] + [workflows[k]];
    }
  }

  lemma {:induction false} StopsOfSnoc(repo: int, sha: string, workflows: seq<WorkflowRun>, last: WorkflowRun)
    ensures StopsOf(repo, sha, workflows + [last])
         == StopsOf(repo, sha, workflows)
            + if last.headSha == sha && !last.concluded then [StopWorkflow(repo, last.id)] else []
    decreases |workflows|
  {
    if workflows != [] {
      assert (workflows + [last])[1..] == workflows[1..] + [last];
      StopsOfSnoc(repo, sha, workflows[1..], last);
    } else {
      assert (workflows + [last])[1..] == [];
    }
  }

  ghost predicate CancelGoes(w: World, repo: int, run: Run, pr: PrRow, a: CancelAnswers) {
    && a.stored
    && (Reaches(w.db.runs, run.id, NotDone) ==>
          && (run.sha.Some? ==> a.workflows.Some? && a.delete)
          && LabelsGo(w, repo, pr, Cancelled, run.dry, a.labels))
  }

  /** A claimed run that was started has its running workflows stopped and its branch deleted. */
  function CancelAsked(repo: int, run: Run, a: CancelAnswers): seq<Request> {
    if run.sha.Some? && a.workflows.Some?
    then StopsOf(repo, run.sha.value, a.workflows.value) + [DeleteBranch(repo, run.ciBranch)] else []
  }

  lemma CancelExactly(w: World, repo: int, run: Run, pr: PrRow, a: CancelAnswers)
    ensures var o := CancelRun(w, repo, run, pr, a);
            var claimed := a.stored && Reaches(w.db.runs, run.id, NotDone);
            && o.res == (if CancelGoes(w, repo, run, pr, a) then Ok(true) else Err)
            && o.w.db.runs == (if claimed then CancelledRows(w.db.runs, run.id, w.now) else w.db.runs)
            && o.w.hub.requests == w.hub.requests + if claimed then CancelAsked(repo, run, a) else []
  {
    hide UpdateLabels, LabelsGo, StopAll;
    CancelWrites(w, repo, run, pr, a);
    if a.stored && Reaches(w.db.runs, run.id, NotDone) {
      var w1 := SetRuns(w, CancelledRows(w.db.runs, run.id, w.now));
      LabelsAnswer(w, w1, repo, pr, Cancelled, run.dry, a.labels);
      if run.sha.Some? && a.workflows.Some? {
        StopAllAsksThem(w1, repo, run.sha.value, a.workflows.value);
        var w2 := Send(StopAll(w1, repo, run.sha.value, a.workflows.value), DeleteBranch(repo, run.ciBranch));
        LabelsAnswer(w, w2, repo, pr, Cancelled, run.dry, a.labels);
      }
    }
  }

  /**
   Which workflows a cancellation stops: of a claimed run that was started and whose workflows
   could be listed, exactly those of its commit that are not concluded; otherwise none.
   */
  lemma CancelStopsExactly(w: World, repo: int, run: Run, pr: PrRow, a: CancelAnswers, id: int)
    ensures var before, after := w.hub.requests, CancelRun(w, repo, run, pr, a).w.hub.requests;
            before <= after
            && (StopWorkflow(repo, id) in after[|before|..] <==>
                  && a.stored && Reaches(w.db.runs, run.id, NotDone) && run.sha.Some? && a.workflows.Some?
                  && exists k :: 0 <= k < |a.workflows.value| && a.workflows.value[k].id == id
                                 && a.workflows.value[k].headSha == run.sha.value && !a.workflows.value[k].concluded)
  {
    hide CancelRun, StopsOf, CancelGoes;
    CancelExactly(w, repo, run, pr, a);
    var before, after := w.hub.requests, CancelRun(w, repo, run, pr, a).w.hub.requests;
    var claimed := a.stored && Reaches(w.db.runs, run.id, NotDone);
    assert after[|before|..] == if claimed then CancelAsked(repo, run, a) else [];
    if claimed && run.sha.Some? && a.workflows.Some? {
      var ws := a.workflows.value;
      StopsContain(repo, run.sha.value, ws, id);
      assert StopWorkflow(repo, id) in CancelAsked(repo, run, a)
        <==> StopWorkflow(repo, id) in StopsOf(repo, run.sha.value, ws);
      forall k | 0 <= k < |ws| && ws[k].id == id && ws[k].headSha == run.sha.value && !ws[k].concluded
        ensures ws[k] == WorkflowRun(id, run.sha.value, false)
      {
      }
    }
  }

  ghost predicate AnnounceGoes(w: World, repo: int, run: Run, pr: PrRow, a: QueuedAnswers) {
    a.users && a.message && LabelsGo(w, repo, pr, Queued, run.dry, a.labels)
  }

  lemma AnnounceExactly(w: World, repo: int, run: Run, pr: PrRow, a: QueuedAnswers)
    ensures var o := AnnounceQueued(w, repo, run, pr, a);
            && o.res == (if AnnounceGoes(w, repo, run, pr, a) then Ok(true) else Err)
            && o.w.db.runs == w.db.runs
            && o.w.hub.requests == w.hub.requests + if a.users then [Comment(repo, run.pr, CommitApproved)] else []
  {
    hide UpdateLabels, LabelsGo;
    var w1 := Send(w, Comment(repo, run.pr, CommitApproved));
    LabelsAnswer(w, w1, repo, pr, Queued, run.dry, a.labels);
    LabelsWrite(w1, repo, pr, Queued, run.dry, a.labels);
  }

  // ---- The labels each step leaves ----

  /** The label's move, for a step that ended well. */
  ghost predicate Moved(w: World, o: Out, repo: int, pr: PrRow, listed: seq<string>, refused: set<string>, l: string)
    requires (repo, pr.number) in w.db.prs
  {
    o.res == Ok(true) ==> LabelMoved(w, o.w, (repo, pr.number), l in listed, l in refused, l)
  }

  /** The last thing a step does, in a world with the same rows and labels. */
  lemma LabelsAfterwards(w: World, v: World, repo: int, pr: PrRow, status: Status, dry: bool, a: LabelAnswers,
                         l: string)
    requires Current(w, repo, pr) && v.db.prs == w.db.prs && v.hub.labels == w.hub.labels && v.conf == w.conf
    ensures var o := UpdateLabels(v, repo, pr, status, dry, a);
            o.res == Ok(true) ==>
              LabelMoved(w, o.w, (repo, pr.number), Listed(ConfigOf(w, repo).labels, status, dry, l), l in a.refused, l)
  {
    hide Listed, UpdateLabels;
    LabelsAnswerExactly(v, repo, pr, status, dry, a);
    if LabelsGo(v, repo, pr, status, dry, a) {
      LabelsMove(v, repo, pr, status, dry, a, l);
    }
  }

  lemma FailMovesLabels(w: World, repo: int, run: Run, pr: PrRow, note: Note, a: FailAnswers, l: string)
    requires Current(w, repo, pr)
    ensures var c := ConfigOf(w, repo).labels;
            Moved(w, Fail(w, repo, run, pr, note, a), repo, pr, if run.dry then c.onTryFailure else c.onMergeFailure,
                  a.labels.refused, l)
  {
    hide UpdateLabels, LabelMoved, Current;
    var w1 := SetRuns(w, Update(w.db.runs, run.id, Query, Finish(Failure, w.now)));
    var w3 := Send(Send(w1, Comment(repo, pr.number, note)), DeleteBranch(repo, run.ciBranch));
    LabelsAfterwards(w, w3, repo, pr, Failure, run.dry, a.labels, l);
  }

  /** A push that was refused leaves the labels of a failure; a run that was not claimed leaves them alone. */
  lemma SuccessMovesLabels(w: World, repo: int, run: Run, pr: PrRow, a: SuccessAnswers, l: string)
    requires Current(w, repo, pr) && Reaches(w.db.runs, run.id, NotDone)
    ensures var c := ConfigOf(w, repo).labels;
            var o := Succeed(w, repo, run, pr, a);
            if run.dry then Moved(w, o, repo, pr, [], a.labels.refused, l)
            else if a.push then Moved(w, o, repo, pr, c.onMergeSuccess, a.labels.refused, l)
            else Moved(w, o, repo, pr, c.onMergeFailure, a.fail.labels.refused, l)
  {
    hide UpdateLabels, LabelMoved, Fail;
    var w1 := SetRuns(w, SuccessRows(w.db.runs, run.id, w.now));
    if run.sha.Some? {
      var w2 := Send(w1, Comment(repo, run.pr, if run.dry then TestsPassed else TestsPassedMerge));
      var w3 := if run.dry then w2 else LogPush(w2, PushOf(w, repo, run, pr, a));
      LabelsAfterwards(w, Send(w3, DeleteBranch(repo, run.ciBranch)), repo, pr, Success, run.dry, a.labels, l);
      FailMovesLabels(w3, repo, run, pr, PushRefused, a.fail, l);
      SameMove(w, w3, Fail(w3, repo, run, pr, PushRefused, a.fail), repo, pr, ConfigOf(w, repo).labels.onMergeFailure,
               a.fail.labels.refused, l);
    }
  }

  lemma SameMove(w: World, v: World, o: Out, repo: int, pr: PrRow, listed: seq<string>, refused: set<string>, l: string)
    requires (repo, pr.number) in w.db.prs && v.db.prs == w.db.prs && v.hub.labels == w.hub.labels
    ensures Moved(v, o, repo, pr, listed, refused, l) <==> Moved(w, o, repo, pr, listed, refused, l)
  {
  }

  lemma StartMovesLabels(w: World, repo: int, run: Run, pr: PrRow, a: StartAnswers, l: string)
    requires Current(w, repo, pr)
    ensures var c := ConfigOf(w, repo).labels;
            Moved(w, Start(w, repo, run, pr, a), repo, pr, if run.dry then c.onTryInProgress else c.onMergeInProgress,
                  a.labels.refused, l)
  {
    hide UpdateLabels, LabelMoved, Fail;
    if StartPushes(run, a) && a.push && a.message {
      var w2 := Mint(Send(w, MakeMerge(repo, BaseOf(run, a).value, run.head)), a.merge.sha, repo);
      var w3 := SetRuns(w2, StartedRows(w.db.runs, run.id, a.merge.sha, w.now));
      var w5 := Send(Send(w3, PushCi(repo, run.ciBranch, a.merge.sha)), Comment(repo, run.pr, TestsStarted));
      LabelsAfterwards(w, w5, repo, pr, InProgress, run.dry, a.labels, l);
    }
  }

  lemma CancelMovesLabels(w: World, repo: int, run: Run, pr: PrRow, a: CancelAnswers, l: string)
    requires Current(w, repo, pr) && Reaches(w.db.runs, run.id, NotDone)
    ensures Moved(w, CancelRun(w, repo, run, pr, a), repo, pr, [], a.labels.refused, l)
  {
    hide UpdateLabels, LabelMoved, StopAll;
    var w1 := SetRuns(w, CancelledRows(w.db.runs, run.id, w.now));
    LabelsAfterwards(w, w1, repo, pr, Cancelled, run.dry, a.labels, l);
    if run.sha.Some? && a.workflows.Some? {
      StopAllIsQuiet(w1, repo, run.sha.value, a.workflows.value);
      var w2 := Send(StopAll(w1, repo, run.sha.value, a.workflows.value), DeleteBranch(repo, run.ciBranch));
      StopAllKeepsLabels(w1, repo, run.sha.value, a.workflows.value);
      LabelsAfterwards(w, w2, repo, pr, Cancelled, run.dry, a.labels, l);
    }
  }

  lemma {:induction false} StopAllKeepsLabels(w: World, repo: int, sha: string, workflows: seq<WorkflowRun>)
    ensures StopAll(w, repo, sha, workflows).hub.labels == w.hub.labels
  {
    if workflows != [] {
      StopAllKeepsLabels(w, repo, sha, workflows[..|workflows| - 1]);
    }
  }

  lemma AnnounceMovesLabels(w: World, repo: int, run: Run, pr: PrRow, a: QueuedAnswers, l: string)
    requires Current(w, repo, pr)
    ensures Moved(w, AnnounceQueued(w, repo, run, pr, a), repo, pr,
                  if run.dry then [] else ConfigOf(w, repo).labels.onMergeQueued, a.labels.refused, l)
  {
    hide UpdateLabels, LabelMoved;
    var w1 := Send(w, Comment(repo, run.pr, CommitApproved));
    LabelsAfterwards(w, w1, repo, pr, Queued, run.dry, a.labels, l);
  }

  // ---- Labels over the life of a merge ----

  /**
   A merge that is started and then succeeds, each step given the row as it is then and nothing
   refused: exactly the labels for success are recorded and they are present; what was recorded
   before, or is for merges in progress, is gone unless it is for success too; no other label moves.
   */
  lemma MergeLabelsExactly(w: World, repo: int, run: Run, pr: PrRow, a: StartAnswers, done: Run, b: SuccessAnswers,
                           l: string)
    requires Current(w, repo, pr) && !run.dry && !done.dry && a.labels.refused == {} && b.labels.refused == {} && b.push
    requires Start(w, repo, run, pr, a).res == Ok(true)
    requires var w1 := Start(w, repo, run, pr, a).w;
             Reaches(w1.db.runs, done.id, NotDone) && (repo, pr.number) in w1.db.prs
             && Succeed(w1, repo, done, w1.db.prs[(repo, pr.number)], b).res == Ok(true)
    ensures var key := (repo, pr.number);
            var c := ConfigOf(w, repo).labels;
            var w1 := Start(w, repo, run, pr, a).w;
            var w2 := Succeed(w1, repo, done, w1.db.prs[key], b).w;
            && key in w2.db.prs
            && (l in w2.db.prs[key].addedLabels <==> l in c.onMergeSuccess)
            && (l in c.onMergeSuccess ==> l in LabelsOn(w2, key))
            && (l !in c.onMergeSuccess && (l in c.onMergeInProgress || l in pr.addedLabels) ==> l !in LabelsOn(w2, key))
            && (l !in c.onMergeSuccess && l !in c.onMergeInProgress && l !in pr.addedLabels ==>
                  (l in LabelsOn(w2, key) <==> l in LabelsOn(w, key)))
  {
    hide Start, Succeed;
    var key := (repo, pr.number);
    var w1 := Start(w, repo, run, pr, a).w;
    StartMovesLabels(w, repo, run, pr, a, l);
    forall m | m in w1.db.prs[key].addedLabels
      ensures m in LabelsOn(w1, key)
    {
      StartMovesLabels(w, repo, run, pr, a, m);
    }
    StartWrites(w, repo, run, pr, a);
    SuccessMovesLabels(w1, repo, done, w1.db.prs[key], b, l);
  }

  /** Accepted updates, each given the row as it is then. */
  function UpdateAll(w: World, key: PrKey, stages: seq<Stage>): World {
    if stages == [] then w else
    var k := |stages| - 1;
    var v := UpdateAll(w, key, stages[..k]);
    if key in v.db.prs
    then UpdateLabels(v, key.0, v.db.prs[key], stages[k].status, stages[k].dry, LabelAnswers({}, true)).w else v
  }

  ghost predicate EverListed(c: LabelsConfig, stages: seq<Stage>, l: string) {
    exists i :: 0 <= i < |stages| && Listed(c, stages[i].status, stages[i].dry, l)
  }

  /** One label over any number of accepted updates. */
  ghost predicate MovedOver(w: World, w2: World, key: PrKey, stages: seq<Stage>, l: string)
    requires key in w.db.prs && stages != []
  {
    var c := ConfigOf(w, key.0).labels;
    var last := stages[|stages| - 1];
    var listed := Listed(c, last.status, last.dry, l);
    && key in w2.db.prs && (l in w2.db.prs[key].addedLabels <==> listed) && (listed ==> l in LabelsOn(w2, key))
    && (!listed && (l in w.db.prs[key].addedLabels || EverListed(c, stages, l)) ==> l !in LabelsOn(w2, key))
    && (l !in w.db.prs[key].addedLabels && !EverListed(c, stages, l) ==>
        (l in LabelsOn(w2, key) <==> l in LabelsOn(w, key)))
  }

  /**
   Any number of accepted updates of a stored pull request: the record is what the configuration
   lists for the last state, all of it is present, other labels once listed or recorded are gone,
   and the rest is untouched.
   */
  lemma {:induction false} UpdatesReconcile(w: World, key: PrKey, stages: seq<Stage>)
    requires key in w.db.prs && w.db.prs[key].number == key.1 && Current(w, key.0, w.db.prs[key]) && stages != []
    ensures var w2 := UpdateAll(w, key, stages);
            && w2.conf == w.conf && key in w2.db.prs && w2.db.prs[key].number == key.1
            && Current(w2, key.0, w2.db.prs[key])
            && forall l :: MovedOver(w, w2, key, stages, l)
    decreases |stages|
  {
    hide UpdateLabels, Listed;
    var k := |stages| - 1;
    var v := UpdateAll(w, key, stages[..k]);
    if k > 0 {
      UpdatesReconcile(w, key, stages[..k]);
    } else {
      assert stages[..k] == [];
    }
    var w2 := UpdateAll(w, key, stages);
    LabelsWrite(v, key.0, v.db.prs[key], stages[k].status, stages[k].dry, LabelAnswers({}, true));
    LabelsMove(v, key.0, v.db.prs[key], stages[k].status, stages[k].dry, LabelAnswers({}, true), "");
    forall l
      ensures MovedOver(w, w2, key, stages, l)
      ensures l in w2.db.prs[key].addedLabels ==> l in LabelsOn(w2, key)
    {
      LabelsMove(v, key.0, v.db.prs[key], stages[k].status, stages[k].dry, LabelAnswers({}, true), l);
      assert k > 0 ==> MovedOver(w, v, key, stages[..k], l);
      OneMoreListed(ConfigOf(w, key.0).labels, stages, l);
    }
  }

  lemma OneMoreListed(c: LabelsConfig, stages: seq<Stage>, l: string)
    requires stages != []
    ensures var k := |stages| - 1;
            EverListed(c, stages, l) <==> EverListed(c, stages[..k], l) || Listed(c, stages[k].status, stages[k].dry, l)
  {
    hide Listed;
    var k := |stages| - 1;
    if EverListed(c, stages, l) {
      var i :| 0 <= i < |stages| && Listed(c, stages[i].status, stages[i].dry, l);
      assert i < k ==> stages[..k][i] == stages[i];
    }
    if EverListed(c, stages[..k], l) {
      var i :| 0 <= i < k && Listed(c, stages[..k][i].status, stages[..k][i].dry, l);
      assert stages[i] == stages[..k][i];
    }
  }
}
