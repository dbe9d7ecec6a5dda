/** The life of a CI run (server/src/github/merge_workflow.rs). */
module Workflow {
  import opened Basics
  import opened CiRuns
  import opened Checks
  import opened PrRows
  import opened Labels
  import opened Store

  /** Time is counted in milliseconds. */
  const MINUTE := 60_000

  // ---- Answers of GitHub and the database, one field per call ----

  datatype FailAnswers = FailAnswers(stored: bool, message: bool, delete: bool, labels: LabelAnswers)

  datatype SuccessAnswers = SuccessAnswers(
    stored: bool, users: bool, message: bool, push: bool, fail: FailAnswers, delete: bool, labels: LabelAnswers)

  /** `rows` is what `for_run` returned, in its order, or None if it failed. */
  datatype RefreshAnswers = RefreshAnswers(rows: Option<seq<Check>>, fail: FailAnswers, success: SuccessAnswers)

  datatype BranchAnswer = BranchAt(sha: string) | NoBranch | BranchErr

  datatype MergeAnswer = MergedAs(sha: string) | MergeClash | MergeErr

  datatype StartAnswers = StartAnswers(
    base: BranchAnswer, users: bool, merge: MergeAnswer, stored: bool, push: bool, message: bool,
    labels: LabelAnswers, fail: FailAnswers)

  datatype WorkflowRun = WorkflowRun(id: int, headSha: string, concluded: bool)

  datatype CancelAnswers = CancelAnswers(
    stored: bool, workflows: Option<seq<WorkflowRun>>, delete: bool, labels: LabelAnswers)

  datatype QueuedAnswers = QueuedAnswers(users: bool, message: bool, labels: LabelAnswers)

  // ---- The transitions ----

  /** `fail`: the update has no filter but the id. */
  function Fail(w: World, repo: int, run: Run, pr: PrRow, note: Note, a: FailAnswers): Out {
    if !a.stored || run.id !in w.db.runs then Out(w, Err) else
    var w1 := SetRuns(w, Update(w.db.runs, run.id, Query, Finish(Failure, w.now)));
    var w2 := Send(w1, Comment(repo, pr.number, note));
    if !a.message then Out(w2, Err) else
    var w3 := Send(w2, DeleteBranch(repo, run.ciBranch));
    if !a.delete then Out(w3, Err) else
    UpdateLabels(w3, repo, pr, Failure, run.dry, a.labels)
  }

  /** The end of `success`: a CI branch that cannot be deleted is only logged. */
  function Wrapup(w: World, repo: int, run: Run, pr: PrRow, a: SuccessAnswers): Out {
    UpdateLabels(Send(w, DeleteBranch(repo, run.ciBranch)), repo, pr, Success, run.dry, a.labels)
  }

  /** `success`: claim the row, comment, and push a merge to the branch the pull request targets now. */
  function Succeed(w: World, repo: int, run: Run, pr: PrRow, a: SuccessAnswers): Out {
    if !a.stored then Out(w, Err)
    else if !Reaches(w.db.runs, run.id, NotDone) then Out(w, Ok(true))
    else
      var w1 := SetRuns(w, Update(w.db.runs, run.id, NotDone, Finish(Success, w.now)));
      if run.sha.None? || !a.users then Out(w1, Err)
      else if run.dry then
        var w2 := Send(w1, Comment(repo, run.pr, TestsPassed));
        if !a.message then Out(w2, Err) else Wrapup(w2, repo, run, pr, a)
      else
        var w2 := Send(w1, Comment(repo, run.pr, TestsPassedMerge));
        if !a.message then Out(w2, Err) else
        var w3 := LogPush(w2, Push(run.id, repo, pr.targetBranch, run.sha.value, a.push, w.db.checks));
        if !a.push then Fail(w3, repo, run, pr, PushRefused, a.fail)
        else Wrapup(w3, repo, run, pr, a)
  }

  function TimedOut(w: World, repo: int, startedAt: int): bool {
    w.now - startedAt > ConfigOf(w, repo).timeoutMinutes * MINUTE
  }

  /** `refresh`: decide the run by its required checks, or by the clock. */
  function Refresh(w: World, repo: int, run: Run, pr: PrRow, a: RefreshAnswers): Out {
    if run.completedAt.Some? || run.startedAt.None? then Out(w, Ok(false))
    else if a.rows.None? then Out(w, Err)
    else
      match Judge(ConfigOf(w, repo).required, ByName(a.rows.value))
      case Broken(c) => Fail(w, repo, run, pr, TestsFailed(c.name), a.fail)
      case Green => Succeed(w, repo, run, pr, a.success)
      case Unfinished(_) =>
        if TimedOut(w, repo, run.startedAt.value) then Fail(w, repo, run, pr, TestsTimedOut, a.fail)
        else Out(w, Ok(true))
  }

  /** `start`: make the merge commit on the base, claim the row if it is still queued, push the CI branch. */
  function Start(w: World, repo: int, run: Run, pr: PrRow, a: StartAnswers): Out {
    match run.base
    case Commit(sha) => StartOn(w, repo, run, pr, sha, a)
    case Branch(_) =>
      match a.base
      case BranchErr => Out(w, Err)
      case NoBranch => FailedStart(w, repo, run, pr, BaseMissing, a.fail)
      case BranchAt(sha) => StartOn(w, repo, run, pr, sha, a)
  }

  /** A start that ended in `fail` answers false. */
  function Stopped(res: Outcome): Outcome {
    if res.Ok? then Ok(false) else Err
  }

  function FailedStart(w: World, repo: int, run: Run, pr: PrRow, note: Note, a: FailAnswers): Out {
    var o := Fail(w, repo, run, pr, note, a);
    Out(o.w, Stopped(o.res))
  }

  function StartOn(w: World, repo: int, run: Run, pr: PrRow, base: string, a: StartAnswers): Out {
    if !a.users then Out(w, Err) else
    var w1 := Send(w, MakeMerge(repo, base, run.head));
    match a.merge
    case MergeClash => FailedStart(w1, repo, run, pr, MergeConflict, a.fail)
    case MergeErr => FailedStart(w1, repo, run, pr, MergeFailed, a.fail)
    case MergedAs(sha) =>
      var w2 := Mint(w1, sha, repo);
      if !a.stored then Out(w2, Err) else
      // How many rows the update reached is not looked at.
      var w3 := SetRuns(w2, Update(w2.db.runs, run.id, StillQueued, Begin(sha, w.now)));
      var w4 := Send(w3, PushCi(repo, run.ciBranch, sha));
      if !a.push then FailedStart(w4, repo, run, pr, CiPushFailed, a.fail) else
      var w5 := Send(w4, Comment(repo, run.pr, TestsStarted));
      if !a.message then Out(w5, Err) else
      UpdateLabels(w5, repo, pr, InProgress, run.dry, a.labels)
  }

  /** Workflows of the run's commit that are still going are stopped; a refusal is only logged. */
  function StopAll(w: World, repo: int, sha: string, workflows: seq<WorkflowRun>): World {
    if workflows == [] then w else
    var last := workflows[|workflows| - 1];
    var w1 := StopAll(w, repo, sha, workflows[..|workflows| - 1]);
    if last.headSha == sha && !last.concluded then Send(w1, StopWorkflow(repo, last.id)) else w1
  }

  /** `cancel`: claim the row, then stop what the run started. */
  function CancelRun(w: World, repo: int, run: Run, pr: PrRow, a: CancelAnswers): Out {
    if !a.stored then Out(w, Err)
    else if !Reaches(w.db.runs, run.id, NotDone) then Out(w, Ok(true))
    else
      var w1 := SetRuns(w, Update(w.db.runs, run.id, NotDone, Finish(Cancelled, w.now)));
      if run.sha.None? then UpdateLabels(w1, repo, pr, Cancelled, run.dry, a.labels)
      else if a.workflows.None? then Out(w1, Err)
      else
        var w2 := Send(StopAll(w1, repo, run.sha.value, a.workflows.value), DeleteBranch(repo, run.ciBranch));
        if !a.delete then Out(w2, Err) else UpdateLabels(w2, repo, pr, Cancelled, run.dry, a.labels)
  }

  /** `queued`. */
  function AnnounceQueued(w: World, repo: int, run: Run, pr: PrRow, a: QueuedAnswers): Out {
    if !a.users then Out(w, Err) else
    var w1 := Send(w, Comment(repo, run.pr, CommitApproved));
    if !a.message then Out(w1, Err) else UpdateLabels(w1, repo, pr, Queued, run.dry, a.labels)
  }
}
