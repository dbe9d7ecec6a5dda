/**
 What users and GitHub ask of the server: the four commands (server/src/command) and the two
 webhooks (server/src/webhook). Each handler runs inside one transaction.
 */
module Handlers {
  import opened Basics
  import opened CiRuns
  import opened Checks
  import opened PrRows
  import opened Store
  import opened Workflow
  import opened Approvers
  import BranchNames

  /** A handler that ends in a comment. */
  function Told(w: World, repo: int, pr: nat, note: Note, sent: bool): Out {
    Out(Send(w, Comment(repo, pr, note)), if sent then Ok(true) else Err)
  }

  /** `CiRun::insert`: a queued row under the next id. */
  function InsertRun(w: World, run: Run): World {
    w.(db := w.db.(runs := w.db.runs[w.next := run]), next := w.next + 1)
  }

  function NewRun(w: World, repo: int, pr: nat, base: Base, head: string, ciBranch: string, priority: int,
                  user: int, dry: bool, approvedBy: seq<int>): Run
  {
    Run(w.next, repo, pr, Queued, base, head, None, ciBranch, priority, user, dry, approvedBy, None, None)
  }

  /** `#[builder(default = 5)]`. */
  const DEFAULT_PRIORITY := 5

  // ---- try ----

  datatype TryArgs = TryArgs(head: Option<string>, base: Option<string>)

  datatype CommitAnswer = CommitIs(sha: string) | NoCommit | CommitErr

  datatype TryAnswers = TryAnswers(
    can: Option<bool>, message: bool, base: CommitAnswer, head: CommitAnswer, cancel: CancelAnswers,
    start: StartAnswers)

  function TryBranchOf(w: World, repo: int, pr: nat): string {
    BranchNames.TryBranch(ConfigOf(w, repo).tryPrefix, pr)
  }

  function MergeBranchOf(w: World, repo: int, target: string): string {
    BranchNames.MergeBranch(ConfigOf(w, repo).mergePrefix, target)
  }

  /** `dry_run::handle_with_pr`. */
  function Try(w: World, repo: int, user: int, pr: PullRequest, args: TryArgs, a: TryAnswers): Out {
    if !ConfigOf(w, repo).enabled then Out(w, Ok(true))
    else if a.can.None? then Out(w, Err)
    else if !a.can.value then Out(w, Ok(true))
    else if pr.mergedAt.Some? then Told(w, repo, pr.number, AlreadyMerged, a.message)
    else if args.base.Some? && a.base.CommitErr? then Out(w, Err)
    else if args.base.Some? && a.base.NoCommit? then Told(w, repo, pr.number, BaseNotFound, a.message)
    else if args.head.Some? && a.head.CommitErr? then Out(w, Err)
    else if args.head.Some? && a.head.NoCommit? then Told(w, repo, pr.number, HeadNotFound, a.message)
    else
      TryAt(w, repo, user, pr,
            if args.base.Some? then Commit(a.base.sha) else Branch(pr.baseRef),
            if args.head.Some? then a.head.sha else pr.headSha, a)
  }

  /** From the upsert on: an active try is cancelled, an active merge refuses the command. */
  function TryAt(w: World, repo: int, user: int, pr: PullRequest, base: Base, head: string, a: TryAnswers): Out {
    var row := NewRow(pr, user, repo, w.now);
    var dbPr := UpsertRow(w.db.prs, row);
    var w1 := SetPrs(w, UpsertPr(w.db.prs, row));
    var active := Active(w1.db.runs, w1.next, repo, pr.number);
    if active.None? then StartTry(w1, repo, user, pr, dbPr, base, head, a.start)
    else if !active.value.dry then Told(w1, repo, pr.number, ActiveMerge, a.message)
    else
      var c := CancelRun(w1, repo, active.value, dbPr, a.cancel);
      if c.res.Err? then c else StartTry(c.w, repo, user, pr, dbPr, base, head, a.start)
  }

  function StartTry(w: World, repo: int, user: int, pr: PullRequest, dbPr: PrRow, base: Base, head: string,
                    a: StartAnswers): Out
  {
    var run := NewRun(w, repo, pr.number, base, head, TryBranchOf(w, repo, pr.number), DEFAULT_PRIORITY, user, true,
                      []);
    Start(InsertRun(w, run), repo, run, dbPr, a)
  }

  // ---- merge ----

  datatype MergeAnswers = MergeAnswers(
    can: Option<bool>, message: bool, reviews: Option<seq<Review>>, reviewers: map<int, bool>, queued: QueuedAnswers)

  /** A reviewer the map does not know is one whose permission could not be asked. */
  function PermissionIn(reviewers: map<int, bool>): Permission {
    (u: int) => if u in reviewers then Some(reviewers[u]) else None
  }

  /** `merge::handle_with_pr`. */
  function Merge(w: World, repo: int, user: int, pr: PullRequest, priority: Option<int>, a: MergeAnswers): Out {
    if !ConfigOf(w, repo).enabled || pr.mergedAt.Some? then Out(w, Ok(true))
    else if a.can.None? then Out(w, Err)
    else if !a.can.value then Out(w, Ok(true))
    else if Active(w.db.runs, w.next, repo, pr.number).Some? then Told(w, repo, pr.number, RunPending, a.message)
    else if a.reviews.None? then Out(w, Err)
    else
      var row := NewRow(pr, user, repo, w.now).(defaultPriority := priority);
      var approvers := Compute(a.reviews.value, row.authorId, pr.requestedReviewers, PermissionIn(a.reviewers));
      if approvers.None? then Out(w, Err)
      else
        var dbPr := UpsertRow(w.db.prs, row);
        var w1 := SetPrs(w, UpsertPr(w.db.prs, row));
        var given := if priority.Some? then priority else dbPr.defaultPriority;
        var run := NewRun(w1, repo, pr.number, Branch(pr.baseRef), pr.headSha, MergeBranchOf(w1, repo, pr.baseRef),
                          if given.Some? then given.value else DEFAULT_PRIORITY, user, false, approvers.value);
        AnnounceQueued(InsertRun(w1, run), repo, run, dbPr, a.queued)
  }

  // ---- retry ----

  datatype RetryAnswers = RetryAnswers(can: Option<bool>, message: bool, start: StartAnswers, queued: QueuedAnswers)

  /** `retry::handle_with_pr`: the latest run of the pull request, again. */
  function Retry(w: World, repo: int, user: int, pr: PullRequest, a: RetryAnswers): Out {
    if !ConfigOf(w, repo).enabled then Out(w, Ok(true)) else
    var row := NewRow(pr, user, repo, w.now);
    var dbPr := UpsertRow(w.db.prs, row);
    var w1 := SetPrs(w, UpsertPr(w.db.prs, row));
    var latest := Latest(w1.db.runs, w1.next, repo, pr.number);
    if latest.None? then Told(w1, repo, pr.number, NeverRun, a.message)
    else if latest.value.completedAt.None? then Told(w1, repo, pr.number, NotCompleted, a.message)
    else if a.can.None? then Out(w1, Err)
    else if !a.can.value then Out(w1, Ok(true))
    else
      var last := latest.value;
      var run := NewRun(w1, repo, pr.number, last.base, last.head, last.ciBranch, last.priority, user, last.dry,
                        last.approvedBy);
      var w2 := InsertRun(w1, run);
      if run.dry then Start(w2, repo, run, dbPr, a.start) else AnnounceQueued(w2, repo, run, dbPr, a.queued)
  }

  // ---- cancel ----

  datatype CancelCommandAnswers = CancelCommandAnswers(can: Option<bool>, message: bool, cancel: CancelAnswers)

  /** `cancel::handle_with_pr`. */
  function Cancel(w: World, repo: int, user: int, pr: PullRequest, a: CancelCommandAnswers): Out {
    var row := NewRow(pr, user, repo, w.now);
    var dbPr := UpsertRow(w.db.prs, row);
    var w1 := SetPrs(w, UpsertPr(w.db.prs, row));
    var active := Active(w1.db.runs, w1.next, repo, pr.number);
    if active.None? then Out(w1, Ok(true))
    else if a.can.None? then Out(w1, Err)
    else if !a.can.value then Out(w1, Ok(true))
    else
      var c := CancelRun(w1, repo, active.value, dbPr, a.cancel);
      if c.res.Err? then c else Told(c.w, repo, pr.number, RunCancelled, a.message)
  }

  // ---- pull_request webhook ----

  datatype PrAnswers = PrAnswers(message: bool, cancel: CancelAnswers)

  /** `pull_request::handle_with_pr`: a changed pull request loses its active merge. */
  function PrChange(w: World, repo: int, user: int, pr: PullRequest, a: PrAnswers): Out {
    var key := (repo, pr.number);
    if key !in w.db.prs then Out(SetPrs(w, w.db.prs[key := NewRow(pr, user, repo, w.now)]), Ok(true)) else
    var update := UpdateFrom(w.db.prs[key], pr, w.now);
    if !NeedsUpdate(update) then Out(w, Ok(true)) else
    var current := InMemory(update, w.db.prs[key]);
    var w1 := SetPrs(w, w.db.prs[key := Stored(update, w.db.prs[key])]);
    var active := Active(w1.db.runs, w1.next, repo, pr.number);
    if active.None? || active.value.dry then Out(w1, Ok(true)) else
    var c := CancelRun(w1, repo, active.value, current, a.cancel);
    if c.res.Err? then c else Told(c.w, repo, active.value.pr, PrChanged, a.message)
  }

  // ---- check_run webhook ----

  function StoreCheck(w: World, repo: int, c: CheckReport, run: Run): World {
    w.(db := w.db.(checks := Upsert(w.db.checks, NewCheck(c, run.id, IsRequired(ConfigOf(w, repo).required, c.name),
                                                          w.now))))
  }

  /** `check_event::handle`: store the check of an uncompleted run, and refresh the run if it is required. */
  function CheckRun(w: World, repo: int, c: CheckReport, a: RefreshAnswers): Out {
    var found := BySha(w.db.runs, w.next, c.headSha);
    if found.None? || found.value.completedAt.Some? then Out(w, Ok(true)) else
    var run := found.value;
    if (run.repo, run.pr) !in w.db.prs then Out(w, Err) else
    var w1 := StoreCheck(w, repo, c, run);
    if IsRequired(ConfigOf(w, repo).required, c.name) then Refresh(w1, repo, run, w.db.prs[(run.repo, run.pr)], a)
    else Out(w1, Ok(true))
  }

  // ---- the transaction around every handler ----

  /** A handler's error, or a refused commit, undoes the tables; what GitHub was asked stays asked. */
  function Transaction(w: World, o: Out, commit: bool): World {
    if o.res.Ok? && commit then o.w else o.w.(db := w.db)
  }
}
