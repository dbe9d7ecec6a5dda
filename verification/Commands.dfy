/** What the four commands do to the runs of their pull request, and to nobody else's. */
module Commands {
  import opened Basics
  import opened Sorting
  import opened CiRuns
  import opened PrRows
  import opened Labels
  import opened Store
  import opened Workflow
  import opened Handlers
  import opened Invariants
  import opened WorkflowProofs
  import opened HandlerProofs
  import Approvers
  import Effects

  predicate OfPr(r: Run, repo: int, pr: nat) {
    r.repo == repo && r.pr == pr
  }

  /** Every run of the pull request is completed. */
  ghost predicate AllDone(runs: Rows, repo: int, pr: nat) {
    forall i :: i in runs && OfPr(runs[i], repo, pr) ==> runs[i].completedAt.Some?
  }

  /** The pull request has a merge that is queued or in progress. */
  ghost predicate MergeGoingOn(runs: Rows, repo: int, pr: nat) {
    exists i :: i in runs && OfPr(runs[i], repo, pr) && runs[i].completedAt.None? && !runs[i].dry
  }

  ghost predicate Newest(runs: Rows, repo: int, pr: nat, id: nat) {
    && id in runs && OfPr(runs[id], repo, pr)
    && forall j :: j in runs && OfPr(runs[j], repo, pr) ==> j <= id
  }

  /** The uncompleted runs of a pull request are cancelled and every other row is as it was. */
  ghost predicate Superseded(runs: Rows, runs2: Rows, repo: int, pr: nat) {
    && (forall i :: i in runs ==> i in runs2)
    && (forall i :: i in runs ==>
          if OfPr(runs[i], repo, pr) && runs[i].completedAt.None?
          then runs2[i].status.Cancelled? && runs2[i].completedAt.Some?
          else runs2[i] == runs[i])
  }

  // ---- merge ----

  /** Whether a review of the pull request counts and its author's permission was answered. */
  ghost predicate ApproversKnown(a: MergeAnswers, author: int, requested: seq<int>) {
    && a.reviews.Some?
    && forall u :: Approvers.Stands(a.reviews.value, author, requested, u) ==> u in a.reviewers
  }

  /** The author GitHub names, else the user who gave the command. */
  function AuthorOf(pr: PullRequest, user: int): int {
    if pr.user.Some? then pr.user.value else user
  }

  function MergePriority(w: World, repo: int, pr: nat, priority: Option<int>): int {
    if priority.Some? then priority.value
    else if (repo, pr) in w.db.prs && w.db.prs[(repo, pr)].defaultPriority.Some?
    then w.db.prs[(repo, pr)].defaultPriority.value
    else 5
  }

  /**
   A merge queues a run exactly when it is allowed to, the pull request is open and idle, and
   its approvers are known. The run is the pull request's as it is now, its approvers are the
   permitted standing ones in order, and no other row changes.
   */
  lemma MergeQueuesExactly(w: World, repo: int, user: int, pr: PullRequest, priority: Option<int>, a: MergeAnswers)
    requires Inv(w)
    ensures var runs, runs2 := w.db.runs, Merge(w, repo, user, pr, priority, a).w.db.runs;
            if ConfigOf(w, repo).enabled && pr.mergedAt.None? && a.can == Some(true) && AllDone(runs, repo, pr.number)
               && ApproversKnown(a, AuthorOf(pr, user), pr.requestedReviewers)
            then w.next !in runs && w.next in runs2 && runs2 == runs[w.next := runs2[w.next]]
                 && var r := runs2[w.next];
                 && r.id == w.next && r.status.Queued? && r.completedAt.None? && r.startedAt.None? && !r.dry
                 && OfPr(r, repo, pr.number)
                 && r.head == pr.headSha && r.base == Branch(pr.baseRef)
                 && r.ciBranch == MergeBranchOf(w, repo, pr.baseRef)
                 && r.priority == MergePriority(w, repo, pr.number, priority) && r.requestedBy == user
                 && (forall i, j :: 0 <= i < j < |r.approvedBy| ==> r.approvedBy[i] < r.approvedBy[j])
                 && (forall u :: u in r.approvedBy <==>
                       Approvers.Stands(a.reviews.value, AuthorOf(pr, user), pr.requestedReviewers, u)
                       && u in a.reviewers && a.reviewers[u])
            else runs2 == runs
  {
    hide Inv, UpsertPr, AnnounceQueued, Approvers.Compute, MergeBranchOf, Approvers.Stands, Increasing, ApproversKnown,
         AssignedIds, StatusOf, MergeStatusOf, MergeCommitOf;
    NextIsNew(w);
    ActiveFacts(w, repo, pr.number);
    var row := NewRow(pr, user, repo, w.now).(defaultPriority := priority);
    ApproversOfMerge(a, AuthorOf(pr, user), pr.requestedReviewers);
    if a.reviews.Some? {
      var approvers := Approvers.Compute(a.reviews.value, row.authorId, pr.requestedReviewers,
                                         PermissionIn(a.reviewers));
      if approvers.Some? {
        var dbPr := UpsertRow(w.db.prs, row);
        var w1 := SetPrs(w, UpsertPr(w.db.prs, row));
        BranchesStay(w, w1, repo, pr);
        var given := if priority.Some? then priority else dbPr.defaultPriority;
        var run := NewRun(w1, repo, pr.number, Branch(pr.baseRef), pr.headSha, MergeBranchOf(w1, repo, pr.baseRef),
                          if given.Some? then given.value else DEFAULT_PRIORITY, user, false, approvers.value);
        AnnounceWrites(InsertRun(w1, run), repo, run, dbPr, a.queued);
      }
    }
  }

  /** The approvers a merge stores, or the error, in terms of the answers. */
  lemma ApproversOfMerge(a: MergeAnswers, author: int, requested: seq<int>)
    ensures a.reviews.None? ==> !ApproversKnown(a, author, requested)
    ensures a.reviews.Some? ==>
              var ids := Approvers.Compute(a.reviews.value, author, requested, PermissionIn(a.reviewers));
              && (ids.Some? <==> ApproversKnown(a, author, requested))
              && (ids.Some? ==>
                    && (forall i, j :: 0 <= i < j < |ids.value| ==> ids.value[i] < ids.value[j])
                    && forall u :: u in ids.value <==>
                         Approvers.Stands(a.reviews.value, author, requested, u) && u in a.reviewers && a.reviewers[u])
  {
    hide Approvers.Compute, Approvers.Stands;
    if a.reviews.Some? {
      Approvers.ApproversExactly(a.reviews.value, author, requested, PermissionIn(a.reviewers));
    }
  }

  lemma BranchesStay(w: World, w2: World, repo: int, pr: PullRequest)
    requires w2.conf == w.conf
    ensures MergeBranchOf(w2, repo, pr.baseRef) == MergeBranchOf(w, repo, pr.baseRef)
    ensures TryBranchOf(w2, repo, pr.number) == TryBranchOf(w, repo, pr.number)
  {
  }

  lemma AnnounceWrites(w: World, repo: int, run: Run, pr: PrRow, a: QueuedAnswers)
    ensures AnnounceQueued(w, repo, run, pr, a).w.db.runs == w.db.runs
  {
    hide UpdateLabels;
    LabelsWrite(Send(w, Comment(repo, run.pr, CommitApproved)), repo, pr, Queued, run.dry, a.labels);
  }

  // ---- retry ----

  /** The same run again: only its id, its requester and its state may differ. */
  predicate SamePlan(r: Run, last: Run) {
    && r.repo == last.repo && r.pr == last.pr && r.base == last.base && r.head == last.head
    && r.ciBranch == last.ciBranch && r.priority == last.priority && r.dry == last.dry
    && r.approvedBy == last.approvedBy
  }

  /** A row just inserted, whatever became of it in the same transaction. */
  ghost predicate Added(w: World, o: Out) {
    && w.next !in w.db.runs && w.next in o.w.db.runs && o.w.db.runs[w.next].id == w.next
    && (forall i :: i in w.db.runs ==> i in o.w.db.runs)
    && (forall i :: i in o.w.db.runs ==> i in w.db.runs || i == w.next)
    && var r := o.w.db.runs[w.next];
       && (r.status.InProgress? ==> r.startedAt == Some(w.now))
       && if r.dry then o.res.Ok? ==> r.status.InProgress? || r.status.Failure?
          else r.status.Queued? && r.completedAt.None?
  }

  /** The rows with one more, which is `run` up to its state. */
  ghost predicate OneMoreRow(runs: Rows, runs2: Rows, run: Run, now: int) {
    && run.id !in runs && runs2.Keys == runs.Keys + {run.id}
    && (forall i :: i in runs ==> runs2[i] == runs[i])
    && SameRun(runs2[run.id], run)
    && (runs2[run.id].status.Queued? || runs2[run.id].status.InProgress? || runs2[run.id].status.Failure?)
    && (runs2[run.id].status.InProgress? ==> runs2[run.id].startedAt == Some(now))
  }

  lemma WrittenAgain(runs: Rows, runs2: Rows, run: Run, now: int, sha: string)
    requires OneMoreRow(runs, runs2, run, now)
    ensures OneMoreRow(runs, FailedRows(runs2, run.id, now), run, now)
    ensures OneMoreRow(runs, StartedRows(runs2, run.id, sha, now), run, now)
  {
  }

  lemma StartedRow(w: World, repo: int, run: Run, pr: PrRow, a: StartAnswers)
    requires w.next !in w.db.runs && run.id == w.next && run.status.Queued?
    ensures var o := Start(InsertRun(w, run), repo, run, pr, a);
            && OneMoreRow(w.db.runs, o.w.db.runs, run, w.now)
            && (o.res.Ok? ==> !o.w.db.runs[w.next].status.Queued?)
  {
    hide Start, OneMoreRow, FailedRows, StartedRows;
    var w1 := InsertRun(w, run);
    StartWrites(w1, repo, run, pr, a);
    StartTakesOffQueue(w1, repo, run, pr, a);
    var sha := if a.merge.MergedAs? then a.merge.sha else "";
    assert OneMoreRow(w.db.runs, w1.db.runs, run, w.now) by { InsertedRow(w, run); }
    WrittenAgain(w.db.runs, w1.db.runs, run, w.now, sha);
    WrittenAgain(w.db.runs, StartedRows(w1.db.runs, run.id, sha, w.now), run, w.now, sha);
    assert run.id in Start(w1, repo, run, pr, a).w.db.runs
    by { OneMoreHas(w.db.runs, Start(w1, repo, run, pr, a).w.db.runs, run, w.now); }
  }

  lemma OneMoreHas(runs: Rows, runs2: Rows, run: Run, now: int)
    requires OneMoreRow(runs, runs2, run, now)
    ensures run.id in runs2
  {
  }

  lemma InsertedRow(w: World, run: Run)
    requires w.next !in w.db.runs && run.id == w.next && run.status.Queued?
    ensures OneMoreRow(w.db.runs, InsertRun(w, run).db.runs, run, w.now)
  {
  }

  /**
   A retry adds a run exactly when it is allowed to and all the pull request's runs, of which
   there must be one, are completed. The new run is the newest one again, and no other row changes.
   */
  lemma RetryRepeatsExactly(w: World, repo: int, user: int, pr: PullRequest, a: RetryAnswers, last: nat)
    requires Inv(w) && Newest(w.db.runs, repo, pr.number, last)
    ensures var o := Retry(w, repo, user, pr, a);
            if ConfigOf(w, repo).enabled && a.can == Some(true) && AllDone(w.db.runs, repo, pr.number)
            then Added(w, o) && SamePlan(o.w.db.runs[w.next], w.db.runs[last])
                 && o.w.db.runs[w.next].requestedBy == user
                 && (forall i :: i in w.db.runs ==> o.w.db.runs[i] == w.db.runs[i])
            else o.w.db.runs == w.db.runs
  {
    hide Inv, UpsertPr, UpsertRow, NewRow, AnnounceQueued, Start;
    NextIsNew(w);
    LatestIs(w, repo, pr.number, last);
    var run0 := w.db.runs[last];
    var dbPr := UpsertRow(w.db.prs, NewRow(pr, user, repo, w.now));
    var w1 := SetPrs(w, UpsertPr(w.db.prs, NewRow(pr, user, repo, w.now)));
    var run := NewRun(w1, repo, pr.number, run0.base, run0.head, run0.ciBranch, run0.priority, user, run0.dry,
                      run0.approvedBy);
    if run.dry {
      StartedRow(w1, repo, run, dbPr, a.start);
    } else {
      AnnounceWrites(InsertRun(w1, run), repo, run, dbPr, a.queued);
    }
  }

  /** The latest run is the one with the largest id, and it is completed exactly when all are. */
  lemma LatestIs(w: World, repo: int, pr: nat, last: nat)
    requires Inv(w) && Newest(w.db.runs, repo, pr, last)
    ensures Latest(w.db.runs, w.next, repo, pr) == Some(w.db.runs[last])
    ensures w.db.runs[last].completedAt.Some? <==> AllDone(w.db.runs, repo, pr)
  {
    assert w.db.runs[last].id == last < w.next;
  }

  /** Without a run there is nothing to retry. */
  lemma RetryOfNothing(w: World, repo: int, user: int, pr: PullRequest, a: RetryAnswers)
    requires Inv(w) && forall i :: i in w.db.runs ==> !OfPr(w.db.runs[i], repo, pr.number)
    ensures Retry(w, repo, user, pr, a).w.db.runs == w.db.runs
  {
    hide UpsertPr, UpsertRow, NewRow, AnnounceQueued, Start;
    LatestFacts(w, repo, pr.number);
  }

  // ---- cancel ----

  lemma CancelledIsSuperseded(w: World, repo: int, pr: nat, now: int)
    requires Inv(w)
    ensures var active := Active(w.db.runs, w.next, repo, pr);
            var runs2 := if active.Some? then CancelledRows(w.db.runs, active.value.id, now) else w.db.runs;
            Superseded(w.db.runs, runs2, repo, pr) && runs2.Keys == w.db.runs.Keys
  {
    hide Inv;
    ActiveFacts(w, repo, pr);
  }

  /** A cancel that is answered without an error cancels what is uncompleted, if it is allowed to, and nothing else. */
  lemma CancelSupersedes(w: World, repo: int, user: int, pr: PullRequest, a: CancelCommandAnswers)
    requires Inv(w) && Cancel(w, repo, user, pr, a).res.Ok?
    ensures var runs2 := Cancel(w, repo, user, pr, a).w.db.runs;
            && runs2.Keys == w.db.runs.Keys
            && if AllDone(w.db.runs, repo, pr.number) || a.can == Some(true)
               then Superseded(w.db.runs, runs2, repo, pr.number)
               else runs2 == w.db.runs
  {
    hide Inv, UpsertPr, UpsertRow, NewRow, CancelRun;
    var dbPr := UpsertRow(w.db.prs, NewRow(pr, user, repo, w.now));
    var w1 := SetPrs(w, UpsertPr(w.db.prs, NewRow(pr, user, repo, w.now)));
    ActiveFacts(w, repo, pr.number);
    CancelledIsSuperseded(w, repo, pr.number, w.now);
    hide CancelledRows, Superseded;
    var active := Active(w.db.runs, w.next, repo, pr.number);
    if active.Some? {
      CancelWrites(w1, repo, active.value, dbPr, a.cancel);
    }
  }

  // ---- try ----

  /** The command is allowed and the commits it names exist. */
  predicate TryResolved(w: World, repo: int, pr: PullRequest, args: TryArgs, a: TryAnswers) {
    && ConfigOf(w, repo).enabled && a.can == Some(true) && pr.mergedAt.None?
    && (args.base.Some? ==> a.base.CommitIs?) && (args.head.Some? ==> a.head.CommitIs?)
  }

  /** The run a try makes. */
  predicate TryOf(r: Run, w: World, repo: int, user: int, pr: PullRequest, base: Base, head: string) {
    && OfPr(r, repo, pr.number) && r.dry && r.requestedBy == user && r.approvedBy == [] && r.priority == 5
    && r.ciBranch == TryBranchOf(w, repo, pr.number) && r.base == base && r.head == head
  }

  lemma StartTryAdds(w: World, repo: int, user: int, pr: PullRequest, dbPr: PrRow, base: Base, head: string,
                     a: StartAnswers)
    requires w.next !in w.db.runs
    ensures var o := StartTry(w, repo, user, pr, dbPr, base, head, a);
            && Added(w, o) && TryOf(o.w.db.runs[w.next], w, repo, user, pr, base, head)
            && (forall i :: i in w.db.runs ==> o.w.db.runs[i] == w.db.runs[i])
  {
    hide Start, TryBranchOf;
    var run := NewRun(w, repo, pr.number, base, head, TryBranchOf(w, repo, pr.number), DEFAULT_PRIORITY, user, true,
                      []);
    StartedRow(w, repo, run, dbPr, a);
  }

  lemma AddedAfter(w: World, c: World, o: Out, repo: int, pr: nat)
    requires Superseded(w.db.runs, c.db.runs, repo, pr) && c.db.runs.Keys == w.db.runs.Keys
    requires c.next == w.next && c.now == w.now
    requires Added(c, o) && forall i :: i in c.db.runs ==> o.w.db.runs[i] == c.db.runs[i]
    ensures Added(w, o) && Superseded(w.db.runs, o.w.db.runs, repo, pr)
  {
  }

  /** From the upsert on. */
  lemma TryAtSupersedes(w: World, repo: int, user: int, pr: PullRequest, base: Base, head: string, a: TryAnswers)
    requires Inv(w)
    ensures var o := TryAt(w, repo, user, pr, base, head, a);
            o.res.Ok? ==>
              if MergeGoingOn(w.db.runs, repo, pr.number) then o.w.db.runs == w.db.runs
              else Added(w, o) && Superseded(w.db.runs, o.w.db.runs, repo, pr.number)
                   && TryOf(o.w.db.runs[w.next], w, repo, user, pr, base, head)
  {
    hide Inv, UpsertPr, UpsertRow, NewRow, CancelRun, StartTry, Added, Superseded, TryOf, CancelledRows;
    NextIsNew(w);
    var dbPr := UpsertRow(w.db.prs, NewRow(pr, user, repo, w.now));
    var w1 := SetPrs(w, UpsertPr(w.db.prs, NewRow(pr, user, repo, w.now)));
    ActiveFacts(w, repo, pr.number);
    CancelledIsSuperseded(w, repo, pr.number, w.now);
    var active := Active(w.db.runs, w.next, repo, pr.number);
    if TryAt(w, repo, user, pr, base, head, a).res.Ok? && (active.None? || active.value.dry) {
      var c := w1;
      if active.Some? {
        c := CancelRun(w1, repo, active.value, dbPr, a.cancel).w;
        CancelWrites(w1, repo, active.value, dbPr, a.cancel);
      }
      StartTryAdds(c, repo, user, pr, dbPr, base, head, a.start);
      SameTry(w, c, repo, user, pr, base, head);
      AddedAfter(w, c, TryAt(w, repo, user, pr, base, head, a), repo, pr.number);
    }
  }

  lemma SameTry(w: World, c: World, repo: int, user: int, pr: PullRequest, base: Base, head: string)
    requires c.conf == w.conf
    ensures forall r :: TryOf(r, c, repo, user, pr, base, head) <==> TryOf(r, w, repo, user, pr, base, head)
  {
    BranchesStay(w, c, repo, pr);
  }

  /**
   A try that is answered without an error: if it is allowed, its commits exist and no merge of
   the pull request is going on, it cancels the try that was going on, if any, and leaves a new
   one that was started or failed; otherwise no row changes. Rows of other pull requests, and
   completed rows, never change.
   */
  lemma TrySupersedes(w: World, repo: int, user: int, pr: PullRequest, args: TryArgs, a: TryAnswers)
    requires Inv(w) && Try(w, repo, user, pr, args, a).res.Ok?
    ensures var o := Try(w, repo, user, pr, args, a);
            if TryResolved(w, repo, pr, args, a) && !MergeGoingOn(w.db.runs, repo, pr.number)
            then Added(w, o) && Superseded(w.db.runs, o.w.db.runs, repo, pr.number)
                 && TryOf(o.w.db.runs[w.next], w, repo, user, pr,
                          if args.base.Some? then Commit(a.base.sha) else Branch(pr.baseRef),
                          if args.head.Some? then a.head.sha else pr.headSha)
            else o.w.db.runs == w.db.runs
  {
    hide Inv, TryAt, Added, Superseded, TryOf;
    if TryResolved(w, repo, pr, args, a) {
      TryAtSupersedes(w, repo, user, pr,
                      if args.base.Some? then Commit(a.base.sha) else Branch(pr.baseRef),
                      if args.head.Some? then a.head.sha else pr.headSha, a);
    }
  }

  // ---- The labels of a try that supersedes a try ----

  function TryLabels(w: World, repo: int): seq<string> {
    Desired(InProgress, true, ConfigOf(w, repo).labels)
  }

  /** GitHub and the database do all that a cancellation asks. */
  predicate CancelGoesThrough(a: CancelAnswers) {
    a.stored && a.workflows.Some? && a.delete && a.labels == LabelAnswers({}, true)
  }

  /** The cancellation takes the try's labels off the pull request and the record. */
  lemma CancelTakesLabelsOff(w: World, repo: int, run: Run, pr: PrRow, a: CancelAnswers)
    requires Reaches(w.db.runs, run.id, NotDone) && run.dry && run.sha.Some? && CancelGoesThrough(a)
    requires var key := (repo, pr.number);
             pr.repo == repo && key in w.db.prs && w.db.prs[key] == pr && Elements(pr.addedLabels) <= LabelsOn(w, key)
    ensures var o := CancelRun(w, repo, run, pr, a);
            var key := (repo, pr.number);
            && o.res.Ok? && o.w.conf == w.conf
            && key in o.w.db.prs && o.w.db.prs[key].addedLabels == []
            && LabelsOn(o.w, key) == LabelsOn(w, key) - Elements(pr.addedLabels)
  {
    hide StopAll, ConfigOf, Update;
    var w1 := SetRuns(w, Update(w.db.runs, run.id, NotDone, Finish(Cancelled, w.now)));
    StopAllIsQuiet(w1, repo, run.sha.value, a.workflows.value);
    Effects.StopAllKeepsLabels(w1, repo, run.sha.value, a.workflows.value);
    assert Desired(Cancelled, true, ConfigOf(w, repo).labels) == [];
    assert Elements([]) == {};
    NoElements(pr.addedLabels);
  }

  /** A try that is given a row that already names its labels leaves record and labels alone. */
  lemma StartLeavesLabels(w: World, repo: int, run: Run, pr: PrRow, a: StartAnswers)
    requires run.dry && pr.addedLabels == TryLabels(w, repo) && StartGoesThrough(run.base, a)
    ensures var o := Start(w, repo, run, pr, a);
            o.res.Ok? && o.w.db.prs == w.db.prs && o.w.hub.labels == w.hub.labels
            && o.w.db.runs == StartedRows(w.db.runs, run.id, a.merge.sha, w.now)
  {
    hide Fail, Desired;
    assert Elements(pr.addedLabels) - Elements(pr.addedLabels) == {};
  }

  predicate StartGoesThrough(base: Base, a: StartAnswers) {
    (base.Commit? || a.base.BranchAt?) && a.users && a.merge.MergedAs? && a.stored && a.push && a.message
  }

  /**
   A try that supersedes a try, with nothing refused: the one row read at the beginning is given
   to the cancellation, which takes the in-progress labels off, and to the start, which finds
   them named in it and puts none of them back. The new try is in progress without its labels.
   */
  lemma SupersedingTryLosesLabels(w: World, repo: int, user: int, pr: PullRequest, base: Base, head: string,
                                  a: TryAnswers)
    requires Inv(w) && CancelGoesThrough(a.cancel) && StartGoesThrough(base, a.start)
    requires var active := Active(w.db.runs, w.next, repo, pr.number);
             active.Some? && active.value.dry && active.value.status.InProgress?
    requires var key := (repo, pr.number);
             && key in w.db.prs && w.db.prs[key].repo == repo && w.db.prs[key].number == pr.number
             && w.db.prs[key].addedLabels == TryLabels(w, repo) && Elements(TryLabels(w, repo)) <= LabelsOn(w, key)
    ensures var o := TryAt(w, repo, user, pr, base, head, a);
            var key := (repo, pr.number);
            && o.res.Ok? && w.next in o.w.db.runs && o.w.db.runs[w.next].status.InProgress? && o.w.db.runs[w.next].dry
            && key in o.w.db.prs && o.w.db.prs[key].addedLabels == []
            && LabelsOn(o.w, key) == LabelsOn(w, key) - Elements(TryLabels(w, repo))
  {
    hide Inv, CancelRun, Start, NewRow, TryBranchOf, Desired, CancelGoesThrough, StartGoesThrough, CancelledRows;
    NextIsNew(w);
    var row := NewRow(pr, user, repo, w.now);
    var dbPr := UpsertRow(w.db.prs, row);
    var w1 := SetPrs(w, UpsertPr(w.db.prs, row));
    UpsertKeeps(w, pr, user, repo);
    hide UpsertRow, UpsertPr;
    ActiveFacts(w, repo, pr.number);
    var v := Active(w.db.runs, w.next, repo, pr.number).value;
    RowIsCoherent(w, v);
    CancelTakesLabelsOff(w1, repo, v, dbPr, a.cancel);
    CancelWrites(w1, repo, v, dbPr, a.cancel);
    var c := CancelRun(w1, repo, v, dbPr, a.cancel).w;
    assert w.next !in c.db.runs by { UpdatedKeys(w.db.runs, v.id, w.now); }
    var run := NewRun(c, repo, pr.number, base, head, TryBranchOf(c, repo, pr.number), DEFAULT_PRIORITY, user, true,
                      []);
    StartLeavesLabels(InsertRun(c, run), repo, run, dbPr, a.start);
  }

  lemma UpdatedKeys(runs: Rows, id: nat, now: int)
    ensures CancelledRows(runs, id, now).Keys == runs.Keys
  {
  }

  /** What an upsert keeps of a row that exists. */
  lemma UpsertKeeps(w: World, pr: PullRequest, user: int, repo: int)
    requires (repo, pr.number) in w.db.prs
    requires w.db.prs[(repo, pr.number)].repo == repo && w.db.prs[(repo, pr.number)].number == pr.number
    ensures var key := (repo, pr.number);
            var row := NewRow(pr, user, repo, w.now);
            var dbPr := UpsertRow(w.db.prs, row);
            && dbPr.repo == repo && dbPr.number == pr.number && dbPr.addedLabels == w.db.prs[key].addedLabels
            && UpsertPr(w.db.prs, row) == w.db.prs[key := dbPr]
  {
  }
}
