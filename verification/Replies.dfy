/** What every command and webhook answers and says, for every answer of GitHub and the database. */
module Replies {
  import opened Basics
  import opened CiRuns
  import opened Checks
  import opened PrRows
  import opened Store
  import opened Workflow
  import opened Handlers
  import opened Invariants
  import opened WorkflowProofs
  import opened HandlerProofs
  import opened Commands
  import opened Safety
  import opened Effects
  import Approvers

  /** What a handler adds to the requests, and whether it answers without an error. */
  predicate Replies(w: World, o: Out, asked: seq<Request>, ok: bool) {
    o.w.hub.requests == w.hub.requests + asked && (o.res.Ok? <==> ok)
  }

  function Said(repo: int, pr: PullRequest, note: Option<Note>): seq<Request> {
    if note.Some? then [Comment(repo, pr.number, note.value)] else []
  }

  // ---- try ----

  /** The user may try, and the pull request is open. */
  predicate TryAllowed(w: World, repo: int, pr: PullRequest, a: TryAnswers) {
    ConfigOf(w, repo).enabled && a.can == Some(true) && pr.mergedAt.None?
  }

  /** Why a try is refused, if the user is told. */
  function TryRefusal(w: World, repo: int, pr: PullRequest, args: TryArgs, a: TryAnswers): Option<Note> {
    if ConfigOf(w, repo).enabled && a.can == Some(true) && pr.mergedAt.Some? then Some(AlreadyMerged)
    else if !TryAllowed(w, repo, pr, a) then None
    else if args.base.Some? && a.base.NoCommit? then Some(BaseNotFound)
    else if (args.base.Some? ==> a.base.CommitIs?) && args.head.Some? && a.head.NoCommit? then Some(HeadNotFound)
    else None
  }

  /** A question to GitHub that failed. */
  predicate TryUnanswered(w: World, repo: int, pr: PullRequest, args: TryArgs, a: TryAnswers) {
    || (ConfigOf(w, repo).enabled && a.can.None?)
    || (TryAllowed(w, repo, pr, a) && args.base.Some? && a.base.CommitErr?)
    || (TryAllowed(w, repo, pr, a) && (args.base.Some? ==> a.base.CommitIs?) && args.head.Some? && a.head.CommitErr?)
  }

  /** A try that does not get as far as the pull request's row changes no table and says why, if anything. */
  lemma RefusedTryReplies(w: World, repo: int, user: int, pr: PullRequest, args: TryArgs, a: TryAnswers)
    requires !TryResolved(w, repo, pr, args, a)
    ensures var o := Try(w, repo, user, pr, args, a);
            var note := TryRefusal(w, repo, pr, args, a);
            && o.w.db == w.db
            && Replies(w, o, Said(repo, pr, note), !TryUnanswered(w, repo, pr, args, a) && (note.Some? ==> a.message))
  {
    hide TryAt;
  }

  lemma ResolvedTry(w: World, repo: int, user: int, pr: PullRequest, args: TryArgs, a: TryAnswers)
    requires TryResolved(w, repo, pr, args, a)
    ensures Try(w, repo, user, pr, args, a)
         == TryAt(w, repo, user, pr,
                  if args.base.Some? then Commit(a.base.sha) else Branch(pr.baseRef),
                  if args.head.Some? then a.head.sha else pr.headSha, a)
  {
    hide TryAt;
  }

  /** The pull request row a command works with. */
  function RowFor(w: World, pr: PullRequest, user: int, repo: int): PrRow {
    UpsertRow(w.db.prs, NewRow(pr, user, repo, w.now))
  }

  /** A start ends well: it goes through, or its failure does. */
  ghost predicate StartEnds(w: World, repo: int, run: Run, pr: PrRow, a: StartAnswers) {
    || StartGoes(w, repo, run, pr, a)
    || (StartFailure(run, a).Some? && a.fail.stored && a.fail.message && a.fail.delete
        && LabelsGo(w, repo, pr, Failure, run.dry, a.fail.labels))
  }

  /** The run a try makes. */
  function TryRun(w: World, repo: int, user: int, pr: PullRequest, base: Base, head: string): Run {
    Run(w.next, repo, pr.number, Queued, base, head, None, TryBranchOf(w, repo, pr.number), 5, user, true, [], None,
        None)
  }

  lemma NewStartReplies(w: World, repo: int, run: Run, pr: PrRow, a: StartAnswers)
    requires run.id in w.db.runs
    ensures Replies(w, Start(w, repo, run, pr, a), StartAsked(true, repo, run, pr, a), StartEnds(w, repo, run, pr, a))
  {
    hide Start, LabelsGo;
    StartExactly(w, repo, run, pr, a);
  }

  /** What cancelling the active run, if there is one, asks, and whether it goes through. */
  function OldAsked(w: World, repo: int, pr: nat, a: CancelAnswers): seq<Request> {
    var active := Active(w.db.runs, w.next, repo, pr);
    if active.Some? && a.stored then CancelAsked(repo, active.value, a) else []
  }

  ghost predicate OldGoes(w: World, repo: int, pr: nat, row: PrRow, a: CancelAnswers) {
    var active := Active(w.db.runs, w.next, repo, pr);
    active.Some? ==> CancelGoes(w, repo, active.value, row, a)
  }

  /** Cancelling the active run after the pull request row was written. */
  lemma ActiveCancelReplies(w: World, w1: World, repo: int, pr: nat, row: PrRow, a: CancelAnswers)
    requires Inv(w) && Active(w.db.runs, w.next, repo, pr).Some?
    requires w1.db.runs == w.db.runs && w1.conf == w.conf && w1.hub == w.hub
    ensures var run := Active(w.db.runs, w.next, repo, pr).value;
            Replies(w, CancelRun(w1, repo, run, row, a), OldAsked(w, repo, pr, a), OldGoes(w, repo, pr, row, a))
  {
    hide CancelRun, LabelsGo, Inv;
    ActiveFacts(w, repo, pr);
    var run := Active(w.db.runs, w.next, repo, pr).value;
    CancelExactly(w1, repo, run, row, a);
    SameGoes(w, w1, repo, row, Cancelled, run.dry, a.labels);
  }

  lemma StartTryReplies(w: World, c: World, repo: int, user: int, pr: PullRequest, row: PrRow, base: Base, head: string,
                        a: StartAnswers)
    requires c.conf == w.conf && c.next == w.next
    ensures var run := TryRun(w, repo, user, pr, base, head);
            Replies(c, StartTry(c, repo, user, pr, row, base, head, a), StartAsked(true, repo, run, row, a),
                    StartEnds(w, repo, run, row, a))
  {
    hide Start, TryBranchOf, StartAsked, StartEnds;
    BranchesStay(w, c, repo, pr);
    var run := TryRun(c, repo, user, pr, base, head);
    NewStartReplies(InsertRun(c, run), repo, run, row, a);
    SameEnds(w, InsertRun(c, run), repo, run, row, a);
  }

  /**
   A try that gets that far: refused if a merge is active; otherwise it ends well exactly when the
   cancellation of the active try goes through and the start ends well, and it asks what they ask.
   */
  lemma TryAtReplies(w: World, repo: int, user: int, pr: PullRequest, base: Base, head: string, a: TryAnswers)
    requires Inv(w)
    ensures var o := TryAt(w, repo, user, pr, base, head, a);
            var row := RowFor(w, pr, user, repo);
            var run := TryRun(w, repo, user, pr, base, head);
            var goes := OldGoes(w, repo, pr.number, row, a.cancel);
            if MergeGoingOn(w.db.runs, repo, pr.number)
            then Replies(w, o, [Comment(repo, pr.number, ActiveMerge)], a.message)
            else Replies(w, o,
                         OldAsked(w, repo, pr.number, a.cancel)
                         + if goes then StartAsked(true, repo, run, row, a.start) else [],
                         goes && StartEnds(w, repo, run, row, a.start))
  {
    hide Inv, CancelRun, StartTry, NewRow, UpsertRow, UpsertPr, TryRun, StartAsked, StartEnds, OldAsked, OldGoes;
    var row := RowFor(w, pr, user, repo);
    var w1 := SetPrs(w, UpsertPr(w.db.prs, NewRow(pr, user, repo, w.now)));
    ActiveFacts(w, repo, pr.number);
    var active := Active(w.db.runs, w.next, repo, pr.number);
    if active.None? {
      NothingToCancel(w, repo, pr.number, row, a.cancel);
      StartTryReplies(w, w1, repo, user, pr, row, base, head, a.start);
    } else if active.value.dry {
      ActiveCancelReplies(w, w1, repo, pr.number, row, a.cancel);
      CancelWrites(w1, repo, active.value, row, a.cancel);
      StartTryReplies(w, CancelRun(w1, repo, active.value, row, a.cancel).w, repo, user, pr, row, base, head, a.start);
    }
  }

  lemma NothingToCancel(w: World, repo: int, pr: nat, row: PrRow, a: CancelAnswers)
    requires Active(w.db.runs, w.next, repo, pr).None?
    ensures OldAsked(w, repo, pr, a) == [] && OldGoes(w, repo, pr, row, a)
  {
  }

  lemma SameEnds(w: World, v: World, repo: int, run: Run, pr: PrRow, a: StartAnswers)
    requires v.conf == w.conf
    ensures StartEnds(v, repo, run, pr, a) <==> StartEnds(w, repo, run, pr, a)
  {
    hide LabelsGo;
    SameGoes(w, v, repo, pr, InProgress, run.dry, a.labels);
    SameGoes(w, v, repo, pr, Failure, run.dry, a.fail.labels);
  }

  // ---- merge ----

  lemma MergeReplies(w: World, repo: int, user: int, pr: PullRequest, priority: Option<int>, a: MergeAnswers)
    requires Inv(w)
    ensures var o := Merge(w, repo, user, pr, priority, a);
            var open := ConfigOf(w, repo).enabled && pr.mergedAt.None?;
            var allowed := open && a.can == Some(true);
            var idle := AllDone(w.db.runs, repo, pr.number);
            var known := ApproversKnown(a, AuthorOf(pr, user), pr.requestedReviewers);
            var row := UpsertRow(w.db.prs, NewRow(pr, user, repo, w.now).(defaultPriority := priority));
            Replies(w, o,
                    if allowed && !idle then [Comment(repo, pr.number, RunPending)]
                    else if allowed && known && a.queued.users then [Comment(repo, pr.number, CommitApproved)] else [],
                    || !open || a.can == Some(false)
                    || (allowed && !idle && a.message)
                    || (allowed && idle && known && a.queued.users && a.queued.message
                        && LabelsGo(w, repo, row, Queued, false, a.queued.labels)))
  {
    hide Inv, UpsertPr, UpsertRow, AnnounceQueued, Approvers.Compute, MergeBranchOf, ApproversKnown, LabelsGo;
    ActiveFacts(w, repo, pr.number);
    ApproversOfMerge(a, AuthorOf(pr, user), pr.requestedReviewers);
    var row := NewRow(pr, user, repo, w.now).(defaultPriority := priority);
    if a.reviews.Some? {
      var approvers := Approvers.Compute(a.reviews.value, row.authorId, pr.requestedReviewers,
                                         PermissionIn(a.reviewers));
      if approvers.Some? {
        var dbPr := UpsertRow(w.db.prs, row);
        var w1 := SetPrs(w, UpsertPr(w.db.prs, row));
        var given := if priority.Some? then priority else dbPr.defaultPriority;
        var run := NewRun(w1, repo, pr.number, Branch(pr.baseRef), pr.headSha, MergeBranchOf(w1, repo, pr.baseRef),
                          if given.Some? then given.value else DEFAULT_PRIORITY, user, false, approvers.value);
        AnnounceExactly(InsertRun(w1, run), repo, run, dbPr, a.queued);
        SameGoes(w, InsertRun(w1, run), repo, dbPr, Queued, false, a.queued.labels);
      }
    }
  }

  // ---- retry ----

  /** The run a retry makes of the newest one. */
  function RetryRun(w: World, user: int, last: Run): Run {
    Run(w.next, last.repo, last.pr, Queued, last.base, last.head, None, last.ciBranch, last.priority, user, last.dry,
        last.approvedBy, None, None)
  }

  lemma RetryReplies(w: World, repo: int, user: int, pr: PullRequest, a: RetryAnswers, last: nat)
    requires Inv(w) && Newest(w.db.runs, repo, pr.number, last)
    ensures var o := Retry(w, repo, user, pr, a);
            var on := ConfigOf(w, repo).enabled;
            var idle := AllDone(w.db.runs, repo, pr.number);
            var row := RowFor(w, pr, user, repo);
            var run := RetryRun(w, user, w.db.runs[last]);
            Replies(w, o,
                    if on && !idle then [Comment(repo, pr.number, NotCompleted)]
                    else if on && a.can == Some(true) && run.dry then StartAsked(true, repo, run, row, a.start)
                    else if on && a.can == Some(true) && a.queued.users then [Comment(repo, pr.number, CommitApproved)]
                    else [],
                    || !on || (!idle && a.message) || (idle && a.can == Some(false))
                    || (idle && a.can == Some(true)
                        && if run.dry then StartEnds(w, repo, run, row, a.start)
                           else AnnounceGoes(w, repo, run, row, a.queued)))
  {
    hide Inv, UpsertPr, UpsertRow, NewRow, AnnounceQueued, Start, StartAsked, StartEnds, LabelsGo, Latest;
    LatestIs(w, repo, pr.number, last);
    var row := RowFor(w, pr, user, repo);
    var w1 := SetPrs(w, UpsertPr(w.db.prs, NewRow(pr, user, repo, w.now)));
    var run := RetryRun(w1, user, w.db.runs[last]);
    var w2 := InsertRun(w1, run);
    if run.dry {
      NewStartReplies(w2, repo, run, row, a.start);
      SameEnds(w, w2, repo, run, row, a.start);
    } else {
      AnnounceExactly(w2, repo, run, row, a.queued);
      SameGoes(w, w2, repo, row, Queued, false, a.queued.labels);
    }
  }

  lemma RetryOfNothingReplies(w: World, repo: int, user: int, pr: PullRequest, a: RetryAnswers)
    requires Inv(w) && forall i :: i in w.db.runs ==> !OfPr(w.db.runs[i], repo, pr.number)
    ensures var on := ConfigOf(w, repo).enabled;
            Replies(w, Retry(w, repo, user, pr, a), if on then [Comment(repo, pr.number, NeverRun)] else [],
                    on ==> a.message)
  {
    hide UpsertPr, UpsertRow, NewRow, AnnounceQueued, Start;
    LatestFacts(w, repo, pr.number);
  }

  // ---- cancel ----

  lemma CancelReplies(w: World, repo: int, user: int, pr: PullRequest, a: CancelCommandAnswers)
    requires Inv(w)
    ensures var o := Cancel(w, repo, user, pr, a);
            var row := RowFor(w, pr, user, repo);
            var idle := AllDone(w.db.runs, repo, pr.number);
            var cancels := !idle && a.can == Some(true);
            var goes := OldGoes(w, repo, pr.number, row, a.cancel);
            Replies(w, o,
                    if cancels && goes
                    then OldAsked(w, repo, pr.number, a.cancel) + [Comment(repo, pr.number, RunCancelled)]
                    else if cancels then OldAsked(w, repo, pr.number, a.cancel) else [],
                    idle || a.can == Some(false) || (cancels && goes && a.message))
  {
    hide Inv, CancelRun, NewRow, UpsertRow, UpsertPr, OldAsked, OldGoes;
    var row := RowFor(w, pr, user, repo);
    var w1 := SetPrs(w, UpsertPr(w.db.prs, NewRow(pr, user, repo, w.now)));
    ActiveFacts(w, repo, pr.number);
    if Active(w.db.runs, w.next, repo, pr.number).Some? {
      ActiveCancelReplies(w, w1, repo, pr.number, row, a.cancel);
    }
  }

  // ---- webhooks ----

  /** The pull request is known, reported differently from what is stored, and has an active merge. */
  ghost predicate LosesMerge(w: World, repo: int, pr: PullRequest) {
    && (repo, pr.number) in w.db.prs && !Shows(w.db.prs[(repo, pr.number)], pr)
    && MergeGoingOn(w.db.runs, repo, pr.number)
  }

  lemma PrChangeReplies(w: World, repo: int, user: int, pr: PullRequest, a: PrAnswers)
    requires Inv(w)
    ensures var o := PrChange(w, repo, user, pr, a);
            var loses := LosesMerge(w, repo, pr);
            if loses then
              var row := InMemory(UpdateFrom(w.db.prs[(repo, pr.number)], pr, w.now), w.db.prs[(repo, pr.number)]);
              var goes := OldGoes(w, repo, pr.number, row, a.cancel);
              Replies(w, o,
                      OldAsked(w, repo, pr.number, a.cancel)
                      + if goes then [Comment(repo, pr.number, PrChanged)] else [],
                      goes && a.message)
            else Replies(w, o, [], true)
  {
    hide Inv, CancelRun, NewRow, UpdateFrom, InMemory, Stored, NeedsUpdate, Shows, OldAsked, OldGoes;
    var key := (repo, pr.number);
    ActiveFacts(w, repo, pr.number);
    if key in w.db.prs {
      DiffIsEmptyExactly(w.db.prs[key], pr, w.now);
      var update := UpdateFrom(w.db.prs[key], pr, w.now);
      var current := InMemory(update, w.db.prs[key]);
      var w1 := SetPrs(w, w.db.prs[key := Stored(update, w.db.prs[key])]);
      if Active(w.db.runs, w.next, repo, pr.number).Some? {
        ActiveCancelReplies(w, w1, repo, pr.number, current, a.cancel);
      }
    }
  }

  /** The check webhook fails only if the pull request is missing or the refresh fails. */
  lemma CheckReplies(w: World, repo: int, c: CheckReport, a: RefreshAnswers, i: nat)
    requires Inv(w) && i in w.db.runs && w.db.runs[i].sha == Some(c.headSha)
    ensures var o := CheckRun(w, repo, c, a);
            var run := w.db.runs[i];
            if run.completedAt.Some? then o == Out(w, Ok(true))
            else if (run.repo, run.pr) !in w.db.prs then o == Out(w, Err)
            else
              var w1 := StoreCheck(w, repo, c, run);
              o == if IsRequired(ConfigOf(w, repo).required, c.name)
                   then Refresh(w1, repo, run, w.db.prs[(run.repo, run.pr)], a) else Out(w1, Ok(true))
  {
    hide Refresh, BySha;
    FoundCommit(w, c.headSha);
  }

  /** A check of a commit that is no run's is passed over. */
  lemma StrangeCheckReplies(w: World, repo: int, c: CheckReport, a: RefreshAnswers)
    requires Inv(w) && forall i :: i in w.db.runs ==> w.db.runs[i].sha != Some(c.headSha)
    ensures CheckRun(w, repo, c, a) == Out(w, Ok(true))
  {
    hide Refresh, BySha;
    FoundCommit(w, c.headSha);
  }

  // ---- Repositories that are not set up ----

  /** Without a configuration a repository's try, merge and retry commands do nothing. */
  lemma UnconfiguredIsOff(w: World, repo: int, user: int, pr: PullRequest, args: TryArgs, t: TryAnswers,
                          priority: Option<int>, m: MergeAnswers, r: RetryAnswers)
    requires repo !in w.conf
    ensures Try(w, repo, user, pr, args, t) == Out(w, Ok(true))
    ensures Merge(w, repo, user, pr, priority, m) == Out(w, Ok(true))
    ensures Retry(w, repo, user, pr, r) == Out(w, Ok(true))
  {
  }
}
