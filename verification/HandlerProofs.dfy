/** What every webhook transaction keeps and what it cannot do to the runs it finds. */
module HandlerProofs {
  import opened Basics
  import opened CiRuns
  import opened Checks
  import opened PrRows
  import opened Store
  import opened Workflow
  import opened Handlers
  import opened Invariants
  import opened WorkflowProofs
  import Approvers
  import BranchNames

  /** One row over a transaction: a completed row is untouched, a queued one can only be cancelled. */
  predicate GentleRow(a: Run, b: Run) {
    && Evolves(a, b)
    && (a.completedAt.Some? ==> b == a)
    && (a.status.Queued? ==> b.status.Queued? || b.status.Cancelled?)
    && (b.status.InProgress? ==> a.status.InProgress?)
  }

  ghost predicate GentleRows(a: Rows, b: Rows) {
    forall i :: i in a ==> i in b && GentleRow(a[i], b[i])
  }

  /** Rows a transaction adds come after all others, and are in progress only if they are tries. */
  ghost predicate NewRows(a: Rows, b: Rows, next: nat) {
    forall i :: i in b && i !in a ==> i >= next && (b[i].status.InProgress? ==> b[i].dry)
  }

  /** A new run's pull request is stored. */
  ghost predicate NewRunsStored(w: World, w2: World) {
    forall i :: i in w2.db.runs && i !in w.db.runs ==> (w2.db.runs[i].repo, w2.db.runs[i].pr) in w2.db.prs
  }

  ghost predicate MintGrows(a: Hub, b: Hub) {
    forall s :: s in a.minted ==> s in b.minted && b.minted[s] == a.minted[s]
  }

  /** What a transaction can do to the tables and the log, whatever it is asked and answered. */
  ghost predicate Gentle(w: World, w2: World) {
    && w2.conf == w.conf && w2.now == w.now && w2.next >= w.next
    && w2.hub.heads == w.hub.heads && w2.hub.reports == w.hub.reports
    && MintGrows(w.hub, w2.hub)
    && w.db.prs.Keys <= w2.db.prs.Keys && NewRunsStored(w, w2)
    && GentleRows(w.db.runs, w2.db.runs) && NewRows(w.db.runs, w2.db.runs, w.next)
  }

  /** A new try is off the queue by the time its transaction can commit. */
  ghost predicate NewTriesRun(a: Rows, b: Rows) {
    forall i :: i in b && i !in a && b[i].dry ==> !b[i].status.Queued?
  }

  /** All that is shown of a handler that pushes nothing. */
  ghost predicate Good(w: World, o: Out) {
    && Inv(o.w) && Gentle(w, o.w) && o.w.hub.pushes == w.hub.pushes && o.w.db.checks == w.db.checks
    && (o.res.Ok? ==> NewTriesRun(w.db.runs, o.w.db.runs))
  }

  lemma QuietIsGood(w: World, o: Out)
    requires Inv(w) && Quiet(w, o.w) && o.w.db.runs == w.db.runs
    ensures Good(w, o)
  {
    hide Inv;
    SameRunsKeepInv(w, o.w);
  }

  // ---- Queries ----

  /** The active run is the only uncompleted run of its pull request. */
  lemma ActiveFacts(w: World, repo: int, pr: nat)
    requires Inv(w)
    ensures var r := Active(w.db.runs, w.next, repo, pr);
            && (r.None? ==>
                  forall i :: i in w.db.runs && w.db.runs[i].repo == repo && w.db.runs[i].pr == pr
                    ==> w.db.runs[i].completedAt.Some?)
            && (r.Some? ==> r.value.id in w.db.runs && w.db.runs[r.value.id] == r.value
                            && r.value.repo == repo && r.value.pr == pr && r.value.completedAt.None?)
            && (r.Some? ==>
                  forall i :: i in w.db.runs && w.db.runs[i].repo == repo && w.db.runs[i].pr == pr && i != r.value.id
                    ==> w.db.runs[i].completedAt.Some?)
  {
  }

  /** If the latest run of a pull request is completed, all its runs are. */
  lemma LatestFacts(w: World, repo: int, pr: nat)
    requires Inv(w)
    ensures var r := Latest(w.db.runs, w.next, repo, pr);
            && (r.Some? ==> r.value.id in w.db.runs && w.db.runs[r.value.id] == r.value
                            && r.value.repo == repo && r.value.pr == pr)
            && (r.Some? && r.value.completedAt.Some? ==>
                  forall i :: i in w.db.runs && w.db.runs[i].repo == repo && w.db.runs[i].pr == pr
                    ==> w.db.runs[i].completedAt.Some?)
  {
  }

  lemma ByShaFacts(w: World, sha: string)
    requires Inv(w)
    ensures var r := BySha(w.db.runs, w.next, sha);
            r.Some? ==> r.value.id in w.db.runs && w.db.runs[r.value.id] == r.value && r.value.sha == Some(sha)
  {
  }

  // ---- Pieces ----

  lemma CancelIsGood(w: World, repo: int, run: Run, pr: PrRow, a: CancelAnswers)
    requires Inv(w) && run.id in w.db.runs
    ensures var o := CancelRun(w, repo, run, pr, a);
            && Good(w, o) && o.w.next == w.next && o.w.hub.minted == w.hub.minted
            && o.w.db.runs.Keys == w.db.runs.Keys
            && (forall i :: i in w.db.runs && i != run.id ==> o.w.db.runs[i] == w.db.runs[i])
            && (o.res.Ok? ==> o.w.db.runs[run.id].completedAt.Some?)
  {
    hide CancelRun, Inv;
    CancelWrites(w, repo, run, pr, a);
    CancelKeepsInv(w, repo, run, pr, a);
  }

  /** A queued row that may be inserted next. */
  ghost predicate Fresh(w: World, run: Run) {
    && (run.repo, run.pr) in w.db.prs
    && run.id == w.next && run.status.Queued? && run.sha.None? && run.startedAt.None? && run.completedAt.None?
    && Named(run, w.conf)
    && forall i :: i in w.db.runs && SamePr(w.db.runs[i], run) ==> w.db.runs[i].completedAt.Some?
  }

  lemma InsertKeepsInv(w: World, run: Run)
    requires Inv(w) && Fresh(w, run)
    ensures Inv(InsertRun(w, run))
  {
    InsertKeepsRuns(w.db.runs, w.next, w.hub.minted, w.conf, run);
    InsertKeepsLog(w.db.runs, w.next, w.db.checks, w.hub, w.conf, run);
  }

  /** A new try meets nobody in progress in its group. */
  lemma GroupIsFree(w: World, run: Run)
    requires Inv(w) && Fresh(w, run) && run.dry
    ensures var runs := InsertRun(w, run).db.runs;
            forall i :: i in runs && SameGroup(runs[i], run) ==> !runs[i].status.InProgress?
  {
    var w1 := InsertRun(w, run);
    forall i | i in w1.db.runs && SameGroup(w1.db.runs[i], run)
      ensures !w1.db.runs[i].status.InProgress?
    {
      if i != run.id {
        TryGroup(run, w1.db.runs[i], w.conf);
        assert w.db.runs[i].completedAt.Some? && Coherent(w.db.runs[i]);
      }
    }
  }

  lemma NextIsNew(w: World)
    requires Inv(w)
    ensures w.next !in w.db.runs
  {
  }

  /** A new try is inserted and started. */
  lemma InsertAndStart(w: World, repo: int, run: Run, pr: PrRow, a: StartAnswers)
    requires Inv(w) && Fresh(w, run) && run.dry && run.repo == repo
    requires a.merge.MergedAs? ==> a.merge.sha !in w.hub.minted
    ensures Good(w, Start(InsertRun(w, run), repo, run, pr, a))
  {
    hide Start, Inv;
    var w1 := InsertRun(w, run);
    var o := Start(w1, repo, run, pr, a);
    NextIsNew(w);
    InsertKeepsInv(w, run);
    GroupIsFree(w, run);
    StartKeepsInv(w1, repo, run, pr, a);
    StartWrites(w1, repo, run, pr, a);
    StartTakesOffQueue(w1, repo, run, pr, a);
    OnlyNewRow(w, o.w, run);
  }

  /** Rows there were before are untouched; the new row is a try or queued. */
  lemma OnlyNewRow(w: World, w2: World, run: Run)
    requires w.next !in w.db.runs && run.id == w.next && w2.next == w.next + 1
    requires w2.db.runs.Keys == w.db.runs.Keys + {run.id}
    requires forall i :: i in w.db.runs ==> w2.db.runs[i] == w.db.runs[i]
    requires w2.db.runs[run.id].dry || w2.db.runs[run.id].status.Queued?
    requires (w2.db.runs[run.id].repo, w2.db.runs[run.id].pr) in w2.db.prs
    ensures NewRunsStored(w, w2)
    ensures GentleRows(w.db.runs, w2.db.runs) && NewRows(w.db.runs, w2.db.runs, w.next)
  {
  }

  /** A new merge is inserted and announced. */
  lemma InsertAndAnnounce(w: World, repo: int, run: Run, pr: PrRow, a: QueuedAnswers)
    requires Inv(w) && Fresh(w, run) && !run.dry
    ensures Good(w, AnnounceQueued(InsertRun(w, run), repo, run, pr, a))
  {
    hide Inv, UpdateLabels;
    var w1 := InsertRun(w, run);
    var w2 := Send(w1, Comment(repo, run.pr, CommitApproved));
    var o := AnnounceQueued(w1, repo, run, pr, a);
    NextIsNew(w);
    InsertKeepsInv(w, run);
    LabelsWrite(w2, repo, pr, Queued, run.dry, a.labels);
    assert Quiet(w1, o.w) && o.w.db.runs == w1.db.runs;
    SameRunsKeepInv(w1, o.w);
    OnlyNewRow(w, o.w, run);
  }

  lemma EnabledIsConfigured(w: World, repo: int)
    requires ConfigOf(w, repo).enabled
    ensures repo in w.conf && ConfigOf(w, repo) == w.conf[repo]
  {
  }

  /** Going on from a world in which only pull request rows and requests differ. */
  lemma GoodAfterQuiet(w: World, w1: World, o: Out)
    requires Quiet(w, w1) && w1.db.runs == w.db.runs && Good(w1, o)
    ensures Good(w, o)
  {
  }

  /** Going on from a successful cancellation. */
  lemma GoodAfterCancel(w: World, c: World, o: Out)
    requires Inv(w) && Inv(c) && Gentle(w, c) && c.db.runs.Keys == w.db.runs.Keys && c.next == w.next
    requires c.hub.pushes == w.hub.pushes && c.db.checks == w.db.checks && Good(c, o)
    ensures Good(w, o)
  {
    forall i | i in w.db.runs
      ensures i in o.w.db.runs && GentleRow(w.db.runs[i], o.w.db.runs[i])
    {
      assert GentleRow(w.db.runs[i], c.db.runs[i]) && GentleRow(c.db.runs[i], o.w.db.runs[i]);
    }
  }

  /** The upsert every command begins with loses no row and stores the pull request. */
  lemma Upserted(w: World, pr: PullRequest, user: int, repo: int, priority: Option<int>)
    ensures var row := NewRow(pr, user, repo, w.now).(defaultPriority := priority);
            Quiet(w, SetPrs(w, UpsertPr(w.db.prs, row))) && (repo, pr.number) in UpsertPr(w.db.prs, row)
    ensures NewRow(pr, user, repo, w.now).defaultPriority == None
  {
    hide AssignedIds, MergeStatusOf, StatusOf, UpsertRow;
  }

  // ---- Handlers ----

  lemma StartTryIsGood(w: World, repo: int, user: int, pr: PullRequest, dbPr: PrRow, base: Base, head: string,
                       a: StartAnswers)
    requires Inv(w) && ConfigOf(w, repo).enabled && (repo, pr.number) in w.db.prs
    requires a.merge.MergedAs? ==> a.merge.sha !in w.hub.minted
    requires forall i :: i in w.db.runs && w.db.runs[i].repo == repo && w.db.runs[i].pr == pr.number
               ==> w.db.runs[i].completedAt.Some?
    ensures Good(w, StartTry(w, repo, user, pr, dbPr, base, head, a))
  {
    hide Start;
    EnabledIsConfigured(w, repo);
    var run := NewRun(w, repo, pr.number, base, head, TryBranchOf(w, repo, pr.number), DEFAULT_PRIORITY, user, true,
                      []);
    InsertAndStart(w, repo, run, dbPr, a);
  }

  lemma TryAtIsGood(w: World, repo: int, user: int, pr: PullRequest, base: Base, head: string, a: TryAnswers)
    requires Inv(w) && ConfigOf(w, repo).enabled
    requires a.start.merge.MergedAs? ==> a.start.merge.sha !in w.hub.minted
    ensures Good(w, TryAt(w, repo, user, pr, base, head, a))
  {
    hide CancelRun, StartTry, UpsertRow, UpsertPr, NewRow, Inv;
    var row := NewRow(pr, user, repo, w.now);
    var dbPr := UpsertRow(w.db.prs, row);
    var w1 := SetPrs(w, UpsertPr(w.db.prs, row));
    Upserted(w, pr, user, repo, None);
    var o := TryAt(w, repo, user, pr, base, head, a);
    SameRunsKeepInv(w, w1);
    ActiveFacts(w1, repo, pr.number);
    var active := Active(w1.db.runs, w1.next, repo, pr.number);
    if active.None? {
      StartTryIsGood(w1, repo, user, pr, dbPr, base, head, a.start);
    } else if !active.value.dry {
      QuietIsGood(w1, o);
    } else {
      var c := CancelRun(w1, repo, active.value, dbPr, a.cancel);
      CancelIsGood(w1, repo, active.value, dbPr, a.cancel);
      if c.res.Ok? {
        StartTryIsGood(c.w, repo, user, pr, dbPr, base, head, a.start);
        GoodAfterCancel(w1, c.w, StartTry(c.w, repo, user, pr, dbPr, base, head, a.start));
      }
    }
    GoodAfterQuiet(w, w1, o);
  }

  lemma TryIsGood(w: World, repo: int, user: int, pr: PullRequest, args: TryArgs, a: TryAnswers)
    requires Inv(w)
    requires a.start.merge.MergedAs? ==> a.start.merge.sha !in w.hub.minted
    ensures Good(w, Try(w, repo, user, pr, args, a))
  {
    hide TryAt, Inv;
    var o := Try(w, repo, user, pr, args, a);
    if Quiet(w, o.w) && o.w.db.runs == w.db.runs {
      QuietIsGood(w, o);
    } else {
      TryAtIsGood(w, repo, user, pr,
                  if args.base.Some? then Commit(a.base.sha) else Branch(pr.baseRef),
                  if args.head.Some? then a.head.sha else pr.headSha, a);
    }
  }

  lemma MergeIsGood(w: World, repo: int, user: int, pr: PullRequest, priority: Option<int>, a: MergeAnswers)
    requires Inv(w)
    ensures Good(w, Merge(w, repo, user, pr, priority, a))
  {
    hide Inv, UpsertRow, UpsertPr, NewRow, AnnounceQueued, Approvers.Compute;
    var o := Merge(w, repo, user, pr, priority, a);
    ActiveFacts(w, repo, pr.number);
    var row := NewRow(pr, user, repo, w.now).(defaultPriority := priority);
    if Quiet(w, o.w) && o.w.db.runs == w.db.runs {
      QuietIsGood(w, o);
    } else {
      var approvers := Approvers.Compute(a.reviews.value, row.authorId, pr.requestedReviewers,
                                         PermissionIn(a.reviewers));
      var dbPr := UpsertRow(w.db.prs, row);
      var w1 := SetPrs(w, UpsertPr(w.db.prs, row));
      Upserted(w, pr, user, repo, priority);
      SameRunsKeepInv(w, w1);
      EnabledIsConfigured(w, repo);
      var given := if priority.Some? then priority else dbPr.defaultPriority;
      var run := NewRun(w1, repo, pr.number, Branch(pr.baseRef), pr.headSha, MergeBranchOf(w1, repo, pr.baseRef),
                        if given.Some? then given.value else DEFAULT_PRIORITY, user, false, approvers.value);
      assert BranchNames.Stem(w.conf[repo].mergePrefix) <= run.ciBranch;
      assert Fresh(w1, run);
      InsertAndAnnounce(w1, repo, run, dbPr, a.queued);
      GoodAfterQuiet(w, w1, o);
    }
  }

  lemma RetryIsGood(w: World, repo: int, user: int, pr: PullRequest, a: RetryAnswers)
    requires Inv(w)
    requires a.start.merge.MergedAs? ==> a.start.merge.sha !in w.hub.minted
    ensures Good(w, Retry(w, repo, user, pr, a))
  {
    hide UpsertRow, UpsertPr, NewRow, AnnounceQueued, Start, Inv;
    var o := Retry(w, repo, user, pr, a);
    if Quiet(w, o.w) && o.w.db.runs == w.db.runs {
      QuietIsGood(w, o);
    } else {
      var row := NewRow(pr, user, repo, w.now);
      var dbPr := UpsertRow(w.db.prs, row);
      var w1 := SetPrs(w, UpsertPr(w.db.prs, row));
      Upserted(w, pr, user, repo, None);
      SameRunsKeepInv(w, w1);
      LatestFacts(w1, repo, pr.number);
      var last := Latest(w1.db.runs, w1.next, repo, pr.number).value;
      RowIsNamed(w1, last);
      var run := NewRun(w1, repo, pr.number, last.base, last.head, last.ciBranch, last.priority, user, last.dry,
                        last.approvedBy);
      assert Fresh(w1, run);
      if run.dry {
        InsertAndStart(w1, repo, run, dbPr, a.start);
      } else {
        InsertAndAnnounce(w1, repo, run, dbPr, a.queued);
      }
      GoodAfterQuiet(w, w1, o);
    }
  }

  lemma RowIsNamed(w: World, r: Run)
    requires Inv(w) && r.id in w.db.runs && w.db.runs[r.id] == r
    ensures Named(r, w.conf)
  {
  }

  lemma CancelCommandIsGood(w: World, repo: int, user: int, pr: PullRequest, a: CancelCommandAnswers)
    requires Inv(w)
    ensures Good(w, Cancel(w, repo, user, pr, a))
  {
    hide UpsertRow, UpsertPr, NewRow, CancelRun, Inv;
    var o := Cancel(w, repo, user, pr, a);
    var row := NewRow(pr, user, repo, w.now);
    var dbPr := UpsertRow(w.db.prs, row);
    var w1 := SetPrs(w, UpsertPr(w.db.prs, row));
    Upserted(w, pr, user, repo, None);
    SameRunsKeepInv(w, w1);
    ActiveFacts(w1, repo, pr.number);
    var active := Active(w1.db.runs, w1.next, repo, pr.number);
    if active.None? || a.can != Some(true) {
      QuietIsGood(w, o);
    } else {
      var c := CancelRun(w1, repo, active.value, dbPr, a.cancel);
      CancelIsGood(w1, repo, active.value, dbPr, a.cancel);
      if c.res.Ok? {
        QuietIsGood(c.w, o);
        GoodAfterCancel(w1, c.w, o);
      }
      GoodAfterQuiet(w, w1, o);
    }
  }

  lemma PrChangeIsGood(w: World, repo: int, user: int, pr: PullRequest, a: PrAnswers)
    requires Inv(w)
    ensures Good(w, PrChange(w, repo, user, pr, a))
  {
    hide NewRow, UpdateFrom, NeedsUpdate, InMemory, Stored, CancelRun, Inv;
    var o := PrChange(w, repo, user, pr, a);
    if Quiet(w, o.w) && o.w.db.runs == w.db.runs {
      QuietIsGood(w, o);
    } else {
      var key := (repo, pr.number);
      var update := UpdateFrom(w.db.prs[key], pr, w.now);
      var current := InMemory(update, w.db.prs[key]);
      var w1 := SetPrs(w, w.db.prs[key := Stored(update, w.db.prs[key])]);
      SameRunsKeepInv(w, w1);
      ActiveFacts(w1, repo, pr.number);
      var active := Active(w1.db.runs, w1.next, repo, pr.number).value;
      var c := CancelRun(w1, repo, active, current, a.cancel);
      CancelIsGood(w1, repo, active, current, a.cancel);
      if c.res.Ok? {
        QuietIsGood(c.w, o);
        GoodAfterCancel(w1, c.w, o);
      }
      GoodAfterQuiet(w, w1, o);
    }
  }

  // ---- The check webhook ----

  /** A step pushes at most once, for a run it finds uncompleted and leaves completed. */
  ghost predicate OnePush(w: World, w2: World) {
    || w2.hub.pushes == w.hub.pushes
    || (w2.hub.pushes != [] && var p := w2.hub.pushes[|w2.hub.pushes| - 1];
        && w2.hub.pushes == w.hub.pushes + [p]
        && p.run in w.db.runs && w.db.runs[p.run].completedAt.None?
        && p.run in w2.db.runs && w2.db.runs[p.run].completedAt.Some?
        && Justified(p, w.db.runs, w.hub.reports, w.conf))
  }

  ghost predicate CheckGood(w: World, o: Out) {
    && Inv(o.w) && Gentle(w, o.w) && OnePush(w, o.w) && o.w.db.runs.Keys == w.db.runs.Keys
  }

  /** Refreshing a run as it is now. */
  lemma RefreshIsGood(w: World, repo: int, run: Run, pr: PrRow, a: RefreshAnswers)
    requires Inv(w) && run.id in w.db.runs && w.db.runs[run.id] == run && run.completedAt.None? && run.repo == repo
    requires run.sha.Some?
    requires a.rows.Some? ==> RowsFor(a.rows.value, w.db.checks, run.id)
    ensures CheckGood(w, Refresh(w, repo, run, pr, a))
  {
    hide Inv, Refresh, Judge, ByName, GreenRows, Justified, RowsFor;
    var o := Refresh(w, repo, run, pr, a);
    RowIsCoherent(w, run);
    RefreshKeepsInv(w, repo, run, pr, a);
    RefreshWrites(w, repo, run, pr, a);
    if o.w.hub.pushes != w.hub.pushes {
      GreenIsBacked(w.db.checks, run.id, a.rows.value, ConfigOf(w, repo).required);
      GreenJustifies(w, repo, run, pr, a.success);
    }
  }

  lemma RowIsCoherent(w: World, r: Run)
    requires Inv(w) && r.id in w.db.runs && w.db.runs[r.id] == r
    ensures Coherent(r)
  {
  }

  /** The check of an uncompleted run is stored. */
  lemma StoreCheckKeepsInv(w: World, repo: int, c: CheckReport, run: Run)
    requires Inv(w) && run.id in w.db.runs && w.db.runs[run.id] == run && run.completedAt.None?
    requires run.sha == Some(c.headSha)
    requires c.id in w.hub.heads && w.hub.heads[c.id] == c.headSha
    requires Report(c.headSha, c.name, c.conclusion) in w.hub.reports
    ensures Inv(StoreCheck(w, repo, c, run))
  {
    var row := NewCheck(c, run.id, IsRequired(ConfigOf(w, repo).required, c.name), w.now);
    hide Justified, GreenRows, Named, BranchNames.Stem;
    assert Attached(row, row.id, w.db.runs, w.hub.heads, w.hub.reports);
    StoreCheckKeeps(w.db.runs, w.next, w.db.checks, w.hub, w.conf, row);
  }

  /** The check webhook, once the report was heard. */
  lemma CheckRunIsGood(w: World, repo: int, c: CheckReport, a: RefreshAnswers)
    requires Inv(w)
    requires c.id in w.hub.heads && w.hub.heads[c.id] == c.headSha
    requires Report(c.headSha, c.name, c.conclusion) in w.hub.reports
    requires c.headSha in w.hub.minted ==> w.hub.minted[c.headSha] == repo
    requires var found := BySha(w.db.runs, w.next, c.headSha);
             found.Some? && a.rows.Some? ==> RowsFor(a.rows.value, StoreCheck(w, repo, c, found.value).db.checks,
                                                     found.value.id)
    ensures CheckGood(w, CheckRun(w, repo, c, a))
  {
    hide Inv, Refresh;
    var o := CheckRun(w, repo, c, a);
    ByShaFacts(w, c.headSha);
    var found := BySha(w.db.runs, w.next, c.headSha);
    if found.None? || found.value.completedAt.Some? || (found.value.repo, found.value.pr) !in w.db.prs {
      QuietIsGood(w, o);
    } else {
      var run := found.value;
      var w1 := StoreCheck(w, repo, c, run);
      StoreCheckKeepsInv(w, repo, c, run);
      CommitOfRepo(w, run);
      if IsRequired(ConfigOf(w, repo).required, c.name) {
        RefreshIsGood(w1, repo, run, w.db.prs[(run.repo, run.pr)], a);
        AfterStore(w, w1, o.w);
      } else {
        assert GentleRows(w.db.runs, w1.db.runs);
      }
    }
  }

  lemma CommitOfRepo(w: World, run: Run)
    requires Inv(w) && run.id in w.db.runs && w.db.runs[run.id] == run && run.sha.Some?
    ensures run.sha.value in w.hub.minted && w.hub.minted[run.sha.value] == run.repo
  {
  }

  lemma AfterStore(w: World, w1: World, w2: World)
    requires w1 == w.(db := w.db.(checks := w1.db.checks))
    requires Gentle(w1, w2) && OnePush(w1, w2)
    ensures Gentle(w, w2) && OnePush(w, w2)
  {
  }
}
