/**
 The whole server: webhook transactions, the scheduler's tick with its work list, and the
 clock, interleaved in any order. A webhook and the handling of one run each hold the
 repository's lock, so they are steps; the list of a tick is fetched under no lock, so it is
 part of the state and may be stale.
 */
module System {
  import opened Basics
  import opened CiRuns
  import opened Checks
  import opened PrRows
  import opened Store
  import opened Workflow
  import opened Handlers
  import opened Scheduler

  /** `work` is what the current tick still has to handle; `horizon` the next run id when it was fetched. */
  datatype Sys = Sys(w: World, work: seq<Run>, horizon: nat)

  datatype Event =
    | TryCommand(repo: int, user: int, pr: PullRequest, args: TryArgs, tried: TryAnswers, commit: bool)
    | MergeCommand(repo: int, user: int, pr: PullRequest, priority: Option<int>, merged: MergeAnswers, commit: bool)
    | RetryCommand(repo: int, user: int, pr: PullRequest, retried: RetryAnswers, commit: bool)
    | CancelCommand(repo: int, user: int, pr: PullRequest, cancelled: CancelCommandAnswers, commit: bool)
    | PrEvent(repo: int, user: int, pr: PullRequest, changed: PrAnswers, commit: bool)
    | CheckEvent(repo: int, check: CheckReport, checked: RefreshAnswers, commit: bool)
    | Fetch(rows: seq<Run>, list: seq<Run>)     // a tick begins
    | Handle(handled: HandleAnswers)            // the next run of the list
    | Skip                                      // no client for the next run's repository
    | Clock(now: int)

  /** What GitHub reports about a check is heard whether or not the transaction commits. */
  function Hear(w: World, c: CheckReport): World {
    w.(hub := w.hub.(heads := w.hub.heads[c.id := c.headSha],
                     reports := w.hub.reports + {Report(c.headSha, c.name, c.conclusion)}))
  }

  function Result(w: World, e: Event): Out
    requires !e.Fetch? && !e.Handle? && !e.Skip? && !e.Clock?
  {
    match e
    case TryCommand(repo, user, pr, args, a, _) => Try(w, repo, user, pr, args, a)
    case MergeCommand(repo, user, pr, priority, a, _) => Merge(w, repo, user, pr, priority, a)
    case RetryCommand(repo, user, pr, a, _) => Retry(w, repo, user, pr, a)
    case CancelCommand(repo, user, pr, a, _) => Cancel(w, repo, user, pr, a)
    case PrEvent(repo, user, pr, a, _) => PrChange(w, repo, user, pr, a)
    case CheckEvent(repo, c, a, _) => CheckRun(w, repo, c, a)
  }

  predicate IsWebhook(e: Event) {
    !e.Fetch? && !e.Handle? && !e.Skip? && !e.Clock?
  }

  /** The world a webhook's transaction starts from. */
  function Heard(w: World, e: Event): World {
    if e.CheckEvent? then Hear(w, e.check) else w
  }

  // ---- Premises on the outside world ----

  /** A merge commit GitHub makes is new. */
  predicate FreshMerge(w: World, m: MergeAnswer) {
    m.MergedAs? ==> m.sha !in w.hub.minted
  }

  /** A check keeps its commit, and a merge commit's checks are reported by its own repository. */
  predicate HonestCheck(w: World, repo: int, c: CheckReport) {
    && (c.id in w.hub.heads ==> w.hub.heads[c.id] == c.headSha)
    && (c.headSha in w.hub.minted ==> w.hub.minted[c.headSha] == repo)
  }

  /** The rows `refresh` reads are the rows of the run. */
  ghost predicate TrueRows(a: RefreshAnswers, t: Table, run: nat) {
    a.rows.Some? ==> RowsFor(a.rows.value, t, run)
  }

  ghost predicate Enabled(s: Sys, e: Event) {
    match e
    case TryCommand(_, _, _, _, a, _) => FreshMerge(s.w, a.start.merge)
    case MergeCommand(_, _, _, _, _, _) => true
    case RetryCommand(_, _, _, a, _) => FreshMerge(s.w, a.start.merge)
    case CancelCommand(_, _, _, _, _) => true
    case PrEvent(_, _, _, _, _) => true
    case CheckEvent(repo, c, a, _) =>
      && HonestCheck(s.w, repo, c)
      && (var found := BySha(s.w.db.runs, s.w.next, c.headSha);
          found.Some? ==> TrueRows(a, StoreCheck(s.w, repo, c, found.value).db.checks, found.value.id))
    case Fetch(rows, list) => s.work == [] && PendingRows(rows, s.w.db.runs) && ValuesOf(list, Choose(rows))
    case Handle(a) =>
      s.work != [] && FreshMerge(s.w, a.start.merge) && TrueRows(a.refresh, s.w.db.checks, s.work[0].id)
    case Skip => s.work != []
    case Clock(now) => now >= s.w.now
  }

  function Apply(s: Sys, e: Event): Sys
    requires e.Handle? || e.Skip? ==> s.work != []
  {
    match e
    case Fetch(_, list) => Sys(s.w, list, s.w.next)
    case Handle(a) => Sys(HandleRun(s.w, s.work[0], a).w, s.work[1..], s.horizon)
    case Skip => Sys(s.w, s.work[1..], s.horizon)
    case Clock(now) => s.(w := s.w.(now := now))
    case _ => s.(w := Transaction(Heard(s.w, e), Result(Heard(s.w, e), e), e.commit))
  }

  ghost predicate ValidTrace(s: Sys, es: seq<Event>)
    decreases |es|
  {
    es == [] || (Enabled(s, es[0]) && ValidTrace(Apply(s, es[0]), es[1..]))
  }

  ghost function RunTrace(s: Sys, es: seq<Event>): Sys
    requires ValidTrace(s, es)
    decreases |es|
  {
    if es == [] then s else RunTrace(Apply(s, es[0]), es[1..])
  }

  /** An empty database, an idle scheduler, and a GitHub that was asked nothing yet. */
  ghost predicate Initial(s: Sys) {
    && s.w.db.runs == map[] && s.w.db.checks == map[] && s.w.hub.pushes == [] && s.work == [] && s.horizon == 0
    && ConfOk(s.w.conf)
  }
}
