/**
 What the server works on: its three tables, GitHub as the log of what was asked of it and
 what it reported, the repositories' configurations, and the time.
 */
module Store {
  import opened Basics
  import opened CiRuns
  import opened Checks
  import opened PrRows
  import opened Labels
  import BranchNames

  /** `GitHubBrawlRepoConfig`, as far as the queue reads it (server/src/github/config.rs). */
  datatype Config = Config(
    enabled: bool, required: seq<string>, timeoutMinutes: int, tryPrefix: string, mergePrefix: string,
    labels: LabelsConfig)

  /** A comment on a pull request; its wording is not modelled. */
  datatype Note =
    | TestsFailed(check: string) | TestsTimedOut | TestsPassed | TestsPassedMerge | PushRefused
    | BaseMissing | MergeConflict | MergeFailed | CiPushFailed | TestsStarted | CommitApproved
    | AlreadyMerged | BaseNotFound | HeadNotFound | ActiveMerge | RunPending | NeverRun | NotCompleted
    | RunCancelled | PrChanged

  /** A request to GitHub other than a push to a target branch. */
  datatype Request =
    | Comment(repo: int, pr: nat, note: Note)
    | MakeMerge(repo: int, base: string, head: string)
    | PushCi(repo: int, branch: string, sha: string)
    | DeleteBranch(repo: int, branch: string)
    | StopWorkflow(repo: int, workflow: int)

  /** A push to a target branch, with the check table as it was at that moment. */
  datatype Push = Push(run: nat, repo: int, branch: string, sha: string, accepted: bool, table: Table)

  /** A check result GitHub reported for a commit, as it was reported. */
  datatype Report = Report(sha: string, name: string, conclusion: Option<Conclusion>)

  /** GitHub reported, of that commit and under that name, what a row of that status stands for. */
  predicate Reported(reports: set<Report>, sha: string, name: string, status: CheckStatus) {
    match status
    case CheckSuccess => Report(sha, name, Some(ConclSuccess)) in reports
    case CheckFailure =>
      || Report(sha, name, Some(ConclFailure)) in reports || Report(sha, name, Some(ConclTimedOut)) in reports
      || Report(sha, name, Some(ConclActionRequired)) in reports
    case CheckCancelled => Report(sha, name, Some(ConclCancelled)) in reports
    case CheckSkipped => Report(sha, name, Some(ConclSkipped)) in reports
    case CheckPending => Report(sha, name, None) in reports || Report(sha, name, Some(ConclNeutral)) in reports
  }

  /**
   GitHub, seen from the server: the merge commits it made and for which repository, the
   commit of every check it reported, the results it reported, the pushes to target branches
   and the other requests in order, and the labels on pull requests. Nothing here is undone
   when a transaction rolls back.
   */
  datatype Hub = Hub(
    minted: map<string, int>, heads: map<int, string>, reports: set<Report>, pushes: seq<Push>,
    requests: seq<Request>, labels: map<PrKey, set<string>>)

  datatype Db = Db(runs: Rows, checks: Table, prs: map<PrKey, PrRow>)

  /** `next` is the id sequence of the run table, which a rollback does not rewind. */
  datatype World = World(db: Db, next: nat, hub: Hub, conf: Conf, now: int)

  /** What a handler leaves behind and answers. */
  datatype Out = Out(w: World, res: Outcome)

  /** A repository without a configuration file: Brawl is off, everything else is the default. */
  const MISSING_CONFIG := Config(
    false, ["brawl-done"], 60, "automation/brawl/try/", "automation/brawl/merge/",
    LabelsConfig([], [], [], [], [], []))

  type Conf = map<int, Config>

  /** No repository's merge branches can be mistaken for its try branches. */
  ghost predicate ConfOk(conf: Conf) {
    forall r :: r in conf ==> !(BranchNames.Stem(conf[r].mergePrefix) <= BranchNames.Stem(conf[r].tryPrefix))
  }

  function ConfigOf(w: World, repo: int): Config {
    if repo in w.conf then w.conf[repo] else MISSING_CONFIG
  }

  function SetRuns(w: World, runs: Rows): World {
    w.(db := w.db.(runs := runs))
  }

  function SetPrs(w: World, prs: map<PrKey, PrRow>): World {
    w.(db := w.db.(prs := prs))
  }

  function Send(w: World, r: Request): World {
    w.(hub := w.hub.(requests := w.hub.requests + [r]))
  }

  function LogPush(w: World, p: Push): World {
    w.(hub := w.hub.(pushes := w.hub.pushes + [p]))
  }

  function Mint(w: World, sha: string, repo: int): World {
    w.(hub := w.hub.(minted := w.hub.minted[sha := repo]))
  }

  function LabelsOn(w: World, key: PrKey): set<string> {
    if key in w.hub.labels then w.hub.labels[key] else {}
  }

  /** The recorded labels of a stored pull request row, and the labels on the pull request. */
  function BoardOf(w: World, repo: int, pr: PrRow): Board {
    var key := (pr.repo, pr.number);
    Board(if key in w.db.prs then w.db.prs[key].addedLabels else [], LabelsOn(w, (repo, pr.number)))
  }

  /** Whether the row given leaves nothing to add or remove, in which case nothing is written. */
  predicate LabelsSettled(w: World, repo: int, pr: PrRow, status: Status, dry: bool) {
    var desired := Desired(status, dry, ConfigOf(w, repo).labels);
    ToAdd(pr.addedLabels, desired) == {} && ToRemove(pr.addedLabels, desired) == {}
  }

  function LabelsAfter(w: World, repo: int, pr: PrRow, status: Status, dry: bool, a: LabelAnswers): Board {
    ReconcileFrom(pr.addedLabels, BoardOf(w, repo, pr), Desired(status, dry, ConfigOf(w, repo).labels), a)
  }

  function RecordLabels(prs: map<PrKey, PrRow>, key: PrKey, recorded: seq<string>, now: int): map<PrKey, PrRow> {
    if key in prs then prs[key := prs[key].(addedLabels := recorded, updatedAt := now)] else prs
  }

  /** `update_labels`: the row given may be older than the stored one. */
  function UpdateLabels(w: World, repo: int, pr: PrRow, status: Status, dry: bool, a: LabelAnswers): Out {
    if LabelsSettled(w, repo, pr, status, dry) then Out(w, Ok(true)) else
    var after := LabelsAfter(w, repo, pr, status, dry, a);
    var w1 := w.(hub := w.hub.(labels := w.hub.labels[(repo, pr.number) := after.present]));
    if a.stored then Out(SetPrs(w1, RecordLabels(w.db.prs, (pr.repo, pr.number), after.recorded, w.now)), Ok(true))
    else Out(w1, Err)
  }

  /** Worlds that agree on checks, ids, configuration, time and what GitHub reported; no pull request row is lost. */
  predicate SameCore(a: World, b: World) {
    && a.db.prs.Keys <= b.db.prs.Keys
    && b.db.checks == a.db.checks && b.next == a.next && b.conf == a.conf && b.now == a.now
    && b.hub.heads == a.hub.heads && b.hub.reports == a.hub.reports
  }
}
