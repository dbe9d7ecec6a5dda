/** CI run rows and the three filtered updates that write them (server/src/database/ci_run.rs). */
module CiRuns {
  import opened Basics

  datatype Status = Queued | InProgress | Success | Failure | Cancelled

  datatype Base = Commit(sha: string) | Branch(name: string)

  datatype Run = Run(
    id: nat, repo: int, pr: nat, status: Status, base: Base, head: string, sha: Option<string>,
    ciBranch: string, priority: int, requestedBy: int, dry: bool, approvedBy: seq<int>,
    completedAt: Option<int>, startedAt: Option<int>)

  /** `UpdateCiRun`: a column is written when it is given. */
  datatype Change = Change(
    status: Option<Status>, sha: Option<string>, completedAt: Option<int>, startedAt: Option<int>)

  /** The filter of an update: by id alone, `completed_at IS NULL`, or `status = queued`. */
  datatype Filter = Query | NotDone | StillQueued

  type Rows = map<nat, Run>

  predicate Admits(f: Filter, r: Run) {
    match f
    case Query => true
    case NotDone => r.completedAt.None?
    case StillQueued => r.status.Queued?
  }

  function Patch(r: Run, c: Change): Run {
    r.(status := if c.status.Some? then c.status.value else r.status,
       sha := if c.sha.Some? then c.sha else r.sha,
       completedAt := if c.completedAt.Some? then c.completedAt else r.completedAt,
       startedAt := if c.startedAt.Some? then c.startedAt else r.startedAt)
  }

  /** Whether an update reaches a row; the number of rows it reports is one or zero. */
  predicate Reaches(rows: Rows, id: nat, f: Filter) {
    id in rows && Admits(f, rows[id])
  }

  function Update(rows: Rows, id: nat, f: Filter, c: Change): Rows {
    if Reaches(rows, id, f) then rows[id := Patch(rows[id], c)] else rows
  }

  function Finish(status: Status, now: int): Change {
    Change(Some(status), None, Some(now), None)
  }

  function Begin(sha: string, now: int): Change {
    Change(Some(InProgress), Some(sha), None, Some(now))
  }

  /** The row with the highest id below `n` that has a property. */
  function Highest(rows: Rows, n: nat, p: Run -> bool): (r: Option<Run>)
    ensures r.None? ==> forall i :: 0 <= i < n && i in rows ==> !p(rows[i])
    ensures r.Some? ==> exists i :: 0 <= i < n && i in rows && rows[i] == r.value && p(rows[i])
                          && forall j :: i < j < n && j in rows ==> !p(rows[j])
  {
    if n == 0 then None
    else if n - 1 in rows && p(rows[n - 1]) then Some(rows[n - 1])
    else Highest(rows, n - 1, p)
  }

  /** `CiRun::latest`: the run of a pull request with the largest id. */
  function Latest(rows: Rows, n: nat, repo: int, pr: nat): Option<Run> {
    Highest(rows, n, (r: Run) => r.repo == repo && r.pr == pr)
  }

  /** `CiRun::active`: the uncompleted run of a pull request. */
  function Active(rows: Rows, n: nat, repo: int, pr: nat): Option<Run> {
    Highest(rows, n, (r: Run) => r.repo == repo && r.pr == pr && r.completedAt.None?)
  }

  /** `CiRun::by_run_commit_sha`. */
  function BySha(rows: Rows, n: nat, sha: string): Option<Run> {
    Highest(rows, n, (r: Run) => r.sha == Some(sha))
  }

  // ---- What every writer keeps ----

  /** The four state columns agree with each other. */
  predicate Coherent(r: Run) {
    && (r.completedAt.Some? <==> r.status.Success? || r.status.Failure? || r.status.Cancelled?)
    && (r.startedAt.Some? <==> r.sha.Some?)
    && (r.status.Queued? ==> r.startedAt.None?)
    && (r.status.InProgress? || r.status.Success? ==> r.startedAt.Some?)
  }

  /** The columns no update writes. */
  predicate SameRun(a: Run, b: Run) {
    && a.id == b.id && a.repo == b.repo && a.pr == b.pr && a.base == b.base && a.head == b.head
    && a.ciBranch == b.ciBranch && a.priority == b.priority && a.requestedBy == b.requestedBy
    && a.dry == b.dry && a.approvedBy == b.approvedBy
  }

  /**
   How a row may change over any number of writes: the run commit and the start are written
   at most once and never after completion, a completed row stays completed, and its status
   can only become Failure.
   */
  predicate Evolves(a: Run, b: Run) {
    && SameRun(a, b)
    && (a.sha.Some? ==> b.sha == a.sha)
    && (a.startedAt.Some? ==> b.startedAt == a.startedAt)
    && (a.completedAt.Some? ==> b.completedAt.Some? && b.sha == a.sha && b.startedAt == a.startedAt
                                && (b.status == a.status || b.status.Failure?))
    && (b.status.Queued? ==> a.status.Queued?)
    && (b.status.InProgress? ==> a.status.Queued? || a.status.InProgress?)
  }

  /** Every row evolves, and rows are only added, at ids not below `next`. */
  ghost predicate RowsEvolve(a: Rows, b: Rows, next: nat) {
    && (forall i :: i in a ==> i in b && Evolves(a[i], b[i]))
    && (forall i :: i in b && i !in a ==> i >= next)
  }
}
