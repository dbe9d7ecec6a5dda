/** Pull request rows, and the diff that is applied to them (server/src/database/pr.rs). */
module PrRows {
  import opened Basics
  import opened Sorting

  datatype IssueState = IssueOpen | IssueClosed | IssueOther

  datatype Mergeable = Behind | Blocked | Clean | Dirty | DraftPr | HasHooks | Unknown | Unstable

  /** A pull request as GitHub reports it, as far as it is read. */
  datatype PullRequest = PullRequest(
    number: nat, title: string, body: string, state: Option<IssueState>, mergeable: Option<Mergeable>,
    mergeCommitSha: Option<string>, assignees: seq<int>, requestedReviewers: seq<int>, user: Option<int>,
    draft: Option<bool>, mergedAt: Option<int>, headRef: string, headSha: string, baseRef: string)

  datatype PrStatus = Open | Closed | Draft

  datatype MergeStatus = NotReady | Ready | Merged | Conflicting | ChecksFailing | MergeFailing

  datatype PrRow = PrRow(
    repo: int, number: nat, title: string, body: string, mergeStatus: MergeStatus, authorId: int,
    assignedIds: seq<int>, status: PrStatus, defaultPriority: Option<int>, mergeCommitSha: Option<string>,
    targetBranch: string, sourceBranch: string, latestCommitSha: string, addedLabels: seq<string>, updatedAt: int)

  /** `UpdatePr`: a column is written when it is given. */
  datatype UpdatePr = UpdatePr(
    addedLabels: Option<seq<string>>, title: Option<string>, body: Option<string>, mergeStatus: Option<MergeStatus>,
    assignedIds: Option<seq<int>>, status: Option<PrStatus>, defaultPriority: Option<Option<int>>,
    mergeCommitSha: Option<Option<string>>, targetBranch: Option<string>, latestCommitSha: Option<string>,
    updatedAt: int)

  type PrKey = (int, nat)

  function StatusOf(pr: PullRequest): PrStatus {
    match pr.state
    case Some(IssueOpen) => if pr.draft == Some(true) then Draft else Open
    case Some(IssueClosed) => Closed
    case _ => Open
  }

  function MergeStatusOf(pr: PullRequest): Option<MergeStatus> {
    if pr.mergedAt.Some? then Some(Merged) else
    match pr.mergeable
    case Some(Behind) => Some(Ready)
    case Some(Blocked) => Some(Ready)
    case Some(Clean) => Some(Ready)
    case Some(Dirty) => Some(Conflicting)
    case Some(Unstable) => Some(ChecksFailing)
    case Some(DraftPr) => Some(NotReady)
    case _ => None
  }

  function AssignedIds(pr: PullRequest): seq<int> {
    Dedup(Sort(IntLess, pr.assignees))
  }

  /** The merge commit counts only once the pull request is merged. */
  function MergeCommitOf(pr: PullRequest): Option<string> {
    if pr.mergedAt.Some? then pr.mergeCommitSha else None
  }

  /** `Pr::new`. */
  function NewRow(pr: PullRequest, user: int, repo: int, now: int): PrRow {
    PrRow(repo, pr.number, pr.title, pr.body,
          if MergeStatusOf(pr).Some? then MergeStatusOf(pr).value else NotReady,
          if pr.user.Some? then pr.user.value else user,
          AssignedIds(pr), StatusOf(pr), None, MergeCommitOf(pr), pr.baseRef, pr.headRef, pr.headSha, [], now)
  }

  function Changed<T(==)>(have: T, want: T): Option<T> {
    if have != want then Some(want) else None
  }

  /** `Pr::update_from`. */
  function UpdateFrom(row: PrRow, pr: PullRequest, now: int): UpdatePr {
    UpdatePr(
      None,
      Changed(row.title, pr.title),
      Changed(row.body, pr.body),
      if MergeStatusOf(pr).Some? then Changed(row.mergeStatus, MergeStatusOf(pr).value) else None,
      Changed(row.assignedIds, AssignedIds(pr)),
      Changed(row.status, StatusOf(pr)),
      None,
      Changed(row.mergeCommitSha, MergeCommitOf(pr)),
      Changed(row.targetBranch, pr.baseRef),
      Changed(row.latestCommitSha, pr.headSha),
      now)
  }

  predicate NeedsUpdate(u: UpdatePr) {
    || u.title.Some? || u.body.Some? || u.mergeStatus.Some? || u.assignedIds.Some? || u.status.Some?
    || u.defaultPriority.Some? || u.mergeCommitSha.Some? || u.targetBranch.Some? || u.latestCommitSha.Some?
  }

  function Or<T>(given: Option<T>, kept: T): T {
    if given.Some? then given.value else kept
  }

  /** The stored update: `UPDATE … SET` of the given columns and of `updated_at`. */
  function Stored(u: UpdatePr, row: PrRow): PrRow {
    row.(addedLabels := Or(u.addedLabels, row.addedLabels),
         title := Or(u.title, row.title),
         body := Or(u.body, row.body),
         mergeStatus := Or(u.mergeStatus, row.mergeStatus),
         assignedIds := Or(u.assignedIds, row.assignedIds),
         status := Or(u.status, row.status),
         defaultPriority := Or(u.defaultPriority, row.defaultPriority),
         mergeCommitSha := Or(u.mergeCommitSha, row.mergeCommitSha),
         targetBranch := Or(u.targetBranch, row.targetBranch),
         latestCommitSha := Or(u.latestCommitSha, row.latestCommitSha),
         updatedAt := u.updatedAt)
  }

  /** `update_pr`: the in-memory update, which stamps the row only if it is an update. */
  function InMemory(u: UpdatePr, row: PrRow): PrRow {
    Stored(u, row).(updatedAt := if NeedsUpdate(u) then u.updatedAt else row.updatedAt)
  }

  /** A row that is updated in place. */
  class PrCell {
    var title: string
    var body: string
    var mergeStatus: MergeStatus
    var assignedIds: seq<int>
    var status: PrStatus
    var defaultPriority: Option<int>
    var mergeCommitSha: Option<string>
    var targetBranch: string
    var latestCommitSha: string
    var addedLabels: seq<string>
    var updatedAt: int
    const repo: int
    const number: nat
    const authorId: int
    const sourceBranch: string

    function Row(): PrRow
      reads this
    {
      PrRow(repo, number, title, body, mergeStatus, authorId, assignedIds, status, defaultPriority, mergeCommitSha,
            targetBranch, sourceBranch, latestCommitSha, addedLabels, updatedAt)
    }

    constructor (row: PrRow)
      ensures Row() == row
    {
      repo, number, authorId, sourceBranch := row.repo, row.number, row.authorId, row.sourceBranch;
      title, body, mergeStatus, assignedIds := row.title, row.body, row.mergeStatus, row.assignedIds;
      status, defaultPriority, mergeCommitSha := row.status, row.defaultPriority, row.mergeCommitSha;
      targetBranch, latestCommitSha := row.targetBranch, row.latestCommitSha;
      addedLabels, updatedAt := row.addedLabels, row.updatedAt;
    }

    /** `update_pr`: one field after another, each kept unless it is given. */
    method UpdatePr(u: UpdatePr)
      modifies this
      ensures Row() == InMemory(u, old(Row()))
    {
      hide Or, NeedsUpdate;
      if NeedsUpdate(u) { updatedAt := u.updatedAt; }
      addedLabels := Or(u.addedLabels, addedLabels);
      title := Or(u.title, title);
      body := Or(u.body, body);
      mergeStatus := Or(u.mergeStatus, mergeStatus);
      assignedIds := Or(u.assignedIds, assignedIds);
      status := Or(u.status, status);
      defaultPriority := Or(u.defaultPriority, defaultPriority);
      mergeCommitSha := Or(u.mergeCommitSha, mergeCommitSha);
      targetBranch := Or(u.targetBranch, targetBranch);
      latestCommitSha := Or(u.latestCommitSha, latestCommitSha);
    }
  }

  /** The columns an upsert writes over an existing row; the default priority and the labels are not among them. */
  function OnConflict(row: PrRow): UpdatePr {
    UpdatePr(None, Some(row.title), Some(row.body), Some(row.mergeStatus), Some(row.assignedIds), Some(row.status),
             None, Some(row.mergeCommitSha), Some(row.targetBranch), Some(row.latestCommitSha), row.updatedAt)
  }

  /** `Pr::upsert`, and the row it returns. */
  function UpsertRow(prs: map<PrKey, PrRow>, row: PrRow): PrRow {
    if (row.repo, row.number) in prs then Stored(OnConflict(row), prs[(row.repo, row.number)]) else row
  }

  function UpsertPr(prs: map<PrKey, PrRow>, row: PrRow): map<PrKey, PrRow> {
    prs[(row.repo, row.number) := UpsertRow(prs, row)]
  }

  // ---- The diff/apply law ----

  /** A row shows what GitHub reports on every tracked column; an unknown merge status tracks nothing. */
  predicate Shows(row: PrRow, pr: PullRequest) {
    && row.title == pr.title && row.body == pr.body
    && (MergeStatusOf(pr).Some? ==> row.mergeStatus == MergeStatusOf(pr).value)
    && row.assignedIds == AssignedIds(pr) && row.status == StatusOf(pr)
    && row.mergeCommitSha == MergeCommitOf(pr)
    && row.targetBranch == pr.baseRef && row.latestCommitSha == pr.headSha
  }

  /** The diff is empty exactly when the row already shows the pull request. */
  lemma DiffIsEmptyExactly(row: PrRow, pr: PullRequest, now: int)
    ensures !NeedsUpdate(UpdateFrom(row, pr, now)) <==> Shows(row, pr)
  {
    var u := UpdateFrom(row, pr, now);
    assert u.title.None? <==> row.title == pr.title;
    assert u.mergeStatus.None? <==> (MergeStatusOf(pr).Some? ==> row.mergeStatus == MergeStatusOf(pr).value);
  }

  /** Applying the diff shows the pull request, keeps every untracked column, and leaves nothing to diff. */
  lemma ApplyingTheDiff(row: PrRow, pr: PullRequest, now: int, later: int)
    ensures var after := Stored(UpdateFrom(row, pr, now), row);
            && Shows(after, pr)
            && !NeedsUpdate(UpdateFrom(after, pr, later))
            && (MergeStatusOf(pr).None? ==> after.mergeStatus == row.mergeStatus)
            && after.repo == row.repo && after.number == row.number && after.authorId == row.authorId
            && after.defaultPriority == row.defaultPriority && after.sourceBranch == row.sourceBranch
            && after.addedLabels == row.addedLabels
  {
    var after := Stored(UpdateFrom(row, pr, now), row);
    assert Shows(after, pr);
    DiffIsEmptyExactly(after, pr, later);
  }

  /** The row in memory and the stored row agree exactly when there was something to update, or no time passed. */
  lemma MemoryAgreesWithStore(u: UpdatePr, row: PrRow)
    ensures InMemory(u, row) == Stored(u, row) <==> NeedsUpdate(u) || u.updatedAt == row.updatedAt
  {
    if !NeedsUpdate(u) {
      assert InMemory(u, row).updatedAt == row.updatedAt && Stored(u, row).updatedAt == u.updatedAt;
    }
  }

  /** A row made from a pull request shows it, and so does an upsert over any older row. */
  lemma UpsertShows(prs: map<PrKey, PrRow>, pr: PullRequest, user: int, repo: int, now: int)
    ensures var row := NewRow(pr, user, repo, now);
            && Shows(UpsertRow(prs, row), pr)
            && UpsertPr(prs, row).Keys == prs.Keys + {(repo, pr.number)}
            && ((repo, pr.number) in prs ==>
                  UpsertRow(prs, row).defaultPriority == prs[(repo, pr.number)].defaultPriority
                  && UpsertRow(prs, row).addedLabels == prs[(repo, pr.number)].addedLabels)
  {
  }

  /** What the status columns of a row that shows a pull request say. */
  lemma ShownStatus(row: PrRow, pr: PullRequest)
    requires Shows(row, pr)
    ensures row.status.Closed? <==> pr.state == Some(IssueClosed)
    ensures row.status.Draft? <==> pr.state == Some(IssueOpen) && pr.draft == Some(true)
    ensures pr.mergedAt.Some? ==> row.mergeStatus.Merged? && row.mergeCommitSha == pr.mergeCommitSha
    ensures pr.mergedAt.None? ==>
              && row.mergeCommitSha == None
              && (pr.mergeable in {Some(Behind), Some(Blocked), Some(Clean)} ==> row.mergeStatus.Ready?)
              && (pr.mergeable == Some(Dirty) ==> row.mergeStatus.Conflicting?)
              && (pr.mergeable == Some(Unstable) ==> row.mergeStatus.ChecksFailing?)
              && (pr.mergeable == Some(DraftPr) ==> row.mergeStatus.NotReady?)
  {
  }

  /** A mergeable state that is not one of these is unknown, and tracks nothing. */
  lemma UnknownMergeStatus(row: PrRow, pr: PullRequest, status: MergeStatus)
    requires pr.mergedAt.None? && pr.mergeable in {None, Some(HasHooks), Some(Unknown)}
    ensures Shows(row, pr) <==> Shows(row.(mergeStatus := status), pr)
  {
  }

  /** The columns of a new row that are not compared: who wrote it, where from, and the defaults. */
  lemma NewRowFills(pr: PullRequest, user: int, repo: int, now: int)
    ensures var row := NewRow(pr, user, repo, now);
            && Shows(row, pr) && row.repo == repo && row.number == pr.number && row.sourceBranch == pr.headRef
            && row.authorId == (if pr.user.Some? then pr.user.value else user)
            && row.defaultPriority == None && row.addedLabels == [] && row.updatedAt == now
            && (pr.mergedAt.None? && pr.mergeable in {None, Some(HasHooks), Some(Unknown)} ==>
                row.mergeStatus.NotReady?)
  {
  }

  /**
   An upsert over a stored row keeps who wrote it and where from, and takes the merge status of
   the new row even where GitHub does not know one.
   */
  lemma UpsertFills(prs: map<PrKey, PrRow>, row: PrRow)
    requires (row.repo, row.number) in prs
    ensures var was := prs[(row.repo, row.number)];
            var r := UpsertRow(prs, row);
            && r.repo == was.repo && r.number == was.number && r.authorId == was.authorId
            && r.sourceBranch == was.sourceBranch && r.defaultPriority == was.defaultPriority
            && r.addedLabels == was.addedLabels
            && r.title == row.title && r.body == row.body && r.mergeStatus == row.mergeStatus
            && r.assignedIds == row.assignedIds && r.status == row.status && r.mergeCommitSha == row.mergeCommitSha
            && r.targetBranch == row.targetBranch && r.latestCommitSha == row.latestCommitSha
            && r.updatedAt == row.updatedAt
  {
  }

  /** The assigned ids are the assignees, each once, in order. */
  lemma AssignedIdsSorted(pr: PullRequest)
    ensures forall i, j :: 0 <= i < j < |AssignedIds(pr)| ==> AssignedIds(pr)[i] < AssignedIds(pr)[j]
    ensures forall u :: u in AssignedIds(pr) <==> u in pr.assignees
  {
    SortDedup(IntLess, pr.assignees);
  }
}
