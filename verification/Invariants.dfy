/** What holds of the tables and of GitHub's log at every moment, also inside a transaction. */
module Invariants {
  import opened Basics
  import opened CiRuns
  import opened Checks
  import opened Store
  import BranchNames

  ghost predicate Keyed(runs: Rows, next: nat) {
    forall i :: i in runs ==> runs[i].id == i < next
  }

  ghost predicate AllCoherent(runs: Rows) {
    forall i :: i in runs ==> Coherent(runs[i])
  }

  /** A run's commit is a merge commit GitHub made for its repository. */
  ghost predicate ShasMinted(runs: Rows, minted: map<string, int>) {
    forall i :: i in runs && runs[i].sha.Some? ==>
      runs[i].sha.value in minted && minted[runs[i].sha.value] == runs[i].repo
  }

  ghost predicate ShasDistinct(runs: Rows) {
    forall i, j :: i in runs && j in runs && runs[i].sha.Some? && runs[i].sha == runs[j].sha ==> i == j
  }

  predicate SamePr(a: Run, b: Run) {
    a.repo == b.repo && a.pr == b.pr
  }

  predicate SameGroup(a: Run, b: Run) {
    a.repo == b.repo && a.ciBranch == b.ciBranch
  }

  /** The uncompleted run of a pull request is its only one, and its newest run. */
  ghost predicate ActiveIsLast(runs: Rows) {
    forall i, j :: i in runs && j in runs && runs[i].completedAt.None? && SamePr(runs[i], runs[j]) ==> j <= i
  }

  predicate BothInProgress(a: Run, b: Run) {
    a.status.InProgress? && b.status.InProgress? && SameGroup(a, b)
  }

  /** At most one run in progress per repository and CI branch. */
  ghost predicate OneInProgress(runs: Rows) {
    forall i, j :: i in runs && j in runs && BothInProgress(runs[i], runs[j]) ==> i == j
  }

  /** A try's CI branch is its pull request's try branch; a merge's is a merge branch. */
  predicate Named(r: Run, conf: Conf) {
    && r.repo in conf
    && (if r.dry then r.ciBranch == BranchNames.TryBranch(conf[r.repo].tryPrefix, r.pr)
        else BranchNames.Stem(conf[r.repo].mergePrefix) <= r.ciBranch)
  }

  ghost predicate AllNamed(runs: Rows, conf: Conf) {
    forall i :: i in runs ==> Named(runs[i], conf)
  }

  /** A check row belongs to the run whose commit GitHub reported it for. */
  ghost predicate Attached(c: Check, k: int, runs: Rows, heads: map<int, string>, reports: set<Report>) {
    && c.id == k && c.run in runs && runs[c.run].sha.Some?
    && k in heads && heads[k] == runs[c.run].sha.value
    && Reported(reports, runs[c.run].sha.value, c.name, c.status)
  }

  ghost predicate ChecksAttached(t: Table, runs: Rows, heads: map<int, string>, reports: set<Report>) {
    forall k :: k in t ==> Attached(t[k], k, runs, heads, reports)
  }

  function RequiredBy(conf: Conf, repo: int): seq<string> {
    if repo in conf then conf[repo].required else MISSING_CONFIG.required
  }

  /** The check rows of a Success run stay green. */
  ghost predicate SuccessIsGreen(runs: Rows, t: Table, conf: Conf) {
    forall i :: i in runs && runs[i].status.Success? ==> GreenRows(t, i, RequiredBy(conf, runs[i].repo))
  }

  /** A push carries a merge run's own commit, and every required check was green for that commit. */
  ghost predicate Justified(p: Push, runs: Rows, reports: set<Report>, conf: Conf) {
    && p.run in runs && !runs[p.run].dry && runs[p.run].sha == Some(p.sha) && runs[p.run].repo == p.repo
    && GreenRows(p.table, p.run, RequiredBy(conf, p.repo))
    && (forall k :: k in p.table && p.table[k].run == p.run ==>
          Reported(reports, p.sha, p.table[k].name, p.table[k].status))
  }

  ghost predicate PushesJustified(pushes: seq<Push>, runs: Rows, reports: set<Report>, conf: Conf) {
    forall k :: 0 <= k < |pushes| ==> Justified(pushes[k], runs, reports, conf)
  }

  ghost predicate RunsInv(runs: Rows, next: nat, minted: map<string, int>, conf: Conf) {
    && Keyed(runs, next) && AllCoherent(runs) && ShasMinted(runs, minted) && ShasDistinct(runs)
    && ActiveIsLast(runs) && OneInProgress(runs) && AllNamed(runs, conf) && ConfOk(conf)
  }

  ghost predicate LogInv(runs: Rows, t: Table, hub: Hub, conf: Conf) {
    && ChecksAttached(t, runs, hub.heads, hub.reports) && SuccessIsGreen(runs, t, conf)
    && PushesJustified(hub.pushes, runs, hub.reports, conf)
  }

  ghost predicate Inv(w: World) {
    RunsInv(w.db.runs, w.next, w.hub.minted, w.conf) && LogInv(w.db.runs, w.db.checks, w.hub, w.conf)
  }

  // ---- One row is written ----

  /** What a write of one row must respect beyond letting the row evolve. */
  ghost predicate MayWrite(runs: Rows, id: nat, r: Run, minted: map<string, int>, t: Table, conf: Conf) {
    && id in runs && Evolves(runs[id], r) && Coherent(r)
    && (r.sha.Some? && runs[id].sha.None? ==>
          r.sha.value in minted && minted[r.sha.value] == r.repo
          && forall i :: i in runs ==> runs[i].sha != r.sha)
    && (r.status.InProgress? && !runs[id].status.InProgress? ==>
          forall i :: i in runs && SameGroup(runs[i], r) ==> !runs[i].status.InProgress?)
    && (r.status.Success? ==> GreenRows(t, id, RequiredBy(conf, r.repo)))
  }

  lemma WriteKeepsRuns(runs: Rows, next: nat, minted: map<string, int>, conf: Conf, id: nat, r: Run, t: Table)
    requires RunsInv(runs, next, minted, conf) && MayWrite(runs, id, r, minted, t, conf)
    ensures RunsInv(runs[id := r], next, minted, conf)
  {
    WriteKeepsShas(runs, minted, id, r, t, conf);
    WriteKeepsActive(runs, id, r);
    WriteKeepsGroups(runs, id, r, minted, t, conf);
    hide ShasDistinct, ActiveIsLast, OneInProgress, BranchNames.Stem, GreenRows;
  }

  lemma WriteKeepsShas(runs: Rows, minted: map<string, int>, id: nat, r: Run, t: Table, conf: Conf)
    requires ShasDistinct(runs) && MayWrite(runs, id, r, minted, t, conf)
    ensures ShasDistinct(runs[id := r])
  {
    hide GreenRows, Coherent, SameGroup;
  }

  lemma WriteKeepsActive(runs: Rows, id: nat, r: Run)
    requires ActiveIsLast(runs) && id in runs && Evolves(runs[id], r)
    ensures ActiveIsLast(runs[id := r])
  {
  }

  lemma WriteKeepsGroups(runs: Rows, id: nat, r: Run, minted: map<string, int>, t: Table, conf: Conf)
    requires OneInProgress(runs) && MayWrite(runs, id, r, minted, t, conf)
    ensures OneInProgress(runs[id := r])
  {
    hide GreenRows, Coherent;
  }

  lemma WriteKeepsLog(runs: Rows, t: Table, hub: Hub, conf: Conf, id: nat, r: Run, minted: map<string, int>)
    requires LogInv(runs, t, hub, conf) && MayWrite(runs, id, r, minted, t, conf)
    ensures LogInv(runs[id := r], t, hub, conf)
  {
    forall k | k in t
      ensures Attached(t[k], k, runs[id := r], hub.heads, hub.reports)
    {
      assert Attached(t[k], k, runs, hub.heads, hub.reports);
    }
    forall k | 0 <= k < |hub.pushes|
      ensures Justified(hub.pushes[k], runs[id := r], hub.reports, conf)
    {
      assert Justified(hub.pushes[k], runs, hub.reports, conf);
    }
  }

  /** More merge commits change nothing for the rows there are. */
  lemma MintKeeps(runs: Rows, next: nat, minted: map<string, int>, conf: Conf, sha: string, repo: int)
    requires RunsInv(runs, next, minted, conf) && sha !in minted
    ensures RunsInv(runs, next, minted[sha := repo], conf)
    ensures forall i :: i in runs ==> runs[i].sha != Some(sha)
  {
  }

  // ---- A row is added ----

  lemma InsertKeepsRuns(runs: Rows, next: nat, minted: map<string, int>, conf: Conf, r: Run)
    requires RunsInv(runs, next, minted, conf)
    requires r.id == next && r.status.Queued? && r.sha.None? && r.startedAt.None? && r.completedAt.None?
    requires Named(r, conf)
    requires forall i :: i in runs && SamePr(runs[i], r) ==> runs[i].completedAt.Some?
    ensures RunsInv(runs[next := r], next + 1, minted, conf)
  {
    InsertKeepsActive(runs, next, r);
    InsertKeepsGroups(runs, next, r);
    hide ActiveIsLast, OneInProgress;
  }

  lemma InsertKeepsActive(runs: Rows, next: nat, r: Run)
    requires Keyed(runs, next) && ActiveIsLast(runs) && r.completedAt.None?
    requires forall i :: i in runs && SamePr(runs[i], r) ==> runs[i].completedAt.Some?
    ensures ActiveIsLast(runs[next := r])
  {
  }

  lemma InsertKeepsGroups(runs: Rows, next: nat, r: Run)
    requires Keyed(runs, next) && OneInProgress(runs) && r.status.Queued?
    ensures OneInProgress(runs[next := r])
  {
  }

  lemma InsertKeepsLog(runs: Rows, next: nat, t: Table, hub: Hub, conf: Conf, r: Run)
    requires Keyed(runs, next) && LogInv(runs, t, hub, conf)
    requires r.status.Queued?
    ensures LogInv(runs[next := r], t, hub, conf)
  {
    var runs2 := runs[next := r];
    assert forall i :: i in runs ==> i < next && runs2[i] == runs[i];
    forall k | k in t
      ensures Attached(t[k], k, runs2, hub.heads, hub.reports)
    {
      assert Attached(t[k], k, runs, hub.heads, hub.reports);
    }
    forall k | 0 <= k < |hub.pushes|
      ensures Justified(hub.pushes[k], runs2, hub.reports, conf)
    {
      assert Justified(hub.pushes[k], runs, hub.reports, conf);
    }
  }

  // ---- A check is stored ----

  lemma StoreCheckKeeps(runs: Rows, next: nat, t: Table, hub: Hub, conf: Conf, c: Check)
    requires RunsInv(runs, next, hub.minted, conf) && LogInv(runs, t, hub, conf)
    requires c.run in runs && runs[c.run].completedAt.None?
    requires Attached(c, c.id, runs, hub.heads, hub.reports)
    ensures LogInv(runs, Upsert(t, c), hub, conf)
  {
    var t2 := Upsert(t, c);
    forall i | i in runs && runs[i].status.Success?
      ensures GreenRows(t2, i, RequiredBy(conf, runs[i].repo))
    {
      StoreCheckKeepsGreen(runs, t, hub, c, i, RequiredBy(conf, runs[i].repo));
    }
  }

  /** A row that replaces another belongs to the same run, so completed runs keep their rows. */
  lemma StoreCheckKeepsGreen(runs: Rows, t: Table, hub: Hub, c: Check, i: nat, required: seq<string>)
    requires AllCoherent(runs) && ShasDistinct(runs) && ChecksAttached(t, runs, hub.heads, hub.reports)
    requires c.run in runs && runs[c.run].completedAt.None? && Attached(c, c.id, runs, hub.heads, hub.reports)
    requires i in runs && runs[i].completedAt.Some? && GreenRows(t, i, required)
    ensures GreenRows(Upsert(t, c), i, required)
  {
    var t2 := Upsert(t, c);
    forall n | n in required
      ensures exists k :: k in t2 && t2[k].run == i && t2[k].name == n && t2[k].status.CheckSuccess?
    {
      var k :| k in t && t[k].run == i && t[k].name == n && t[k].status.CheckSuccess?;
      assert Attached(t[k], k, runs, hub.heads, hub.reports);
      assert k != c.id;
      assert t2[k] == t[k];
    }
  }

  // ---- GitHub reports a check ----

  lemma HearKeeps(runs: Rows, t: Table, hub: Hub, conf: Conf, id: int, sha: string, report: Report)
    requires LogInv(runs, t, hub, conf) && (id in hub.heads ==> hub.heads[id] == sha)
    ensures LogInv(runs, t, hub.(heads := hub.heads[id := sha], reports := hub.reports + {report}), conf)
  {
    var hub2 := hub.(heads := hub.heads[id := sha], reports := hub.reports + {report});
    forall k | k in t
      ensures Attached(t[k], k, runs, hub2.heads, hub2.reports)
    {
      assert Attached(t[k], k, runs, hub.heads, hub.reports);
    }
    forall k | 0 <= k < |hub.pushes|
      ensures Justified(hub.pushes[k], runs, hub2.reports, conf)
    {
      assert Justified(hub.pushes[k], runs, hub.reports, conf);
    }
  }

  // ---- Two tries never meet in one group ----

  /** Runs in the group of a try are tries of the same pull request. */
  lemma TryGroup(a: Run, b: Run, conf: Conf)
    requires Named(a, conf) && Named(b, conf) && ConfOk(conf) && a.dry && SameGroup(a, b)
    ensures b.dry && SamePr(a, b)
  {
    var c := conf[a.repo];
    if b.dry {
      BranchNames.TryBranchInjective(c.tryPrefix, a.pr, b.pr);
    } else {
      var t := b.ciBranch[|BranchNames.Stem(c.mergePrefix)|..];
      assert b.ciBranch == BranchNames.MergeBranch(c.mergePrefix, t);
      BranchNames.NoClash(c.tryPrefix, c.mergePrefix, a.pr, t);
    }
  }
}
