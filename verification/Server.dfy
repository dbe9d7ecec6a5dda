/**
 The server as the code runs it: tables and GitHub's log as fields that methods change one
 statement at a time, returning early where the code does. Every method is tied to the
 transition that the other modules reason about.
 */
module Server {
  import opened Basics
  import opened CiRuns
  import opened Checks
  import opened PrRows
  import opened Labels
  import opened Store
  import opened Workflow
  import opened Handlers
  import opened Scheduler
  import opened System
  import Approvers

  /** The verdict of a check list whose beginning left some checks missing. */
  function Carry(missing: seq<string>, rest: Verdict): Verdict {
    if missing == [] then rest else
    match rest
    case Broken(c) => Broken(c)
    case Green => Unfinished(missing)
    case Unfinished(ms) => Unfinished(missing + ms)
  }

  /** What one more check, read from the front, does to the verdict. */
  lemma CarryOne(missing: seq<string>, required: seq<string>, view: map<string, Check>)
    requires required != []
    ensures var n, v := required[0], Carry(missing, Judge(required, view));
            if n in view && view[n].status.CheckFailure? then v == Broken(view[n])
            else if n in view && view[n].status.CheckSuccess? then v == Carry(missing, Judge(required[1..], view))
            else v == Carry(missing + [n], Judge(required[1..], view))
  {
    var rest := Judge(required[1..], view);
    if rest.Unfinished? {
      assert missing + ([required[0]] + rest.missing) == (missing + [required[0]]) + rest.missing;
    }
  }

  lemma CarryAll(missing: seq<string>, required: seq<string>, view: map<string, Check>)
    requires required == []
    ensures Carry(missing, Judge(required, view)) == if missing == [] then Green else Unfinished(missing)
  {
  }

  class Brawl {
    var runs: Rows
    var checks: Table
    var prs: map<PrKey, PrRow>
    var next: nat
    var minted: map<string, int>
    var heads: map<int, string>
    var reports: set<Report>
    var pushes: seq<Push>
    var requests: seq<Request>
    var labels: map<PrKey, set<string>>
    const conf: Conf
    var now: int

    function State(): World
      reads this
    {
      World(Db(runs, checks, prs), next, Hub(minted, heads, reports, pushes, requests, labels), conf, now)
    }

    constructor (w: World)
      ensures State() == w
    {
      runs, checks, prs, next := w.db.runs, w.db.checks, w.db.prs, w.next;
      minted, heads, reports := w.hub.minted, w.hub.heads, w.hub.reports;
      pushes, requests, labels := w.hub.pushes, w.hub.requests, w.hub.labels;
      conf, now := w.conf, w.now;
    }

    /** An `UPDATE` of one run row; answers how many rows it reached. */
    method WriteRun(id: nat, f: Filter, c: Change) returns (count: nat)
      modifies this`runs
      ensures runs == Update(old(runs), id, f, c)
      ensures count == if Reaches(old(runs), id, f) then 1 else 0
    {
      count := 0;
      if id in runs && Admits(f, runs[id]) {
        runs := runs[id := Patch(runs[id], c)];
        count := 1;
      }
    }

    method Request(r: Request)
      modifies this`requests
      ensures requests == old(requests) + [r]
    {
      requests := requests + [r];
    }

    /** `update_labels`. */
    method WriteLabels(repo: int, pr: PrRow, status: Status, dry: bool, a: LabelAnswers) returns (res: Outcome)
      modifies this`prs, this`labels
      ensures Out(State(), res) == UpdateLabels(old(State()), repo, pr, status, dry, a)
    {
      hide Desired, Difference, ConfigOf;
      var config := ConfigOf(State(), repo);
      var desired := Desired(status, dry, config.labels);
      var toAdd := Difference(desired, pr.addedLabels);
      var toRemove := Difference(pr.addedLabels, desired);
      DifferenceElements(desired, pr.addedLabels);
      DifferenceElements(pr.addedLabels, desired);
      NoElements(toAdd);
      NoElements(toRemove);
      if toAdd == [] && toRemove == [] {
        return Ok(true);
      }
      var on := (repo, pr.number);
      var present := LabelsOn(State(), on);
      present := AddLabels(present, toAdd, a.refused);
      present := RemoveLabels(present, toRemove, a.refused);
      assert present == CallsOn(LabelsOn(State(), on), pr.addedLabels, desired, a.refused);
      labels := labels[on := present];
      if !a.stored {
        return Err;
      }
      var key := (pr.repo, pr.number);
      if key in prs {
        prs := prs[key := prs[key].(addedLabels := desired, updatedAt := now)];
      }
      return Ok(true);
    }

    // ---- merge_workflow.rs ----

    method FailRun(repo: int, run: Run, pr: PrRow, note: Note, a: FailAnswers) returns (res: Outcome)
      modifies this
      ensures Out(State(), res) == Fail(old(State()), repo, run, pr, note, a)
    {
      if !a.stored { return Err; }
      var count := WriteRun(run.id, Query, Finish(Failure, now));
      if count == 0 { return Err; }
      Request(Comment(repo, pr.number, note));
      if !a.message { return Err; }
      Request(DeleteBranch(repo, run.ciBranch));
      if !a.delete { return Err; }
      res := WriteLabels(repo, pr, Failure, run.dry, a.labels);
    }

    method SucceedRun(repo: int, run: Run, pr: PrRow, a: SuccessAnswers) returns (res: Outcome)
      modifies this
      ensures Out(State(), res) == Succeed(old(State()), repo, run, pr, a)
    {
      if !a.stored { return Err; }
      var count := WriteRun(run.id, NotDone, Finish(Success, now));
      if count == 0 { return Ok(true); }
      if run.sha.None? { return Err; }
      if !a.users { return Err; }
      if run.dry {
        Request(Comment(repo, run.pr, TestsPassed));
        if !a.message { return Err; }
      } else {
        Request(Comment(repo, run.pr, TestsPassedMerge));
        if !a.message { return Err; }
        pushes := pushes + [Push(run.id, repo, pr.targetBranch, run.sha.value, a.push, checks)];
        if !a.push {
          res := FailRun(repo, run, pr, PushRefused, a.fail);
          return;
        }
      }
      Request(DeleteBranch(repo, run.ciBranch));
      res := WriteLabels(repo, pr, Success, run.dry, a.labels);
    }

    method RefreshRun(repo: int, run: Run, pr: PrRow, a: RefreshAnswers) returns (res: Outcome)
      modifies this
      ensures Out(State(), res) == Refresh(old(State()), repo, run, pr, a)
    {
      hide Judge, Fail, Succeed, ByName, ConfigOf;
      if run.completedAt.Some? { return Ok(false); }
      if run.startedAt.None? { return Ok(false); }
      if a.rows.None? { return Err; }
      var view := ByName(a.rows.value);
      var success := true;
      var missing: seq<string> := [];
      var required := ConfigOf(State(), repo).required;
      assert required[0..] == required;
      for i := 0 to |required|
        invariant State() == old(State())
        invariant success <==> missing == []
        invariant Judge(required, view) == Carry(missing, Judge(required[i..], view))
      {
        var name := required[i];
        CarryOne(missing, required[i..], view);
        assert required[i..][1..] == required[i + 1..];
        if name !in view {
          success := false;
          missing := missing + [name];
          continue;
        }
        var check := view[name];
        if check.status == CheckFailure {
          res := FailRun(repo, run, pr, TestsFailed(check.name), a.fail);
          return;
        } else if check.status != CheckSuccess {
          success := false;
          missing := missing + [name];
        }
      }
      CarryAll(missing, required[|required|..], view);
      if success {
        res := SucceedRun(repo, run, pr, a.success);
      } else if now - run.startedAt.value > ConfigOf(State(), repo).timeoutMinutes * MINUTE {
        res := FailRun(repo, run, pr, TestsTimedOut, a.fail);
      } else {
        res := Ok(true);
      }
    }

    method StartRun(repo: int, run: Run, pr: PrRow, a: StartAnswers) returns (res: Outcome)
      modifies this
      ensures Out(State(), res) == Start(old(State()), repo, run, pr, a)
    {
      var base: string;
      match run.base {
        case Commit(sha) => base := sha;
        case Branch(_) =>
          match a.base {
            case BranchErr => return Err;
            case NoBranch =>
              res := FailRun(repo, run, pr, BaseMissing, a.fail);
              return Stopped(res);
            case BranchAt(sha) => base := sha;
          }
      }
      if !a.users { return Err; }
      Request(MakeMerge(repo, base, run.head));
      var commit: string;
      match a.merge {
        case MergeClash =>
          res := FailRun(repo, run, pr, MergeConflict, a.fail);
          return Stopped(res);
        case MergeErr =>
          res := FailRun(repo, run, pr, MergeFailed, a.fail);
          return Stopped(res);
        case MergedAs(sha) => commit := sha;
      }
      minted := minted[commit := repo];
      if !a.stored { return Err; }
      var count := WriteRun(run.id, StillQueued, Begin(commit, now));
      Request(PushCi(repo, run.ciBranch, commit));
      if !a.push {
        res := FailRun(repo, run, pr, CiPushFailed, a.fail);
        return Stopped(res);
      }
      Request(Comment(repo, run.pr, TestsStarted));
      if !a.message { return Err; }
      res := WriteLabels(repo, pr, InProgress, run.dry, a.labels);
    }

    method StopWorkflows(repo: int, sha: string, workflows: seq<WorkflowRun>)
      modifies this`requests
      ensures State() == StopAll(old(State()), repo, sha, workflows)
    {
      for i := 0 to |workflows|
        invariant State() == StopAll(old(State()), repo, sha, workflows[..i])
      {
        assert workflows[..i + 1][..i] == workflows[..i];
        if workflows[i].headSha == sha && !workflows[i].concluded {
          Request(StopWorkflow(repo, workflows[i].id));
        }
      }
      assert workflows[..|workflows|] == workflows;
    }

    method CancelTheRun(repo: int, run: Run, pr: PrRow, a: CancelAnswers) returns (res: Outcome)
      modifies this
      ensures Out(State(), res) == CancelRun(old(State()), repo, run, pr, a)
    {
      if !a.stored { return Err; }
      var count := WriteRun(run.id, NotDone, Finish(Cancelled, now));
      if count == 0 { return Ok(true); }
      if run.sha.Some? {
        if a.workflows.None? { return Err; }
        StopWorkflows(repo, run.sha.value, a.workflows.value);
        Request(DeleteBranch(repo, run.ciBranch));
        if !a.delete { return Err; }
      }
      res := WriteLabels(repo, pr, Cancelled, run.dry, a.labels);
    }

    method AnnounceRun(repo: int, run: Run, pr: PrRow, a: QueuedAnswers) returns (res: Outcome)
      modifies this
      ensures Out(State(), res) == AnnounceQueued(old(State()), repo, run, pr, a)
    {
      if !a.users { return Err; }
      Request(Comment(repo, run.pr, CommitApproved));
      if !a.message { return Err; }
      res := WriteLabels(repo, pr, Queued, run.dry, a.labels);
    }

    // ---- command/*.rs ----

    method UpsertThePr(row: PrRow) returns (stored: PrRow)
      modifies this`prs
      ensures stored == UpsertRow(old(prs), row) && prs == UpsertPr(old(prs), row)
    {
      stored := UpsertRow(prs, row);
      prs := prs[(row.repo, row.number) := stored];
    }

    method InsertTheRun(run: Run)
      modifies this`runs, this`next
      ensures State() == InsertRun(old(State()), run)
    {
      runs := runs[next := run];
      next := next + 1;
    }

    method Tell(repo: int, pr: nat, note: Note, sent: bool) returns (res: Outcome)
      modifies this`requests
      ensures Out(State(), res) == Told(old(State()), repo, pr, note, sent)
    {
      Request(Comment(repo, pr, note));
      res := if sent then Ok(true) else Err;
    }

    method TryPr(repo: int, user: int, pr: PullRequest, args: TryArgs, a: TryAnswers) returns (res: Outcome)
      modifies this
      ensures Out(State(), res) == Try(old(State()), repo, user, pr, args, a)
    {
      hide UpdateLabels, CancelRun, Start, NewRow, UpsertRow;
      if !ConfigOf(State(), repo).enabled { return Ok(true); }
      if a.can.None? { return Err; }
      if !a.can.value { return Ok(true); }
      if pr.mergedAt.Some? {
        res := Tell(repo, pr.number, AlreadyMerged, a.message);
        return;
      }
      var base := Branch(pr.baseRef);
      if args.base.Some? {
        if a.base.CommitErr? { return Err; }
        if a.base.NoCommit? {
          res := Tell(repo, pr.number, BaseNotFound, a.message);
          return;
        }
        base := Commit(a.base.sha);
      }
      var head := pr.headSha;
      if args.head.Some? {
        if a.head.CommitErr? { return Err; }
        if a.head.NoCommit? {
          res := Tell(repo, pr.number, HeadNotFound, a.message);
          return;
        }
        head := a.head.sha;
      }
      var branch := TryBranchOf(State(), repo, pr.number);
      var dbPr := UpsertThePr(NewRow(pr, user, repo, now));
      var active := Active(runs, next, repo, pr.number);
      if active.Some? {
        if active.value.dry {
          res := CancelTheRun(repo, active.value, dbPr, a.cancel);
          if res.Err? { return; }
        } else {
          res := Tell(repo, pr.number, ActiveMerge, a.message);
          return;
        }
      }
      var run := NewRun(State(), repo, pr.number, base, head, branch, DEFAULT_PRIORITY, user, true, []);
      InsertTheRun(run);
      res := StartRun(repo, run, dbPr, a.start);
    }

    method MergePr(repo: int, user: int, pr: PullRequest, priority: Option<int>, a: MergeAnswers) returns (res: Outcome)
      modifies this
      ensures Out(State(), res) == Merge(old(State()), repo, user, pr, priority, a)
    {
      hide AnnounceQueued, NewRow, UpsertRow, Approvers.Compute;
      if !ConfigOf(State(), repo).enabled { return Ok(true); }
      if pr.mergedAt.Some? { return Ok(true); }
      if a.can.None? { return Err; }
      if !a.can.value { return Ok(true); }
      var active := Active(runs, next, repo, pr.number);
      if active.Some? {
        res := Tell(repo, pr.number, RunPending, a.message);
        return;
      }
      var row := NewRow(pr, user, repo, now).(defaultPriority := priority);
      if a.reviews.None? { return Err; }
      var approvers := Approvers.ComputeApprovers(a.reviews.value, row.authorId, pr.requestedReviewers,
                                                  PermissionIn(a.reviewers));
      if approvers.None? { return Err; }
      var dbPr := UpsertThePr(row);
      var given := if priority.Some? then priority else dbPr.defaultPriority;
      var run := NewRun(State(), repo, pr.number, Branch(pr.baseRef), pr.headSha,
                        MergeBranchOf(State(), repo, pr.baseRef),
                        if given.Some? then given.value else DEFAULT_PRIORITY, user, false, approvers.value);
      InsertTheRun(run);
      res := AnnounceRun(repo, run, dbPr, a.queued);
    }

    method RetryPr(repo: int, user: int, pr: PullRequest, a: RetryAnswers) returns (res: Outcome)
      modifies this
      ensures Out(State(), res) == Retry(old(State()), repo, user, pr, a)
    {
      hide AnnounceQueued, Start, NewRow, UpsertRow;
      if !ConfigOf(State(), repo).enabled { return Ok(true); }
      var dbPr := UpsertThePr(NewRow(pr, user, repo, now));
      var latest := Latest(runs, next, repo, pr.number);
      if latest.None? {
        res := Tell(repo, pr.number, NeverRun, a.message);
        return;
      }
      var last := latest.value;
      if last.completedAt.None? {
        res := Tell(repo, pr.number, NotCompleted, a.message);
        return;
      }
      if a.can.None? { return Err; }
      if !a.can.value { return Ok(true); }
      var run := NewRun(State(), repo, pr.number, last.base, last.head, last.ciBranch, last.priority, user, last.dry,
                        last.approvedBy);
      InsertTheRun(run);
      if run.dry {
        res := StartRun(repo, run, dbPr, a.start);
      } else {
        res := AnnounceRun(repo, run, dbPr, a.queued);
      }
    }

    method CancelPr(repo: int, user: int, pr: PullRequest, a: CancelCommandAnswers) returns (res: Outcome)
      modifies this
      ensures Out(State(), res) == Cancel(old(State()), repo, user, pr, a)
    {
      hide CancelRun, NewRow, UpsertRow;
      var dbPr := UpsertThePr(NewRow(pr, user, repo, now));
      var active := Active(runs, next, repo, pr.number);
      if active.Some? {
        if a.can.None? { return Err; }
        if !a.can.value { return Ok(true); }
        res := CancelTheRun(repo, active.value, dbPr, a.cancel);
        if res.Err? { return; }
        res := Tell(repo, pr.number, RunCancelled, a.message);
        return;
      }
      return Ok(true);
    }

    // ---- webhook/*.rs ----

    method PrReported(repo: int, user: int, pr: PullRequest, a: PrAnswers) returns (res: Outcome)
      modifies this
      ensures Out(State(), res) == PrChange(old(State()), repo, user, pr, a)
    {
      hide CancelRun, NewRow, UpdateFrom, InMemory, Stored;
      var key := (repo, pr.number);
      if key in prs {
        var update := UpdateFrom(prs[key], pr, now);
        if NeedsUpdate(update) {
          var cell := new PrCell(prs[key]);
          prs := prs[key := Stored(update, prs[key])];
          cell.UpdatePr(update);
          var current := cell.Row();
          var active := Active(runs, next, repo, pr.number);
          if active.Some? && !active.value.dry {
            res := CancelTheRun(repo, active.value, current, a.cancel);
            if res.Err? { return; }
            res := Tell(repo, active.value.pr, PrChanged, a.message);
            return;
          }
        }
      } else {
        prs := prs[key := NewRow(pr, user, repo, now)];
      }
      return Ok(true);
    }

    method CheckReported(repo: int, c: CheckReport, a: RefreshAnswers) returns (res: Outcome)
      modifies this
      ensures Out(State(), res) == CheckRun(old(State()), repo, c, a)
    {
      hide Refresh;
      var found := BySha(runs, next, c.headSha);
      if found.None? { return Ok(true); }
      var run := found.value;
      if run.completedAt.Some? { return Ok(true); }
      var required := IsRequired(ConfigOf(State(), repo).required, c.name);
      if (run.repo, run.pr) !in prs { return Err; }
      var pr := prs[(run.repo, run.pr)];
      checks := Upsert(checks, NewCheck(c, run.id, required, now));
      if required {
        res := RefreshRun(repo, run, pr, a);
        return;
      }
      return Ok(true);
    }

    // ---- auto_start.rs ----

    method HandleOne(run: Run, a: HandleAnswers) returns (res: Outcome)
      modifies this
      ensures Out(State(), res) == HandleRun(old(State()), run, a)
    {
      hide Start, Refresh;
      if (run.repo, run.pr) !in prs { return Err; }
      var pr := prs[(run.repo, run.pr)];
      if run.startedAt.None? {
        res := StartRun(run.repo, run, pr, a.start);
      } else {
        res := RefreshRun(run.repo, run, pr, a.refresh);
      }
    }

    /** `process_pending_runs`: a run without a client is skipped, and an error only concerns its own run. */
    method ProcessPendingRuns(list: seq<Run>, clients: seq<bool>, answers: seq<HandleAnswers>)
      requires |clients| == |answers| == |list|
      modifies this
      ensures State() == HandleAll(old(State()), list, clients, answers)
    {
      hide HandleRun;
      assert list[0..] == list && clients[0..] == clients && answers[0..] == answers;
      for i := 0 to |list|
        invariant HandleAll(old(State()), list, clients, answers)
               == HandleAll(State(), list[i..], clients[i..], answers[i..])
      {
        assert list[i..][1..] == list[i + 1..] && clients[i..][1..] == clients[i + 1..]
               && answers[i..][1..] == answers[i + 1..];
        if !clients[i] { continue; }
        var res := HandleOne(list[i], answers[i]);
      }
    }

    // ---- webhook/mod.rs ----

    /** A webhook: its handler inside a transaction. An error, or a refused commit, restores the tables. */
    method Serve(e: Event)
      requires IsWebhook(e)
      modifies this
      ensures forall work, horizon :: Sys(State(), work, horizon) == Apply(Sys(old(State()), work, horizon), e)
    {
      hide Try, Merge, Retry, Cancel, PrChange, CheckRun;
      var runs0, checks0, prs0 := runs, checks, prs;
      var res: Outcome;
      match e {
        case TryCommand(repo, user, pr, args, a, _) => res := TryPr(repo, user, pr, args, a);
        case MergeCommand(repo, user, pr, priority, a, _) => res := MergePr(repo, user, pr, priority, a);
        case RetryCommand(repo, user, pr, a, _) => res := RetryPr(repo, user, pr, a);
        case CancelCommand(repo, user, pr, a, _) => res := CancelPr(repo, user, pr, a);
        case PrEvent(repo, user, pr, a, _) => res := PrReported(repo, user, pr, a);
        case CheckEvent(repo, c, a, _) =>
          heads := heads[c.id := c.headSha];
          reports := reports + {Report(c.headSha, c.name, c.conclusion)};
          assert State() == Hear(old(State()), c);
          res := CheckReported(repo, c, a);
      }
      if res.Err? || !e.commit {
        runs, checks, prs := runs0, checks0, prs0;
      }
    }
  }

  /** A tick nobody interferes with: the items one after the other. */
  function HandleAll(w: World, list: seq<Run>, clients: seq<bool>, answers: seq<HandleAnswers>): World
    requires |clients| == |answers| == |list|
    decreases |list|
  {
    if list == [] then w
    else HandleAll(if clients[0] then HandleRun(w, list[0], answers[0]).w else w, list[1..], clients[1..], answers[1..])
  }

  /** The steps of such a tick in the interleaved system. */
  function TickSteps(clients: seq<bool>, answers: seq<HandleAnswers>): seq<Event>
    requires |clients| == |answers|
  {
    seq(|clients|, i requires 0 <= i < |clients| => if clients[i] then Handle(answers[i]) else Skip)
  }

  /** The loop over the work list is a run of the interleaved system in which only the scheduler moves. */
  lemma {:induction false} TickIsARun(w: World, list: seq<Run>, horizon: nat, clients: seq<bool>,
                                      answers: seq<HandleAnswers>)
    requires |clients| == |answers| == |list|
    requires ValidTrace(Sys(w, list, horizon), TickSteps(clients, answers))
    ensures RunTrace(Sys(w, list, horizon), TickSteps(clients, answers))
         == Sys(HandleAll(w, list, clients, answers), [], horizon)
    decreases |list|
  {
    hide HandleRun, Enabled;
    if list != [] {
      assert TickSteps(clients, answers)[1..] == TickSteps(clients[1..], answers[1..]);
      var w1 := if clients[0] then HandleRun(w, list[0], answers[0]).w else w;
      TickIsARun(w1, list[1..], horizon, clients[1..], answers[1..]);
    }
  }
}
