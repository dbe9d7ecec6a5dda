/** Status check rows (server/src/database/ci_run_check.rs). */
module Checks {
  import opened Basics

  datatype CheckStatus = CheckPending | CheckSuccess | CheckFailure | CheckSkipped | CheckCancelled

  datatype Conclusion =
    | ConclSuccess | ConclFailure | ConclNeutral | ConclCancelled | ConclSkipped | ConclTimedOut | ConclActionRequired

  /** `CheckRunEvent`, as far as it is stored. */
  datatype CheckReport = CheckReport(
    id: int, name: string, headSha: string, htmlUrl: Option<string>, detailsUrl: Option<string>, url: string,
    startedAt: Option<int>, completedAt: Option<int>, conclusion: Option<Conclusion>)

  datatype Check = Check(
    id: int, run: nat, name: string, status: CheckStatus, startedAt: int, completedAt: Option<int>,
    url: string, required: bool)

  type Table = map<int, Check>

  function ConvertStatus(c: Option<Conclusion>): CheckStatus {
    match c
    case None => CheckPending
    case Some(ConclSuccess) => CheckSuccess
    case Some(ConclTimedOut) => CheckFailure
    case Some(ConclFailure) => CheckFailure
    case Some(ConclCancelled) => CheckCancelled
    case Some(ConclSkipped) => CheckSkipped
    case Some(ConclActionRequired) => CheckFailure
    case Some(ConclNeutral) => CheckPending
  }

  function NewCheck(c: CheckReport, run: nat, required: bool, now: int): Check {
    Check(c.id, run, c.name, ConvertStatus(c.conclusion),
          if c.startedAt.Some? then c.startedAt.value else now, c.completedAt,
          if c.htmlUrl.Some? then c.htmlUrl.value else if c.detailsUrl.Some? then c.detailsUrl.value else c.url,
          required)
  }

  function Upsert(t: Table, c: Check): Table {
    t[c.id := c]
  }

  /** What `for_run` may answer: the rows of the run, each once, in any order. */
  ghost predicate RowsFor(rows: seq<Check>, t: Table, run: nat) {
    && (forall i :: 0 <= i < |rows| ==> rows[i].id in t && t[rows[i].id] == rows[i] && rows[i].run == run)
    && (forall k :: k in t && t[k].run == run ==> t[k] in rows)
    && (forall i, j :: 0 <= i < j < |rows| ==> rows[i] != rows[j])
  }

  /** Rows collected into a map by name: a later row of a name replaces an earlier one. */
  function ByName(rows: seq<Check>): (m: map<string, Check>)
    ensures forall n :: n in m ==> m[n] in rows && m[n].name == n
    ensures forall c :: c in rows ==> c.name in m
  {
    if rows == [] then map[] else
    assert rows == rows[..|rows| - 1] + [rows[|rows| - 1]];
    ByName(rows[..|rows| - 1])[rows[|rows| - 1].name := rows[|rows| - 1]]
  }

  /** What the required checks say about a run. */
  datatype Verdict = Broken(check: Check) | Green | Unfinished(missing: seq<string>)

  /** The loop of `refresh`: the first failed check decides; anything else short of success is waited for. */
  function Judge(required: seq<string>, view: map<string, Check>): (v: Verdict)
    ensures v.Green? <==> forall n :: n in required ==> n in view && view[n].status.CheckSuccess?
    ensures v.Broken? ==> v.check.status.CheckFailure?
    ensures v.Broken? ==> exists n :: n in required && n in view && view[n] == v.check
    ensures (exists n :: n in required && n in view && view[n].status.CheckFailure?) ==> v.Broken?
    ensures v.Unfinished? ==> forall n :: n in v.missing <==>
              n in required && !(n in view && view[n].status.CheckSuccess?)
  {
    if required == [] then Green else
    var n := required[0];
    assert forall m :: m in required <==> m == n || m in required[1..];
    if n in view && view[n].status.CheckFailure? then Broken(view[n])
    else
      match Judge(required[1..], view)
      case Broken(c) => Broken(c)
      case Green => if n in view && view[n].status.CheckSuccess? then Green else Unfinished([n])
      case Unfinished(ms) =>
        if n in view && view[n].status.CheckSuccess? then Unfinished(ms) else Unfinished([n] + ms)
  }

  /** Every required name has a Success row of the run in the table. */
  ghost predicate GreenRows(t: Table, run: nat, required: seq<string>) {
    forall n :: n in required ==> exists k :: k in t && t[k].run == run && t[k].name == n && t[k].status.CheckSuccess?
  }

  /** No two rows of one run share a name. */
  ghost predicate OneRowPerName(t: Table, run: nat) {
    forall j, k :: j in t && k in t && t[j].run == run && t[k].run == run && t[j].name == t[k].name ==> j == k
  }

  /** Whatever the row order, a green verdict is backed by Success rows. */
  lemma GreenIsBacked(t: Table, run: nat, rows: seq<Check>, required: seq<string>)
    requires RowsFor(rows, t, run)
    requires Judge(required, ByName(rows)).Green?
    ensures GreenRows(t, run, required)
  {
    var view := ByName(rows);
    forall n | n in required
      ensures exists k :: k in t && t[k].run == run && t[k].name == n && t[k].status.CheckSuccess?
    {
      assert view[n] in rows;
      assert t[view[n].id] == view[n];
    }
  }

  /** No row of a required name of the run is short of success. */
  ghost predicate NoneAgainst(t: Table, run: nat, required: seq<string>) {
    forall k :: k in t && t[k].run == run && t[k].name in required ==> t[k].status.CheckSuccess?
  }

  ghost predicate KeyedById(t: Table) {
    forall k :: k in t ==> t[k].id == k
  }

  /** The rows of a run in some order. */
  lemma {:induction false} ListRows(t: Table, run: nat) returns (rows: seq<Check>)
    requires KeyedById(t)
    ensures RowsFor(rows, t, run)
    decreases |t|
  {
    if k :| k in t {
      if t[k].run == run {
        rows := EndingWith(t, run, k);
      } else {
        rows := ListRows(t - {k}, run);
        assert forall j :: j in t && t[j].run == run ==> j in t - {k} && (t - {k})[j] == t[j];
      }
    } else {
      rows := [];
    }
  }

  /** An order in which a given row of the run is the last one. */
  lemma {:induction false} EndingWith(t: Table, run: nat, k: int) returns (rows: seq<Check>)
    requires KeyedById(t) && k in t && t[k].run == run
    ensures RowsFor(rows, t, run) && rows != [] && rows[|rows| - 1] == t[k]
    ensures t[k].name in ByName(rows) && ByName(rows)[t[k].name] == t[k]
    decreases |t|, 0
  {
    var rest := ListRows(t - {k}, run);
    rows := rest + [t[k]];
    assert rows[..|rows| - 1] == rest;
    forall j | j in t && t[j].run == run
      ensures t[j] in rows
    {
      if j != k {
        assert t[j] == (t - {k})[j] && t[j] in rest;
      }
    }
  }

  /** The verdict is green in every order of the rows exactly when each required name has a success and nothing else. */
  lemma GreenInEveryOrderExactly(t: Table, run: nat, required: seq<string>)
    requires KeyedById(t)
    ensures (forall rows :: RowsFor(rows, t, run) ==> Judge(required, ByName(rows)).Green?)
            <==> GreenRows(t, run, required) && NoneAgainst(t, run, required)
  {
    if GreenRows(t, run, required) && NoneAgainst(t, run, required) {
      forall rows | RowsFor(rows, t, run)
        ensures Judge(required, ByName(rows)).Green?
      {
        NoneAgainstIsGreen(t, run, rows, required);
      }
    } else if k :| k in t && t[k].run == run && t[k].name in required && !t[k].status.CheckSuccess? {
      var rows := EndingWith(t, run, k);
      assert !Judge(required, ByName(rows)).Green?;
    } else {
      var rows := ListRows(t, run);
      if Judge(required, ByName(rows)).Green? {
        GreenIsBacked(t, run, rows, required);
      }
    }
  }

  lemma NoneAgainstIsGreen(t: Table, run: nat, rows: seq<Check>, required: seq<string>)
    requires RowsFor(rows, t, run) && GreenRows(t, run, required) && NoneAgainst(t, run, required)
    ensures Judge(required, ByName(rows)).Green?
  {
    var view := ByName(rows);
    forall n | n in required
      ensures n in view && view[n].status.CheckSuccess?
    {
      var k :| k in t && t[k].run == run && t[k].name == n && t[k].status.CheckSuccess?;
      assert t[k] in rows;
      assert view[n] in rows && view[n].name == n;
      assert t[view[n].id] == view[n];
    }
  }

  /** With one row per name, Success rows give a green verdict in every row order. */
  lemma BackedIsGreen(t: Table, run: nat, rows: seq<Check>, required: seq<string>)
    requires RowsFor(rows, t, run) && OneRowPerName(t, run) && GreenRows(t, run, required)
    ensures Judge(required, ByName(rows)).Green?
  {
    assert NoneAgainst(t, run, required);
    NoneAgainstIsGreen(t, run, rows, required);
  }

  /** Two rows of one run share a name, and only one is a success: the order of the rows decides. */
  lemma SharedNameIsDecidedByOrder(t: Table, run: nat, j: int, k: int)
    requires KeyedById(t) && j in t && k in t && t[j].run == t[k].run == run && t[j].name == t[k].name
    requires t[j].status.CheckSuccess? && !t[k].status.CheckSuccess?
    ensures exists rows, rows2 :: RowsFor(rows, t, run) && RowsFor(rows2, t, run)
              && Judge([t[j].name], ByName(rows)).Green? && !Judge([t[j].name], ByName(rows2)).Green?
  {
    var rows := EndingWith(t, run, j);
    var rows2 := EndingWith(t, run, k);
    assert Judge([t[j].name], ByName(rows)).Green? && !Judge([t[j].name], ByName(rows2)).Green?;
  }

  // ---- Names compared without case ----

  function Lower(c: char): char {
    if 'A' <= c <= 'Z' then c - 'A' + 'a' else c
  }

  predicate SameIgnoringCase(a: string, b: string) {
    |a| == |b| && forall i :: 0 <= i < |a| ==> Lower(a[i]) == Lower(b[i])
  }

  predicate IsRequired(required: seq<string>, name: string) {
    exists i :: 0 <= i < |required| && SameIgnoringCase(required[i], name)
  }

  /** Two characters are the same up to the case of a basic Latin letter. */
  predicate SameLetter(a: char, b: char) {
    a == b || ('A' <= a <= 'Z' && b as int == a as int + 32) || ('A' <= b <= 'Z' && a as int == b as int + 32)
  }

  /** A check is required when its name is listed, up to case. */
  lemma RequiredExactly(required: seq<string>, name: string)
    ensures IsRequired(required, name) <==>
            exists i :: 0 <= i < |required| && |required[i]| == |name|
                        && forall k :: 0 <= k < |name| ==> SameLetter(required[i][k], name[k])
  {
    assert forall a: char, b: char :: Lower(a) == Lower(b) <==> SameLetter(a, b);
    if i :| 0 <= i < |required| && |required[i]| == |name|
            && forall k :: 0 <= k < |name| ==> SameLetter(required[i][k], name[k])
    {
      assert SameIgnoringCase(required[i], name);
    }
  }
}
