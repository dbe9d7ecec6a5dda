/** Labels on pull requests (server/src/github/label_state.rs). */
module Labels {
  import opened Sorting
  import opened CiRuns

  datatype LabelsConfig = LabelsConfig(
    onMergeQueued: seq<string>, onMergeInProgress: seq<string>, onMergeFailure: seq<string>,
    onMergeSuccess: seq<string>, onTryInProgress: seq<string>, onTryFailure: seq<string>)

  function Configured(status: Status, dry: bool, c: LabelsConfig): seq<string> {
    match (status, dry)
    case (Queued, false) => c.onMergeQueued
    case (InProgress, true) => c.onTryInProgress
    case (InProgress, false) => c.onMergeInProgress
    case (Failure, true) => c.onTryFailure
    case (Failure, false) => c.onMergeFailure
    case (Success, false) => c.onMergeSuccess
    case _ => []
  }

  function Desired(status: Status, dry: bool, c: LabelsConfig): seq<string> {
    Dedup(Sort(TextLess, Configured(status, dry, c)))
  }

  function Elements(s: seq<string>): set<string> {
    set x | x in s
  }

  lemma NoElements(s: seq<string>)
    ensures Elements(s) == {} <==> s == []
  {
    assert s != [] ==> s[0] in Elements(s);
  }

  /** The labels recorded in the database, and the labels on the pull request. */
  datatype Board = Board(recorded: seq<string>, present: set<string>)

  /** GitHub's answers: the labels it refuses to add or remove, and whether the row is stored. */
  datatype LabelAnswers = LabelAnswers(refused: set<string>, stored: bool)

  function ToAdd(recorded: seq<string>, desired: seq<string>): set<string> {
    Elements(desired) - Elements(recorded)
  }

  function ToRemove(recorded: seq<string>, desired: seq<string>): set<string> {
    Elements(recorded) - Elements(desired)
  }

  /** The labels of `a` that are not in `b`, as the sorted list the calls are made from. */
  function Difference(a: seq<string>, b: seq<string>): seq<string> {
    Dedup(Sort(TextLess, Without(a, b)))
  }

  function Without(a: seq<string>, b: seq<string>): seq<string> {
    if a == [] then [] else if a[0] in b then Without(a[1..], b) else [a[0]] + Without(a[1..], b)
  }

  lemma {:induction false} WithoutElements(a: seq<string>, b: seq<string>)
    ensures forall l :: l in Without(a, b) <==> l in a && l !in b
  {
    if a != [] {
      WithoutElements(a[1..], b);
      assert forall l :: l in a <==> l == a[0] || l in a[1..];
    }
  }

  lemma DifferenceElements(a: seq<string>, b: seq<string>)
    ensures Elements(Difference(a, b)) == Elements(a) - Elements(b)
  {
    WithoutElements(a, b);
    TextLessStrictTotal();
    SortDedup(TextLess, Without(a, b));
  }

  /** The calls that add labels, one by one; a refused one is only logged. */
  method AddLabels(present: set<string>, labels: seq<string>, refused: set<string>) returns (now: set<string>)
    ensures now == present + (Elements(labels) - refused)
  {
    now := present;
    for i := 0 to |labels|
      invariant now == present + (Elements(labels[..i]) - refused)
    {
      assert labels[..i + 1] == labels[..i] + [labels[i]];
      assert Elements(labels[..i + 1]) == Elements(labels[..i]) + {labels[i]};
      if labels[i] !in refused {
        now := now + {labels[i]};
      }
    }
    assert labels[..|labels|] == labels;
  }

  /** The calls that remove labels. */
  method RemoveLabels(present: set<string>, labels: seq<string>, refused: set<string>) returns (now: set<string>)
    ensures now == present - (Elements(labels) - refused)
  {
    now := present;
    for i := 0 to |labels|
      invariant now == present - (Elements(labels[..i]) - refused)
    {
      assert labels[..i + 1] == labels[..i] + [labels[i]];
      assert Elements(labels[..i + 1]) == Elements(labels[..i]) + {labels[i]};
      if labels[i] !in refused {
        now := now - {labels[i]};
      }
    }
    assert labels[..|labels|] == labels;
  }

  /** The labels on the pull request after the calls, each of which may be refused. */
  function CallsOn(present: set<string>, recorded: seq<string>, desired: seq<string>,
                   refused: set<string>): set<string> {
    (present + (ToAdd(recorded, desired) - refused)) - (ToRemove(recorded, desired) - refused)
  }

  /**
   `update_labels` on one pull request. The labels it believes recorded are those of the row
   it is given, which need not be the board's own any more.
   */
  function ReconcileFrom(row: seq<string>, b: Board, desired: seq<string>, a: LabelAnswers): Board {
    if ToAdd(row, desired) == {} && ToRemove(row, desired) == {} then b
    else
      Board(if a.stored then desired else b.recorded, CallsOn(b.present, row, desired, a.refused))
  }

  /** `update_labels` given the current row. */
  function Reconcile(b: Board, desired: seq<string>, a: LabelAnswers): Board {
    ReconcileFrom(b.recorded, b, desired, a)
  }

  /** A board that tells the truth: what is recorded is present. */
  predicate Truthful(b: Board) {
    Elements(b.recorded) <= b.present
  }

  /**
   Exactly when one update leaves every desired label on the pull request, whatever the row and
   the answers: each was there already, or is unknown to the row and accepted by GitHub.
   */
  lemma DesiredPresentExactly(row: seq<string>, b: Board, desired: seq<string>, a: LabelAnswers)
    ensures Elements(desired) <= ReconcileFrom(row, b, desired, a).present
            <==> forall l :: l in desired ==> l in b.present || (l !in row && l !in a.refused)
  {
    var after := ReconcileFrom(row, b, desired, a);
    forall l | l in desired
      ensures l in after.present <==> l in b.present || (l !in row && l !in a.refused)
    {
      assert l in Elements(desired);
      assert l in ToAdd(row, desired) <==> l !in row;
      assert l !in ToRemove(row, desired);
    }
    if Elements(desired) <= after.present {
      forall l | l in desired
        ensures l in after.present
      {
        assert l in Elements(desired);
      }
    }
  }

  /** What one update from the current row does when it is stored. */
  lemma ReconcileOnce(b: Board, desired: seq<string>, a: LabelAnswers, l: string)
    requires Truthful(b) && a.stored
    ensures var after := Reconcile(b, desired, a);
            && (l in after.recorded <==> l in desired)
            && (l in desired && l !in a.refused ==> l in after.present)
            && (l in b.recorded && l !in desired && l !in a.refused ==> l !in after.present)
            && (l !in b.recorded && l !in desired ==> (l in after.present <==> l in b.present))
  {
    assert l in b.recorded ==> l in Elements(b.recorded);
    assert l in ToAdd(b.recorded, desired) <==> l in desired && l !in b.recorded;
    assert l in ToRemove(b.recorded, desired) <==> l in b.recorded && l !in desired;
  }

  /** The states a pull request is taken through. */
  datatype Stage = Stage(status: Status, dry: bool)

  function Wanted(s: Stage, c: LabelsConfig): seq<string> {
    Desired(s.status, s.dry, c)
  }

  /** Updates that GitHub accepts, each given the current row. */
  function ReconcileAll(b: Board, stages: seq<Stage>, c: LabelsConfig): Board {
    if stages == [] then b else
    Reconcile(ReconcileAll(b, stages[..|stages| - 1], c), Wanted(stages[|stages| - 1], c), LabelAnswers({}, true))
  }

  /** Labels some stage asks for. */
  ghost predicate EverWanted(l: string, stages: seq<Stage>, c: LabelsConfig) {
    exists i :: 0 <= i < |stages| && l in Wanted(stages[i], c)
  }

  lemma EverWantedOneMore(l: string, stages: seq<Stage>, c: LabelsConfig)
    requires stages != []
    ensures var k := |stages| - 1;
            EverWanted(l, stages, c) <==> l in Wanted(stages[k], c) || EverWanted(l, stages[..k], c)
  {
    hide Wanted;
    var init := stages[..|stages| - 1];
    if EverWanted(l, stages, c) {
      var i :| 0 <= i < |stages| && l in Wanted(stages[i], c);
      assert i < |init| ==> init[i] == stages[i];
    }
    if EverWanted(l, init, c) {
      var i :| 0 <= i < |init| && l in Wanted(init[i], c);
      assert init[i] == stages[i];
    }
  }

  /**
   Any number of accepted updates: the record is the last state's labels, they are all
   present, no other label the bot ever asked for or had recorded is left, and labels the bot
   never asked for or recorded are as they were.
   */
  lemma {:induction false} ReconcileSequence(b: Board, stages: seq<Stage>, c: LabelsConfig, l: string)
    requires Truthful(b) && stages != []
    ensures var after := ReconcileAll(b, stages, c);
            var wanted := l in Wanted(stages[|stages| - 1], c);
            && (l in after.recorded <==> wanted)
            && (wanted ==> l in after.present)
            && (!wanted && (l in b.recorded || EverWanted(l, stages, c)) ==> l !in after.present)
            && (l !in b.recorded && !EverWanted(l, stages, c) ==> (l in after.present <==> l in b.present))
  {
    hide Truthful, Reconcile, Wanted;
    var init := stages[..|stages| - 1];
    var mid := ReconcileAll(b, init, c);
    var last := Wanted(stages[|stages| - 1], c);
    StaysTruthful(b, init, c);
    ReconcileOnce(mid, last, LabelAnswers({}, true), l);
    EverWantedOneMore(l, stages, c);
    if init != [] {
      ReconcileSequence(b, init, c, l);
    }
  }

  lemma {:induction false} StaysTruthful(b: Board, stages: seq<Stage>, c: LabelsConfig)
    requires Truthful(b)
    ensures Truthful(ReconcileAll(b, stages, c))
  {
    if stages != [] {
      StaysTruthful(b, stages[..|stages| - 1], c);
      var mid := ReconcileAll(b, stages[..|stages| - 1], c);
      var last := Wanted(stages[|stages| - 1], c);
      forall l | l in Elements(Reconcile(mid, last, LabelAnswers({}, true)).recorded)
        ensures l in Reconcile(mid, last, LabelAnswers({}, true)).present
      {
        ReconcileOnce(mid, last, LabelAnswers({}, true), l);
      }
    }
  }

  /** Desired labels are the configured ones, each once, in byte order. */
  lemma DesiredSorted(status: Status, dry: bool, c: LabelsConfig)
    ensures Increasing(TextLess, Desired(status, dry, c))
    ensures forall l :: l in Desired(status, dry, c) <==> l in Configured(status, dry, c)
  {
    TextLessStrictTotal();
    SortDedup(TextLess, Configured(status, dry, c));
  }

  /**
   A try that supersedes a try: `cancel` and then `start` are given one and the same row. The
   cancel takes the in-progress labels off, and the start, whose row still names them, puts
   none of them back and records nothing.
   */
  lemma SupersedingTryLosesLabels(b: Board, c: LabelsConfig)
    requires Truthful(b) && b.recorded == Desired(InProgress, true, c)
    ensures var cancelled := ReconcileFrom(b.recorded, b, Desired(Cancelled, true, c), LabelAnswers({}, true));
            var started := ReconcileFrom(b.recorded, cancelled, Desired(InProgress, true, c), LabelAnswers({}, true));
            && started == cancelled
            && started.recorded == []
            && Elements(Desired(InProgress, true, c)) !! started.present
  {
    var cancelled := ReconcileFrom(b.recorded, b, Desired(Cancelled, true, c), LabelAnswers({}, true));
    assert Desired(Cancelled, true, c) == [];
    assert Elements([]) == {};
    assert b.recorded != [] ==> b.recorded[0] in ToRemove(b.recorded, []);
  }
}
