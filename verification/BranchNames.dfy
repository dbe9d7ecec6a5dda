/**
 The branch names of a repository's configuration (server/src/github/config.rs).
 They are the concurrency groups of the queue: runs with one name run one at a time.
 */
module BranchNames {
  function Digit(d: nat): char
    requires d < 10
  {
    "0123456789"[d]
  }

  /** Decimal printing of a number. */
  function Decimal(n: nat): (s: string)
    ensures s != []
  {
    if n < 10 then [Digit(n)] else Decimal(n / 10) + [Digit(n % 10)]
  }

  /** `trim_end_matches('/')`. */
  function TrimSlashes(s: string): (r: string)
    ensures r <= s
    ensures r != [] ==> r[|r| - 1] != '/'
  {
    if s != [] && s[|s| - 1] == '/' then TrimSlashes(s[..|s| - 1]) else s
  }

  /** The prefix as it is used: trailing slashes trimmed, then exactly one. */
  function Stem(prefix: string): string {
    TrimSlashes(prefix) + "/"
  }

  function TryBranch(prefix: string, pr: nat): string {
    Stem(prefix) + Decimal(pr)
  }

  function MergeBranch(prefix: string, target: string): string {
    Stem(prefix) + target
  }

  lemma {:induction false} DecimalInjective(m: nat, n: nat)
    requires Decimal(m) == Decimal(n)
    ensures m == n
  {
    DecimalLast(m);
    DecimalLast(n);
    if m >= 10 && n >= 10 {
      assert Decimal(m)[..|Decimal(m)| - 1] == Decimal(m / 10);
      assert Decimal(n)[..|Decimal(n)| - 1] == Decimal(n / 10);
      DecimalInjective(m / 10, n / 10);
    }
  }

  lemma DecimalLast(n: nat)
    ensures Decimal(n)[|Decimal(n)| - 1] == Digit(n % 10)
    ensures |Decimal(n)| == 1 <==> n < 10
  {
  }

  lemma {:induction false} DecimalHasNoSlash(n: nat)
    ensures '/' !in Decimal(n)
  {
    if n >= 10 {
      DecimalHasNoSlash(n / 10);
    }
  }

  /** The number a string of decimal digits stands for. */
  function NumberOf(s: string): int {
    if s == [] then 0 else 10 * NumberOf(s[..|s| - 1]) + (s[|s| - 1] as int - '0' as int)
  }

  /** Decimal printing: digits, the first of them not zero, that stand for the number. */
  lemma {:induction false} DecimalStandsFor(n: nat)
    ensures NumberOf(Decimal(n)) == n
    ensures forall i :: 0 <= i < |Decimal(n)| ==> '0' <= Decimal(n)[i] <= '9'
    ensures n > 0 ==> Decimal(n)[0] != '0'
  {
    if n >= 10 {
      DecimalStandsFor(n / 10);
      assert Decimal(n)[..|Decimal(n)| - 1] == Decimal(n / 10);
    } else {
      assert Decimal(n)[..0] == [];
    }
  }

  /** A branch name is the prefix without its trailing slashes, one slash, and the number or the target. */
  lemma BranchShape(prefix: string, n: nat, target: string)
    ensures exists k :: 0 <= k <= |prefix| && (forall i :: k <= i < |prefix| ==> prefix[i] == '/')
              && (k > 0 ==> prefix[k - 1] != '/')
              && TryBranch(prefix, n) == prefix[..k] + "/" + Decimal(n)
              && MergeBranch(prefix, target) == prefix[..k] + "/" + target
  {
    TrimmedAreSlashes(prefix);
    var k := |TrimSlashes(prefix)|;
    assert prefix[..k] == TrimSlashes(prefix);
  }

  lemma {:induction false} TrimmedAreSlashes(s: string)
    ensures forall i :: |TrimSlashes(s)| <= i < |s| ==> s[i] == '/'
  {
    if s != [] && s[|s| - 1] == '/' {
      TrimmedAreSlashes(s[..|s| - 1]);
    }
  }

  /** Two pull requests never share a try branch. */
  lemma TryBranchInjective(prefix: string, m: nat, n: nat)
    ensures TryBranch(prefix, m) == TryBranch(prefix, n) <==> m == n
  {
    if TryBranch(prefix, m) == TryBranch(prefix, n) {
      assert TryBranch(prefix, m)[|Stem(prefix)|..] == Decimal(m);
      assert TryBranch(prefix, n)[|Stem(prefix)|..] == Decimal(n);
      DecimalInjective(m, n);
    }
  }

  /** Two target branches never share a merge branch. */
  lemma MergeBranchInjective(prefix: string, a: string, b: string)
    ensures MergeBranch(prefix, a) == MergeBranch(prefix, b) <==> a == b
  {
    assert MergeBranch(prefix, a)[|Stem(prefix)|..] == a;
    assert MergeBranch(prefix, b)[|Stem(prefix)|..] == b;
  }

  /**
   Try and merge branches never clash exactly when the merge stem is not a prefix of the
   try stem. The converse nesting is harmless: what follows the try stem is a number, and
   a number holds no slash.
   */
  lemma DisjointExactly(tryPrefix: string, mergePrefix: string)
    ensures (forall n: nat, t: string :: TryBranch(tryPrefix, n) != MergeBranch(mergePrefix, t))
            <==> !(Stem(mergePrefix) <= Stem(tryPrefix))
  {
    var ts, ms := Stem(tryPrefix), Stem(mergePrefix);
    if ms <= ts {
      var t := ts[|ms|..] + Decimal(0);
      assert ts == ms + ts[|ms|..];
      assert TryBranch(tryPrefix, 0) == MergeBranch(mergePrefix, t);
    } else {
      forall n: nat, t: string
        ensures TryBranch(tryPrefix, n) != MergeBranch(mergePrefix, t)
      {
        NoClash(tryPrefix, mergePrefix, n, t);
      }
    }
  }

  lemma NoClash(tryPrefix: string, mergePrefix: string, n: nat, t: string)
    requires !(Stem(mergePrefix) <= Stem(tryPrefix))
    ensures TryBranch(tryPrefix, n) != MergeBranch(mergePrefix, t)
  {
    var ts, ms := Stem(tryPrefix), Stem(mergePrefix);
    var x, y := TryBranch(tryPrefix, n), MergeBranch(mergePrefix, t);
    if |ms| <= |ts| {
      assert x[..|ms|] == ts[..|ms|] && y[..|ms|] == ms;
      assert ts[..|ms|] != ms;
    } else {
      // The slash that ends the merge stem would lie inside the number.
      assert y[|ms| - 1] == ms[|ms| - 1] == '/';
      assert |ms| <= |x| ==> x[|ms| - 1] == Decimal(n)[|ms| - 1 - |ts|];
      DecimalHasNoSlash(n);
    }
  }
}
