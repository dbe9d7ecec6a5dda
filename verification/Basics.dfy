/** Option values, and sorting as the Rust library does it. */
module Basics {
  datatype Option<+T> = None | Some(value: T)

  /** What a fallible handler answers: Rust's `anyhow::Result<bool>`. */
  datatype Outcome = Ok(flag: bool) | Err
}

/** `sort` and `dedup` on vectors, for any strict total order. */
module Sorting {
  ghost predicate StrictTotal<T(!new)>(less: (T, T) -> bool) {
    && (forall x :: !less(x, x))
    && (forall x, y, z :: less(x, y) && less(y, z) ==> less(x, z))
    && (forall x, y :: x != y ==> less(x, y) || less(y, x))
  }

  ghost predicate Sorted<T(!new)>(less: (T, T) -> bool, s: seq<T>) {
    forall i, j :: 0 <= i < j < |s| ==> !less(s[j], s[i])
  }

  ghost predicate Increasing<T(!new)>(less: (T, T) -> bool, s: seq<T>) {
    forall i, j :: 0 <= i < j < |s| ==> less(s[i], s[j])
  }

  function Insert<T(!new)>(less: (T, T) -> bool, x: T, s: seq<T>): (r: seq<T>)
    ensures multiset(r) == multiset(s) + multiset{x}
  {
    if s == [] then [x]
    else if less(s[0], x) then
      assert s == [s[0]] + s[1..];
      [s[0]] + Insert(less, x, s[1..])
    else [x] + s
  }

  function Sort<T(!new)>(less: (T, T) -> bool, s: seq<T>): (r: seq<T>)
    ensures multiset(r) == multiset(s)
  {
    if s == [] then [] else
    assert s == [s[0]] + s[1..];
    Insert(less, s[0], Sort(less, s[1..]))
  }

  /** Drops every element equal to its predecessor. */
  function Dedup<T(==,!new)>(s: seq<T>): (r: seq<T>)
    ensures forall x :: x in r <==> x in s
  {
    if |s| <= 1 then s
    else if s[0] == s[1] then
      assert s == [s[0]] + s[1..];
      Dedup(s[1..])
    else
      assert s == [s[0]] + s[1..];
      [s[0]] + Dedup(s[1..])
  }

  lemma {:induction false} InsertSorted<T(!new)>(less: (T, T) -> bool, x: T, s: seq<T>)
    requires StrictTotal(less) && Sorted(less, s)
    ensures Sorted(less, Insert(less, x, s))
  {
    if s != [] && less(s[0], x) {
      InsertSorted(less, x, s[1..]);
      var r := Insert(less, x, s[1..]);
      forall y | y in r
        ensures !less(y, s[0])
      {
        assert y in multiset(r);
        assert y == x || y in s[1..];
      }
    }
  }

  lemma {:induction false} SortSorted<T(!new)>(less: (T, T) -> bool, s: seq<T>)
    requires StrictTotal(less)
    ensures Sorted(less, Sort(less, s))
    ensures forall x :: x in Sort(less, s) <==> x in s
  {
    if s != [] {
      SortSorted(less, s[1..]);
      InsertSorted(less, s[0], Sort(less, s[1..]));
    }
    forall x
      ensures x in Sort(less, s) <==> x in s
    {
      assert x in multiset(Sort(less, s)) <==> x in multiset(s);
    }
  }

  lemma {:induction false} DedupIncreasing<T(!new)>(less: (T, T) -> bool, s: seq<T>)
    requires StrictTotal(less) && Sorted(less, s)
    ensures Increasing(less, Dedup(s))
  {
    if |s| > 1 {
      DedupIncreasing(less, s[1..]);
      if s[0] != s[1] {
        forall y | y in Dedup(s[1..])
          ensures less(s[0], y)
        {
          var k :| 1 <= k < |s| && s[k] == y;
          assert !less(s[1], s[0]);
          assert !less(s[k], s[1]) || k == 1;
        }
      }
    }
  }

  /** `sort` then `dedup` is the increasing list of the elements. */
  lemma SortDedup<T(!new)>(less: (T, T) -> bool, s: seq<T>)
    requires StrictTotal(less)
    ensures Increasing(less, Dedup(Sort(less, s)))
    ensures forall x :: x in Dedup(Sort(less, s)) <==> x in s
  {
    SortSorted(less, s);
    DedupIncreasing(less, Sort(less, s));
  }

  /** Sorting distinct elements leaves them strictly increasing. */
  lemma {:induction false} SortDistinct<T(!new)>(less: (T, T) -> bool, s: seq<T>)
    requires StrictTotal(less)
    requires forall i, j :: 0 <= i < j < |s| ==> s[i] != s[j]
    ensures Increasing(less, Sort(less, s))
  {
    if s != [] {
      SortDistinct(less, s[1..]);
      SortSorted(less, s[1..]);
      InsertIncreasing(less, s[0], Sort(less, s[1..]));
    }
  }

  lemma {:induction false} InsertIncreasing<T(!new)>(less: (T, T) -> bool, x: T, s: seq<T>)
    requires StrictTotal(less) && Increasing(less, s) && x !in s
    ensures Increasing(less, Insert(less, x, s))
  {
    if s != [] && less(s[0], x) {
      InsertIncreasing(less, x, s[1..]);
      var r := Insert(less, x, s[1..]);
      forall y | y in r
        ensures less(s[0], y)
      {
        assert y in multiset(r);
        assert y == x || y in s[1..];
      }
    }
  }

  /** An increasing list is determined by its elements. */
  lemma {:induction false} IncreasingUnique<T(!new)>(less: (T, T) -> bool, a: seq<T>, b: seq<T>)
    requires StrictTotal(less) && Increasing(less, a) && Increasing(less, b)
    requires forall x :: x in a <==> x in b
    ensures a == b
  {
    assert a != [] ==> a[0] in a;
    assert b != [] ==> b[0] in b;
    if a != [] {
      assert a[0] == b[0];
      forall x
        ensures x in a[1..] <==> x in b[1..]
      {
        if x in a[1..] {
          assert x in a && x in b && x != b[0];
        }
        if x in b[1..] {
          assert x in b && x in a && x != a[0];
        }
      }
      IncreasingUnique(less, a[1..], b[1..]);
      assert a == [a[0]] + a[1..] && b == [b[0]] + b[1..];
    }
  }

  predicate IntLess(x: int, y: int) { x < y }

  /** Byte order on strings, which `str` comparison uses. */
  predicate TextLess(x: string, y: string) {
    if y == [] then false
    else if x == [] then true
    else x[0] < y[0] || (x[0] == y[0] && TextLess(x[1..], y[1..]))
  }

  lemma {:induction false} TextLessTrans(x: string, y: string, z: string)
    requires TextLess(x, y) && TextLess(y, z)
    ensures TextLess(x, z)
  {
    if x != [] && x[0] == y[0] == z[0] {
      TextLessTrans(x[1..], y[1..], z[1..]);
    }
  }

  lemma {:induction false} TextLessTotal(x: string, y: string)
    requires x != y
    ensures TextLess(x, y) || TextLess(y, x)
  {
    if x != [] && y != [] && x[0] == y[0] {
      assert x == [x[0]] + x[1..] && y == [y[0]] + y[1..];
      TextLessTotal(x[1..], y[1..]);
    }
  }

  lemma {:induction false} TextLessIrreflexive(x: string)
    ensures !TextLess(x, x)
  {
    if x != [] {
      TextLessIrreflexive(x[1..]);
    }
  }

  lemma TextLessStrictTotal()
    ensures StrictTotal(TextLess)
  {
    forall x ensures !TextLess(x, x) { TextLessIrreflexive(x); }
    forall x, y, z | TextLess(x, y) && TextLess(y, z) ensures TextLess(x, z) { TextLessTrans(x, y, z); }
    forall x, y | x != y ensures TextLess(x, y) || TextLess(y, x) { TextLessTotal(x, y); }
  }

  /** Byte order: the first difference decides, and a prefix comes first. */
  lemma {:induction false} TextLessExactly(x: string, y: string)
    ensures TextLess(x, y) <==>
            exists k :: 0 <= k < |y| && k <= |x| && x[..k] == y[..k] && (k == |x| || x[k] < y[k])
  {
    if x != [] && y != [] {
      TextLessExactly(x[1..], y[1..]);
      if TextLess(x, y) && x[0] == y[0] {
        var k :| 0 <= k < |y[1..]| && k <= |x[1..]| && x[1..][..k] == y[1..][..k]
                && (k == |x[1..]| || x[1..][k] < y[1..][k]);
        assert x[..k + 1] == [x[0]] + x[1..][..k] && y[..k + 1] == [y[0]] + y[1..][..k];
      } else if TextLess(x, y) {
        assert x[..0] == y[..0];
      }
      if k :| 0 < k < |y| && k <= |x| && x[..k] == y[..k] && (k == |x| || x[k] < y[k]) {
        assert x[0] == x[..k][0] == y[0];
        assert x[1..][..k - 1] == x[..k][1..] == y[1..][..k - 1];
      }
    } else if x == [] && y != [] {
      assert x[..0] == y[..0];
    }
  }
}
