/** Who approved a pull request when it is queued (server/src/command/merge.rs). */
module Approvers {
  import opened Basics
  import opened Sorting

  datatype ReviewState = Approved | ChangesRequested | Commented | Dismissed | PendingReview

  datatype Review = Review(user: Option<int>, state: Option<ReviewState>)

  /** The review permission of a user: granted or not, or the question failed. */
  type Permission = int -> Option<bool>

  /** Reviews that say something about the author's pull request. */
  predicate Speaks(r: Review, author: int) {
    r.state != Some(Commented) && r.user.Some? && r.user.value != author
  }

  /** The newest review of each user, newest first: the first loop. `rev` is the list reversed. */
  function Newest(rev: seq<Review>, author: int): (r: seq<Review>)
    ensures forall x :: x in r ==> x in rev && Speaks(x, author)
  {
    if rev == [] then [] else
    var k := |rev| - 1;
    assert rev == rev[..k] + [rev[k]];
    var before := Newest(rev[..k], author);
    if Speaks(rev[k], author) && rev[k].user.value !in Users(before) then before + [rev[k]] else before
  }

  function Users(rs: seq<Review>): set<int> {
    set r | r in rs && r.user.Some? :: r.user.value
  }

  lemma UsersPlus(rs: seq<Review>, r: Review)
    requires r.user.Some?
    ensures Users(rs + [r]) == Users(rs) + {r.user.value}
  {
    assert forall q :: q in rs + [r] <==> q in rs || q == r;
    assert r in rs + [r];
  }

  function Reversed<T>(s: seq<T>): (r: seq<T>)
    ensures |r| == |s|
    ensures forall i :: 0 <= i < |s| ==> r[i] == s[|s| - 1 - i]
  {
    if s == [] then [] else Reversed(s[1..]) + [s[0]]
  }

  /** The second loop: approvals without a pending request, from users with the permission. */
  function Permitted(rs: seq<Review>, requested: set<int>, can: Permission): Option<seq<int>> {
    if rs == [] then Some([]) else
    var k := |rs| - 1;
    var before := Permitted(rs[..k], requested, can);
    if before.None? || rs[k].user.None? then before
    else
      var u := rs[k].user.value;
      if u in requested || rs[k].state != Some(Approved) then before
      else if can(u).None? then None
      else if can(u).value then Some(before.value + [u]) else before
  }

  /** The list that is stored with the run, unless a permission question failed. */
  function Compute(reviews: seq<Review>, author: int, requested: seq<int>, can: Permission): Option<seq<int>> {
    var wanted := set u | u in requested;
    var ids := Permitted(Reversed(Newest(Reversed(reviews), author)), wanted, can);
    if ids.None? then None else Some(Sort(IntLess, ids.value))
  }

  /** The first loop, over the reviews from the newest to the oldest. */
  method DedupReviews(rev: seq<Review>, author: int) returns (deduped: seq<Review>)
    ensures deduped == Newest(rev, author)
  {
    var seen: set<int> := {};
    deduped := [];
    for i := 0 to |rev|
      invariant deduped == Newest(rev[..i], author)
      invariant seen == Users(deduped)
    {
      assert rev[..i + 1][..i] == rev[..i];
      var reviewer := rev[i];
      if reviewer.state == Some(Commented) { continue; }
      if reviewer.user.None? { continue; }
      if reviewer.user.value == author { continue; }
      if reviewer.user.value !in seen {
        UsersPlus(deduped, reviewer);
        seen := seen + {reviewer.user.value};
        deduped := deduped + [reviewer];
      }
    }
    assert rev[..|rev|] == rev;
  }

  /** The second loop, which stops at the first question that fails. */
  method PermitReviews(again: seq<Review>, requested: set<int>, can: Permission) returns (ids: Option<seq<int>>)
    ensures ids == Permitted(again, requested, can)
  {
    var reviewerIds: seq<int> := [];
    for i := 0 to |again|
      invariant Permitted(again[..i], requested, can) == Some(reviewerIds)
    {
      assert again[..i + 1][..i] == again[..i];
      var reviewer := again[i];
      if reviewer.user.None? { continue; }
      var u := reviewer.user.value;
      if u in requested || reviewer.state != Some(Approved) { continue; }
      var allowed := can(u);
      if allowed.None? {
        PermittedPrefix(again, i + 1, requested, can);
        return None;
      }
      if allowed.value { reviewerIds := reviewerIds + [u]; }
    }
    assert again[..|again|] == again;
    ids := Some(reviewerIds);
  }

  /** The reviewers stored with a queued merge. */
  method ComputeApprovers(reviews: seq<Review>, author: int, requested: seq<int>, can: Permission)
    returns (ids: Option<seq<int>>)
    ensures ids == Compute(reviews, author, requested, can)
  {
    var deduped := DedupReviews(Reversed(reviews), author);
    var requestedReviewers := set u | u in requested;
    ids := PermitReviews(Reversed(deduped), requestedReviewers, can);
    if ids.Some? {
      ids := Some(Sort(IntLess, ids.value));
    }
  }

  /** A failed question anywhere fails the whole list. */
  lemma {:induction false} PermittedPrefix(rs: seq<Review>, k: nat, requested: set<int>, can: Permission)
    requires k <= |rs| && Permitted(rs[..k], requested, can).None?
    ensures Permitted(rs, requested, can).None?
    decreases |rs|
  {
    if k < |rs| {
      assert rs[..|rs| - 1][..k] == rs[..k];
      PermittedPrefix(rs[..|rs| - 1], k, requested, can);
    } else {
      assert rs[..k] == rs;
    }
  }

  // ---- What the list contains ----

  /** The state of a user's last review that is not a comment. */
  function LastWord(reviews: seq<Review>, u: int): Option<Option<ReviewState>> {
    if reviews == [] then None else
    var r := reviews[|reviews| - 1];
    if r.user == Some(u) && r.state != Some(Commented) then Some(r.state)
    else LastWord(reviews[..|reviews| - 1], u)
  }

  /** Whether a user's approval stands before permissions are looked at. */
  predicate Stands(reviews: seq<Review>, author: int, requested: seq<int>, u: int) {
    LastWord(reviews, u) == Some(Some(Approved)) && u != author && u !in requested
  }

  /** At most one review of each user. */
  ghost predicate OneEach(rs: seq<Review>) {
    forall i, j :: 0 <= i < j < |rs| ==> rs[i].user != rs[j].user
  }

  lemma {:induction false} NewestIsFirst(rev: seq<Review>, author: int, u: int)
    requires u != author
    ensures var r := Newest(rev, author);
            && OneEach(r)
            && (forall s :: Review(Some(u), s) in r <==> LastWord(Reversed(rev), u) == Some(s))
    decreases |rev|
  {
    if rev != [] {
      var k := |rev| - 1;
      var before := Newest(rev[..k], author);
      NewestIsFirst(rev[..k], author, u);
      var now := Reversed(rev);
      assert now == [rev[k]] + Reversed(rev[..k]);
      LastWordPrepend(rev[k], Reversed(rev[..k]), u);
      var r := Newest(rev, author);
      if Speaks(rev[k], author) && rev[k].user.value !in Users(before) {
        forall i | 0 <= i < |before|
          ensures before[i].user != rev[k].user
        {
          assert before[i] in before;
        }
      }
      forall s
        ensures Review(Some(u), s) in r <==> LastWord(now, u) == Some(s)
      {
        if u in Users(before) {
          var x :| x in before && x.user == Some(u);
          assert x == Review(Some(u), x.state);
        } else {
          assert Review(Some(u), s) in before ==> u in Users(before);
          if LastWord(Reversed(rev[..k]), u).Some? {
            assert Review(Some(u), LastWord(Reversed(rev[..k]), u).value) in before;
          }
        }
      }
    }
  }

  lemma {:induction false} LastWordPrepend(r: Review, rest: seq<Review>, u: int)
    ensures LastWord([r] + rest, u) ==
            if LastWord(rest, u).Some? then LastWord(rest, u)
            else if r.user == Some(u) && r.state != Some(Commented) then Some(r.state) else None
    decreases |rest|
  {
    if rest == [] {
      assert [r] + rest == [r];
      assert [r][..0] == [];
    } else {
      var k := |rest| - 1;
      assert ([r] + rest)[..k + 1] == [r] + rest[..k];
      LastWordPrepend(r, rest[..k], u);
    }
  }

  predicate ApprovedIn(rs: seq<Review>, u: int) {
    Review(Some(u), Some(Approved)) in rs
  }

  lemma {:induction false} PermittedContains(rs: seq<Review>, requested: set<int>, can: Permission)
    requires OneEach(rs)
    ensures var ids := Permitted(rs, requested, can);
            && (ids.None? <==> exists u :: ApprovedIn(rs, u) && u !in requested && can(u).None?)
            && (ids.Some? ==> forall u :: u in ids.value <==>
                  ApprovedIn(rs, u) && u !in requested && can(u) == Some(true))
            && (ids.Some? ==> forall i, j :: 0 <= i < j < |ids.value| ==> ids.value[i] != ids.value[j])
    decreases |rs|
  {
    if rs != [] {
      var k := |rs| - 1;
      PermittedContains(rs[..k], requested, can);
      assert rs == rs[..k] + [rs[k]];
      assert forall x :: x in rs <==> x in rs[..k] || x == rs[k];
      assert forall u :: ApprovedIn(rs, u) <==> ApprovedIn(rs[..k], u) || rs[k] == Review(Some(u), Some(Approved));
      forall u | rs[k].user == Some(u)
        ensures forall s :: Review(Some(u), s) !in rs[..k]
      {
      }
    }
  }

  lemma ReversedTwice<T>(s: seq<T>)
    ensures Reversed(Reversed(s)) == s
  {
  }

  lemma ReversedHas<T>(s: seq<T>, x: T)
    ensures x in Reversed(s) <==> x in s
  {
    var r := Reversed(s);
    if x in s {
      var i :| 0 <= i < |s| && s[i] == x;
      assert r[|s| - 1 - i] == x;
    }
  }

  lemma StandsExactly(reviews: seq<Review>, author: int, requested: seq<int>, u: int)
    ensures Stands(reviews, author, requested, u)
            <==> ApprovedIn(Reversed(Newest(Reversed(reviews), author)), u) && u !in requested
  {
    var newest := Newest(Reversed(reviews), author);
    ReversedTwice(reviews);
    ReversedHas(newest, Review(Some(u), Some(Approved)));
    if u != author {
      NewestIsFirst(Reversed(reviews), author, u);
    } else {
      assert ApprovedIn(newest, u) ==> Speaks(Review(Some(u), Some(Approved)), author);
    }
  }

  lemma DedupedOneEach(reviews: seq<Review>, author: int)
    ensures OneEach(Reversed(Newest(Reversed(reviews), author)))
  {
    NewestIsFirst(Reversed(reviews), author, author + 1);
  }

  /**
   The list fails exactly when the permission of a standing approver could not be asked;
   otherwise it is strictly increasing and holds exactly the standing approvers with the
   permission.
   */
  lemma ApproversExactly(reviews: seq<Review>, author: int, requested: seq<int>, can: Permission)
    ensures var ids := Compute(reviews, author, requested, can);
            && (ids.None? <==> exists u :: Stands(reviews, author, requested, u) && can(u).None?)
            && (ids.Some? ==> forall i, j :: 0 <= i < j < |ids.value| ==> ids.value[i] < ids.value[j])
            && (ids.Some? ==> forall u :: u in ids.value <==>
                  Stands(reviews, author, requested, u) && can(u) == Some(true))
  {
    var wanted := set u | u in requested;
    var again := Reversed(Newest(Reversed(reviews), author));
    forall u
      ensures Stands(reviews, author, requested, u) <==> ApprovedIn(again, u) && u !in wanted
    {
      StandsExactly(reviews, author, requested, u);
    }
    DedupedOneEach(reviews, author);
    PermittedContains(again, wanted, can);
    var ids := Permitted(again, wanted, can);
    if ids.Some? {
      SortDistinct(IntLess, ids.value);
      SortSorted(IntLess, ids.value);
    }
  }
}
