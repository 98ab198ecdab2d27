/**
 * The read-only views the marketplace computes from its lists: the project
 * search, the dashboard, the bids on a project, and a freelancer's reviews
 * with their mean rating.
 */
module Selectors {
  import opened Records
  import opened Text

  // ---------------------------------------------------------------------------
  // `Array.prototype.filter` and `Array.prototype.some`, with the test given
  // as a named two-argument predicate and the value it compares against

  function Filter<T, K>(s: seq<T>, keep: (T, K) -> bool, key: K): seq<T>
  {
    if s == [] then []
    else (if keep(s[0], key) then [s[0]] else []) + Filter(s[1..], keep, key)
  }

  function Any<T, K>(s: seq<T>, test: (T, K) -> bool, key: K): bool
  {
    s != [] && (test(s[0], key) || Any(s[1..], test, key))
  }

  /** `b` keeps the elements of `a` in their order, possibly dropping some. */
  ghost predicate Subsequence<T>(a: seq<T>, b: seq<T>)
  {
    a == [] || (b != [] && ((a[0] == b[0] && Subsequence(a[1..], b[1..])) || Subsequence(a, b[1..])))
  }

  /** An element is kept exactly when it is in the input and passes. */
  lemma {:induction false} FilterMembers<T, K>(s: seq<T>, keep: (T, K) -> bool, key: K)
    ensures forall x :: x in Filter(s, keep, key) <==> x in s && keep(x, key)
  {
    if s != [] {
      FilterMembers(s[1..], keep, key);
      assert s == [s[0]] + s[1..];
    }
  }

  /** The filter keeps the input's order. */
  lemma {:induction false} FilterSubsequence<T, K>(s: seq<T>, keep: (T, K) -> bool, key: K)
    ensures Subsequence(Filter(s, keep, key), s)
  {
    if s != [] {
      FilterSubsequence(s[1..], keep, key);
      var rest := Filter(s[1..], keep, key);
      if keep(s[0], key) {
        assert Filter(s, keep, key) == [s[0]] + rest;
        assert ([s[0]] + rest)[1..] == rest;
      } else {
        assert Filter(s, keep, key) == rest;
      }
    }
  }

  /** When every element passes, the filter returns its input. */
  lemma {:induction false} FilterAll<T, K>(s: seq<T>, keep: (T, K) -> bool, key: K)
    requires forall k :: 0 <= k < |s| ==> keep(s[k], key)
    ensures Filter(s, keep, key) == s
  {
    if s != [] {
      FilterAll(s[1..], keep, key);
      assert [s[0]] + s[1..] == s;
    }
  }

  /** When no element passes, the filter returns nothing. */
  lemma {:induction false} FilterNone<T, K>(s: seq<T>, keep: (T, K) -> bool, key: K)
    requires forall k :: 0 <= k < |s| ==> !keep(s[k], key)
    ensures Filter(s, keep, key) == []
  {
    if s != [] {
      FilterNone(s[1..], keep, key);
    }
  }

  /** Filtering distributes over concatenation. */
  lemma {:induction false} FilterConcat<T, K>(a: seq<T>, b: seq<T>, keep: (T, K) -> bool, key: K)
    ensures Filter(a + b, keep, key) == Filter(a, keep, key) + Filter(b, keep, key)
  {
    if a != [] {
      FilterConcat(a[1..], b, keep, key);
      assert (a + b)[1..] == a[1..] + b;
    } else {
      assert a + b == b;
    }
  }

  /** `some` holds exactly when an element of the input passes. */
  lemma {:induction false} AnyIff<T, K>(s: seq<T>, test: (T, K) -> bool, key: K)
    ensures Any(s, test, key) <==> exists x :: x in s && test(x, key)
  {
    if s != [] {
      AnyIff(s[1..], test, key);
      assert s == [s[0]] + s[1..];
    }
  }

  // ---------------------------------------------------------------------------
  // The project search: the projects whose title, lower-cased, contains the
  // lower-cased search term

  predicate TitleMatches(p: Project, term: string)
  {
    Contains(ToLower(p.title), ToLower(term))
  }

  function Search(ps: seq<Project>, term: string): seq<Project>
  {
    Filter(ps, TitleMatches, term)
  }

  /** The search lists, in their original order, exactly the projects whose
      lower-cased title contains the lower-cased term somewhere. */
  lemma SearchSpec(ps: seq<Project>, term: string)
    ensures Subsequence(Search(ps, term), ps)
    ensures forall p :: p in Search(ps, term) <==>
      p in ps && exists i :: OccursAt(ToLower(p.title), ToLower(term), i)
  {
    FilterSubsequence(ps, TitleMatches, term);
    FilterMembers(ps, TitleMatches, term);
    forall p | p in ps {
      ContainsIff(ToLower(p.title), ToLower(term));
    }
  }

  /** An empty search term lists every project. */
  lemma SearchEmptyTerm(ps: seq<Project>)
    ensures Search(ps, "") == ps
  {
    forall k | 0 <= k < |ps| ensures TitleMatches(ps[k], "") {
      assert ToLower("") == [];
    }
    FilterAll(ps, TitleMatches, "");
  }

  // ---------------------------------------------------------------------------
  // The dashboard: a Client's own projects, a Freelancer's hired projects

  predicate OwnedBy(p: Project, clientId: Id)
  {
    p.clientId == clientId
  }

  predicate HiredOn(p: Project, freelancerId: Id)
  {
    p.hiredFreelancerId == Some(freelancerId)
  }

  function Dashboard(ps: seq<Project>, viewer: User): seq<Project>
  {
    if viewer.role == Client then Filter(ps, OwnedBy, viewer.id)
    else Filter(ps, HiredOn, viewer.id)
  }

  /** The dashboard keeps the ledger's order and lists exactly the projects
      the viewer posted (a Client) or is hired on (a Freelancer). */
  lemma DashboardSpec(ps: seq<Project>, viewer: User)
    ensures Subsequence(Dashboard(ps, viewer), ps)
    ensures forall p :: p in Dashboard(ps, viewer) <==>
      p in ps && (if viewer.role == Client then p.clientId == viewer.id
                  else p.hiredFreelancerId == Some(viewer.id))
  {
    if viewer.role == Client {
      FilterSubsequence(ps, OwnedBy, viewer.id);
      FilterMembers(ps, OwnedBy, viewer.id);
    } else {
      FilterSubsequence(ps, HiredOn, viewer.id);
      FilterMembers(ps, HiredOn, viewer.id);
    }
  }

  // ---------------------------------------------------------------------------
  // Bids on a project, and whether a given freelancer is among the bidders

  predicate OnProject(b: Bid, projectId: Id)
  {
    b.projectId == projectId
  }

  predicate ByFreelancer(b: Bid, freelancerId: Id)
  {
    b.freelancerId == freelancerId
  }

  function BidsFor(bs: seq<Bid>, projectId: Id): seq<Bid>
  {
    Filter(bs, OnProject, projectId)
  }

  function HasBid(bs: seq<Bid>, projectId: Id, freelancerId: Id): bool
  {
    Any(BidsFor(bs, projectId), ByFreelancer, freelancerId)
  }

  /** A freelancer has already bid on a project exactly when some stored bid
      names both. */
  lemma HasBidIff(bs: seq<Bid>, projectId: Id, freelancerId: Id)
    ensures HasBid(bs, projectId, freelancerId) <==>
      exists b :: b in bs && b.projectId == projectId && b.freelancerId == freelancerId
  {
    AnyIff(BidsFor(bs, projectId), ByFreelancer, freelancerId);
    FilterMembers(bs, OnProject, projectId);
  }

  /** Bids are stored newest first, so a new bid heads its project's list
      and the lists of other projects do not change. */
  lemma BidsForAfterPrepend(b: Bid, bs: seq<Bid>, projectId: Id)
    ensures BidsFor([b] + bs, projectId)
      == if b.projectId == projectId then [b] + BidsFor(bs, projectId) else BidsFor(bs, projectId)
  {
    assert ([b] + bs)[1..] == bs;
  }

  /** At most one bid per (project, freelancer) pair. */
  ghost predicate OneBidPerPair(bs: seq<Bid>)
  {
    forall i, j :: 0 <= i < j < |bs| ==>
      bs[i].projectId != bs[j].projectId || bs[i].freelancerId != bs[j].freelancerId
  }

  /** A bid from a freelancer who has not yet bid on that project keeps the
      pairs unique, and one from a freelancer who has would not. */
  lemma PrependKeepsOneBidPerPair(b: Bid, bs: seq<Bid>)
    requires OneBidPerPair(bs)
    ensures OneBidPerPair([b] + bs) <==> !HasBid(bs, b.projectId, b.freelancerId)
  {
    HasBidIff(bs, b.projectId, b.freelancerId);
    var s := [b] + bs;
    if HasBid(bs, b.projectId, b.freelancerId) {
      var c :| c in bs && c.projectId == b.projectId && c.freelancerId == b.freelancerId;
      var j :| 0 <= j < |bs| && bs[j] == c;
      assert s[0] == b && s[j + 1] == c;
    } else {
      forall i, j | 0 <= i < j < |s|
        ensures s[i].projectId != s[j].projectId || s[i].freelancerId != s[j].freelancerId
      {
        if i == 0 {
          assert s[j] == bs[j - 1] && s[j] in bs;
        } else {
          assert s[i] == bs[i - 1] && s[j] == bs[j - 1];
        }
      }
    }
  }

  // ---------------------------------------------------------------------------
  // Reputation: a freelancer's reviews, the total of their ratings and the
  // mean of those ratings

  predicate About(r: Review, freelancerId: Id)
  {
    r.freelancerId == freelancerId
  }

  function ReviewsOf(rs: seq<Review>, freelancerId: Id): seq<Review>
  {
    Filter(rs, About, freelancerId)
  }

  function SumRatings(rs: seq<Review>): int
  {
    if rs == [] then 0 else rs[0].rating + SumRatings(rs[1..])
  }

  /** Mean rating of a non-empty list of reviews, exactly (no rounding). */
  function Average(rs: seq<Review>): real
    requires rs != []
  {
    SumRatings(rs) as real / |rs| as real
  }

  /** The sum of a concatenation is the sum of the parts. */
  lemma {:induction false} SumConcat(a: seq<Review>, b: seq<Review>)
    ensures SumRatings(a + b) == SumRatings(a) + SumRatings(b)
  {
    if a != [] {
      SumConcat(a[1..], b);
      assert (a + b)[1..] == a[1..] + b;
    } else {
      assert a + b == b;
    }
  }

  /** Removing the element at position `i` removes its rating from the sum. */
  lemma {:induction false} SumRemove(s: seq<Review>, i: nat)
    requires i < |s|
    ensures SumRatings(s) == s[i].rating + SumRatings(s[..i] + s[i + 1..])
  {
    if i > 0 {
      SumRemove(s[1..], i - 1);
      assert s[1..][..i - 1] + s[1..][i..] == (s[..i] + s[i + 1..])[1..];
    } else {
      assert s[..0] + s[1..] == s[1..];
    }
  }

  /** Dropping position `i` drops one occurrence of that element. */
  lemma MultisetRemove<T>(s: seq<T>, i: nat)
    requires i < |s|
    ensures multiset(s[..i] + s[i + 1..]) == multiset(s) - multiset{s[i]}
  {
    assert s == s[..i] + [s[i]] + s[i + 1..];
  }

  /** The sum depends only on which reviews there are, not on their order. */
  lemma {:induction false} SumPermutation(a: seq<Review>, b: seq<Review>)
    requires multiset(a) == multiset(b)
    ensures SumRatings(a) == SumRatings(b)
  {
    if a == [] {
      assert |b| == |multiset(b)| == 0;
    } else {
      var x := a[0];
      assert x in multiset(b);
      var i :| 0 <= i < |b| && b[i] == x;
      var rest := b[..i] + b[i + 1..];
      MultisetRemove(b, i);
      MultisetRemove(a, 0);
      assert a[..0] + a[1..] == a[1..];
      SumPermutation(a[1..], rest);
      SumRemove(b, i);
    }
  }

  /** Ratings between 1 and 5 sum to between 1 and 5 per review. */
  lemma {:induction false} SumBounds(rs: seq<Review>)
    requires forall k :: 0 <= k < |rs| ==> 1 <= rs[k].rating <= 5
    ensures |rs| <= SumRatings(rs) <= 5 * |rs|
  {
    if rs != [] {
      SumBounds(rs[1..]);
    }
  }

  /** A quotient whose numerator lies between one and five times its
      positive denominator lies in [1, 5]. */
  lemma QuotientBounds(s: real, n: real)
    requires 0.0 < n <= s <= 5.0 * n
    ensures 1.0 <= s / n <= 5.0
  {
    var q := s / n;
    assert q * n == s;
    assert (q - 1.0) * n == s - n;
    assert (5.0 - q) * n == 5.0 * n - s;
  }

  /** The mean of star ratings lies in [1, 5]. */
  lemma AverageBounds(rs: seq<Review>)
    requires rs != []
    requires forall k :: 0 <= k < |rs| ==> 1 <= rs[k].rating <= 5
    ensures 1.0 <= Average(rs) <= 5.0
  {
    SumBounds(rs);
    QuotientBounds(SumRatings(rs) as real, |rs| as real);
  }

  /** The mean does not depend on the order of the reviews. */
  lemma AverageOrderFree(a: seq<Review>, b: seq<Review>)
    requires a != []
    requires multiset(a) == multiset(b)
    ensures b != [] && Average(a) == Average(b)
  {
    SumPermutation(a, b);
    assert |a| == |multiset(a)| == |multiset(b)| == |b|;
  }

  /** A freelancer's reviews keep their multiplicities, so ledgers that hold
      the same reviews in different orders give the same reviews for them. */
  lemma {:induction false} ReviewsOfCounts(rs: seq<Review>, freelancerId: Id, r: Review)
    ensures multiset(ReviewsOf(rs, freelancerId))[r]
      == if r.freelancerId == freelancerId then multiset(rs)[r] else 0
  {
    if rs != [] {
      ReviewsOfCounts(rs[1..], freelancerId, r);
      assert rs == [rs[0]] + rs[1..];
    }
  }

  /** A freelancer's reviews, and so their mean, come out the same whatever
      order the review ledger holds them in. */
  lemma ReviewsOfOrderFree(a: seq<Review>, b: seq<Review>, freelancerId: Id)
    requires multiset(a) == multiset(b)
    ensures multiset(ReviewsOf(a, freelancerId)) == multiset(ReviewsOf(b, freelancerId))
    ensures ReviewsOf(a, freelancerId) != [] ==>
      ReviewsOf(b, freelancerId) != [] &&
      Average(ReviewsOf(a, freelancerId)) == Average(ReviewsOf(b, freelancerId))
  {
    forall r ensures multiset(ReviewsOf(a, freelancerId))[r] == multiset(ReviewsOf(b, freelancerId))[r] {
      ReviewsOfCounts(a, freelancerId, r);
      ReviewsOfCounts(b, freelancerId, r);
    }
    assert multiset(ReviewsOf(a, freelancerId)) == multiset(ReviewsOf(b, freelancerId));
    if ReviewsOf(a, freelancerId) != [] {
      AverageOrderFree(ReviewsOf(a, freelancerId), ReviewsOf(b, freelancerId));
    }
  }
}
