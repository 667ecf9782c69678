/** A stable sort by a pair of integers, and what keeping only its first items while scanning amounts to. */
module StableSort {

  type Rank = (int, int)

  predicate Before(a: Rank, b: Rank) {
    a.0 < b.0 || (a.0 == b.0 && a.1 < b.1)
  }

  function Take<T>(xs: seq<T>, n: nat): (r: seq<T>)
    ensures |r| <= n && |r| <= |xs|
  {
    if |xs| <= n then xs else xs[..n]
  }

  /** Puts x behind every item that does not rank after it. */
  function Insert<T>(xs: seq<T>, x: T, rank: T -> Rank): (r: seq<T>)
    ensures |r| == |xs| + 1
  {
    if xs == [] then [x]
    else if Before(rank(x), rank(xs[|xs| - 1])) then Insert(xs[..|xs| - 1], x, rank) + [xs[|xs| - 1]]
    else xs + [x]
  }

  function Sort<T>(xs: seq<T>, rank: T -> Rank): (r: seq<T>)
    ensures |r| == |xs|
  {
    if xs == [] then [] else Insert(Sort(xs[..|xs| - 1], rank), xs[|xs| - 1], rank)
  }

  ghost predicate Sorted<T>(xs: seq<T>, rank: T -> Rank) {
    forall i, j :: 0 <= i < j < |xs| ==> !Before(rank(xs[j]), rank(xs[i]))
  }

  lemma {:induction false} InsertKeepsItems<T>(xs: seq<T>, x: T, rank: T -> Rank)
    ensures multiset(Insert(xs, x, rank)) == multiset(xs) + multiset{x}
  {
    hide Before;
    if xs != [] {
      var last := xs[|xs| - 1];
      assert xs == xs[..|xs| - 1] + [last];
      if Before(rank(x), rank(last)) { InsertKeepsItems(xs[..|xs| - 1], x, rank); }
    }
  }

  lemma {:induction false} InsertKeepsSorted<T>(xs: seq<T>, x: T, rank: T -> Rank)
    requires Sorted(xs, rank)
    ensures Sorted(Insert(xs, x, rank), rank)
    ensures multiset(Insert(xs, x, rank)) == multiset(xs) + multiset{x}
  {
    InsertKeepsItems(xs, x, rank);
    if xs != [] {
      var front, last := xs[..|xs| - 1], xs[|xs| - 1];
      if Before(rank(x), rank(last)) {
        InsertKeepsSorted(front, x, rank);
        var r := Insert(front, x, rank);
        forall i | 0 <= i < |r| ensures !Before(rank(last), rank(r[i])) {
          assert r[i] in multiset(r);
          if r[i] in front { var k :| 0 <= k < |front| && front[k] == r[i]; assert xs[k] == r[i]; }
        }
        SortedPush(r, last, rank);
      }
    }
  }

  lemma SortedPush<T>(r: seq<T>, last: T, rank: T -> Rank)
    requires Sorted(r, rank) && forall i :: 0 <= i < |r| ==> !Before(rank(last), rank(r[i]))
    ensures Sorted(r + [last], rank)
  {
    hide Before;
  }

  lemma {:induction false} SortIsSorted<T>(xs: seq<T>, rank: T -> Rank)
    ensures Sorted(Sort(xs, rank), rank)
    ensures multiset(Sort(xs, rank)) == multiset(xs)
  {
    if xs != [] {
      SortIsSorted(xs[..|xs| - 1], rank);
      assert xs == xs[..|xs| - 1] + [xs[|xs| - 1]];
      InsertKeepsSorted(Sort(xs[..|xs| - 1], rank), xs[|xs| - 1], rank);
    }
  }

  /** Items of equal rank keep their order: restricted to one rank, sorting changes nothing. */
  function OfRank<T>(xs: seq<T>, rank: T -> Rank, at: Rank): seq<T> {
    if xs == [] then []
    else OfRank(xs[..|xs| - 1], rank, at) + (if rank(xs[|xs| - 1]) == at then [xs[|xs| - 1]] else [])
  }

  lemma {:induction false} OfRankSplit<T>(xs: seq<T>, x: T, rank: T -> Rank, at: Rank)
    ensures OfRank(xs + [x], rank, at) == OfRank(xs, rank, at) + (if rank(x) == at then [x] else [])
  {
    assert (xs + [x])[..|xs|] == xs;
  }

  lemma FrontSorted<T>(xs: seq<T>, rank: T -> Rank)
    requires Sorted(xs, rank) && xs != []
    ensures Sorted(xs[..|xs| - 1], rank)
  {
    hide Before;
  }

  lemma {:induction false} InsertIsStable<T>(xs: seq<T>, x: T, rank: T -> Rank, at: Rank)
    requires Sorted(xs, rank)
    ensures OfRank(Insert(xs, x, rank), rank, at) == OfRank(xs + [x], rank, at)
  {
    OfRankSplit(xs, x, rank, at);
    if xs != [] && Before(rank(x), rank(xs[|xs| - 1])) {
      var front, last := xs[..|xs| - 1], xs[|xs| - 1];
      FrontSorted(xs, rank);
      InsertIsStable(front, x, rank, at);
      hide OfRank, Sorted;
      OfRankSplit(front, x, rank, at);
      OfRankSplit(Insert(front, x, rank), last, rank, at);
      OfRankSplit(front, last, rank, at);
      assert front + [last] == xs;
    }
  }

  lemma {:induction false} SortIsStable<T>(xs: seq<T>, rank: T -> Rank, at: Rank)
    ensures OfRank(Sort(xs, rank), rank, at) == OfRank(xs, rank, at)
  {
    if xs != [] {
      var front, last := xs[..|xs| - 1], xs[|xs| - 1];
      SortIsStable(front, rank, at);
      SortIsSorted(front, rank);
      InsertIsStable(Sort(front, rank), last, rank, at);
      OfRankSplit(Sort(front, rank), last, rank, at);
    }
  }

  lemma {:induction false} SortOfSorted<T>(xs: seq<T>, rank: T -> Rank)
    requires Sorted(xs, rank)
    ensures Sort(xs, rank) == xs
  {
    if xs != [] {
      SortOfSorted(xs[..|xs| - 1], rank);
      if |xs| > 1 { assert !Before(rank(xs[|xs| - 1]), rank(xs[|xs| - 2])); }
    }
  }

  /** Dropping what falls beyond the first n items before an insertion loses nothing. */
  lemma {:induction false} InsertInBound<T>(xs: seq<T>, x: T, rank: T -> Rank, n: nat)
    requires Sorted(xs, rank)
    ensures Take(Insert(Take(xs, n), x, rank), n) == Take(Insert(xs, x, rank), n)
  {
    if |xs| > n {
      var front, last := xs[..|xs| - 1], xs[|xs| - 1];
      if Before(rank(x), rank(last)) {
        InsertInBound(front, x, rank, n);
        assert Take(front, n) == Take(xs, n);
      } else if n > 0 {
        assert !Before(rank(last), rank(xs[n - 1]));
        assert Insert(xs[..n], x, rank) == xs[..n] + [x];
      }
    }
  }

  /** The scan that appends, sorts and drops the last item beyond the bound: one step of it. */
  lemma BoundedScanStep<T>(seen: seq<T>, x: T, rank: T -> Rank, n: nat)
    ensures Take(Sort(Take(Sort(seen, rank), n) + [x], rank), n) == Take(Sort(seen + [x], rank), n)
  {
    var all := Sort(seen, rank);
    var kept := Take(all, n);
    SortIsSorted(seen, rank);
    SortOfSorted(kept, rank);
    assert (kept + [x])[..|kept|] == kept;
    assert (seen + [x])[..|seen|] == seen;
    InsertInBound(all, x, rank, n);
  }

  /** The first n sorted items come from the input, and nothing left out ranks before one of them. */
  lemma FirstAreLeast<T>(xs: seq<T>, rank: T -> Rank, n: nat, c: T)
    requires c in Take(Sort(xs, rank), n)
    ensures c in xs
    ensures forall x :: x in xs && x !in Take(Sort(xs, rank), n) ==>
              |Take(Sort(xs, rank), n)| == n && !Before(rank(x), rank(c))
  {
    var sorted := Sort(xs, rank);
    SortIsSorted(xs, rank);
    assert c in multiset(xs);
    var b :| 0 <= b < |Take(sorted, n)| && Take(sorted, n)[b] == c;
    forall x | x in xs && x !in Take(sorted, n)
      ensures |Take(sorted, n)| == n && !Before(rank(x), rank(c))
    {
      assert x in multiset(sorted);
      var at :| 0 <= at < |sorted| && sorted[at] == x;
    }
  }
}
