/** JavaScript's stable sort under a comparison given as a rank, as `localeCompare` is. */
module Sorting {
  function InsertBy<T>(x: T, ys: seq<T>, rank: T -> real): (r: seq<T>)
    ensures multiset(r) == multiset(ys) + multiset{x}
    ensures |r| == |ys| + 1
  {
    if ys == [] then [x]
    else if rank(ys[0]) < rank(x) then
      assert ys == [ys[0]] + ys[1..];
      [ys[0]] + InsertBy(x, ys[1..], rank)
    else [x] + ys
  }

  function SortBy<T>(xs: seq<T>, rank: T -> real): (r: seq<T>)
    ensures multiset(r) == multiset(xs)
    ensures |r| == |xs|
  {
    if xs == [] then []
    else
      assert xs == [xs[0]] + xs[1..];
      InsertBy(xs[0], SortBy(xs[1..], rank), rank)
  }

  predicate SortedBy<T>(xs: seq<T>, rank: T -> real) {
    forall i, j | 0 <= i < j < |xs| :: rank(xs[i]) <= rank(xs[j])
  }

  lemma {:induction false} InsertBySorted<T>(x: T, ys: seq<T>, rank: T -> real)
    requires SortedBy(ys, rank)
    ensures SortedBy(InsertBy(x, ys, rank), rank)
  {
    if ys != [] && rank(ys[0]) < rank(x) {
      InsertBySorted(x, ys[1..], rank);
      var r := InsertBy(x, ys[1..], rank);
      forall j | 0 <= j < |r| ensures rank(ys[0]) <= rank(r[j]) {
        assert r[j] in multiset(r);
      }
    }
  }

  lemma {:induction false} SortBySorted<T>(xs: seq<T>, rank: T -> real)
    ensures SortedBy(SortBy(xs, rank), rank)
  {
    if xs != [] {
      SortBySorted(xs[1..], rank);
      InsertBySorted(xs[0], SortBy(xs[1..], rank), rank);
    }
  }

  /** The elements of one rank, in order. */
  function OfRank<T>(xs: seq<T>, rank: T -> real, r: real): seq<T> {
    if xs == [] then []
    else (if rank(xs[0]) == r then [xs[0]] else []) + OfRank(xs[1..], rank, r)
  }

  lemma OfRankCons<T>(x: T, xs: seq<T>, rank: T -> real, r: real)
    ensures OfRank([x] + xs, rank, r) == (if rank(x) == r then [x] else []) + OfRank(xs, rank, r)
  {
    assert ([x] + xs)[1..] == xs;
  }

  lemma Exchange<T>(a: seq<T>, b: seq<T>, rest: seq<T>)
    requires a == [] || b == []
    ensures a + (b + rest) == b + (a + rest)
  {
  }

  lemma {:induction false} InsertByStable<T>(x: T, ys: seq<T>, rank: T -> real, r: real)
    ensures OfRank(InsertBy(x, ys, rank), rank, r) == (if rank(x) == r then [x] else []) + OfRank(ys, rank, r)
  {
    if ys != [] && rank(ys[0]) < rank(x) {
      InsertByStable(x, ys[1..], rank, r);
      OfRankCons(ys[0], InsertBy(x, ys[1..], rank), rank, r);
      var first := if rank(ys[0]) == r then [ys[0]] else [];
      var mine := if rank(x) == r then [x] else [];
      Exchange(first, mine, OfRank(ys[1..], rank, r));
    } else {
      OfRankCons(x, ys, rank, r);
    }
  }

  /** Sorting never swaps two elements of one rank. */
  lemma {:induction false} SortByStable<T>(xs: seq<T>, rank: T -> real, r: real)
    ensures OfRank(SortBy(xs, rank), rank, r) == OfRank(xs, rank, r)
  {
    if xs != [] {
      SortByStable(xs[1..], rank, r);
      InsertByStable(xs[0], SortBy(xs[1..], rank), rank, r);
    }
  }

  function Map<S, T>(f: S -> T, xs: seq<S>): (r: seq<T>)
    ensures |r| == |xs| && forall i | 0 <= i < |xs| :: r[i] == f(xs[i])
  {
    seq(|xs|, i requires 0 <= i < |xs| => f(xs[i]))
  }

  lemma MapHead<S, T>(f: S -> T, x: S, xs: seq<S>)
    ensures Map(f, [x] + xs) == [f(x)] + Map(f, xs)
  {
  }

  lemma {:induction false} InsertByMap<S, T>(f: S -> T, x: S, ys: seq<S>, rank: T -> real, rankS: S -> real)
    requires rankS(x) == rank(f(x)) && forall y | y in ys :: rankS(y) == rank(f(y))
    ensures InsertBy(f(x), Map(f, ys), rank) == Map(f, InsertBy(x, ys, rankS))
  {
    if ys == [] {
    } else if rankS(ys[0]) < rankS(x) {
      InsertByMap(f, x, ys[1..], rank, rankS);
      MapHead(f, ys[0], ys[1..]);
      MapHead(f, ys[0], InsertBy(x, ys[1..], rankS));
      assert ys == [ys[0]] + ys[1..];
      assert Map(f, ys)[1..] == Map(f, ys[1..]);
    } else {
      MapHead(f, x, ys);
    }
  }

  /** Sorting the keys and then fetching is fetching and then sorting. */
  lemma {:induction false} SortByMap<S, T>(f: S -> T, xs: seq<S>, rank: T -> real, rankS: S -> real)
    requires forall x | x in xs :: rankS(x) == rank(f(x))
    ensures SortBy(Map(f, xs), rank) == Map(f, SortBy(xs, rankS))
  {
    if xs != [] {
      SortByMap(f, xs[1..], rank, rankS);
      assert Map(f, xs)[1..] == Map(f, xs[1..]);
      var s := SortBy(xs[1..], rankS);
      forall y | y in s ensures rankS(y) == rank(f(y)) {
        assert y in multiset(s);
      }
      InsertByMap(f, xs[0], s, rank, rankS);
    }
  }
}
