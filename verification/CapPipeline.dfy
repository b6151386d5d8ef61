/**
 * The reduction every compilation ends with: drop unrequested classes, drop duplicates, order,
 * and take greedily what the budget allows. Everything dropped is recorded.
 */
module CapPipeline {
  import opened Wrappers
  import opened Json
  import opened ContextModel

  /** The order of `localeCompare` on owners, references and item ids. */
  datatype Ranks = Ranks(text: Text -> real, id: Id -> real)

  function ClassRank(c: Class): real {
    match c
    case DerivedSummary => 0.0
    case Fact => 1.0
    case Inference => 2.0
  }

  predicate Before(a: Item, b: Item, ranks: Ranks) {
    ClassRank(a.kind) < ClassRank(b.kind)
    || (a.kind == b.kind
        && (ranks.text(a.owner) < ranks.text(b.owner)
            || (ranks.text(a.owner) == ranks.text(b.owner)
                && (ranks.text(a.ref) < ranks.text(b.ref)
                    || (ranks.text(a.ref) == ranks.text(b.ref) && ranks.id(a.id) < ranks.id(b.id))))))
  }

  function Insert(x: Item, ys: seq<Item>, ranks: Ranks): (r: seq<Item>)
    ensures multiset(r) == multiset(ys) + multiset{x}
  {
    if ys == [] then [x]
    else if Before(ys[0], x, ranks) then
      assert ys == [ys[0]] + ys[1..];
      [ys[0]] + Insert(x, ys[1..], ranks)
    else [x] + ys
  }

  function Sort(xs: seq<Item>, ranks: Ranks): (r: seq<Item>)
    ensures multiset(r) == multiset(xs)
  {
    if xs == [] then []
    else
      assert xs == [xs[0]] + xs[1..];
      Insert(xs[0], Sort(xs[1..], ranks), ranks)
  }

  // ----- Specification ------------------------------------------------------------------------

  /** What a stage keeps, and what it records as dropped. */
  datatype Stage = Stage(kept: seq<Item>, dropped: seq<Exclusion>)

  function ByClass(items: seq<Item>, classes: Option<set<Class>>): Stage {
    if items == [] then Stage([], [])
    else
      var s := ByClass(items[..|items| - 1], classes);
      var x := items[|items| - 1];
      if Requested(classes, x.kind) then Stage(s.kept + [x], s.dropped)
      else Stage(s.kept, s.dropped + [Exclusion(x.id, ClassNotRequested)])
  }

  predicate HasKey(items: seq<Item>, k: Key) {
    exists x | x in items :: KeyOf(x) == k
  }

  function Unique(items: seq<Item>): Stage {
    if items == [] then Stage([], [])
    else
      var s := Unique(items[..|items| - 1]);
      var x := items[|items| - 1];
      if HasKey(s.kept, KeyOf(x)) then Stage(s.kept, s.dropped + [Exclusion(x.id, Duplicate)])
      else Stage(s.kept + [x], s.dropped)
  }

  predicate Room(kept: seq<Item>, x: Item, limits: Limits) {
    |kept| < limits.items && TotalChars(kept) + |x.content| <= limits.chars
    && EstimateTokens(TotalChars(kept) + |x.content|) <= limits.tokens
  }

  function Cap(items: seq<Item>, limits: Limits): Stage {
    if items == [] then Stage([], [])
    else
      var s := Cap(items[..|items| - 1], limits);
      var x := items[|items| - 1];
      if Room(s.kept, x, limits) then Stage(s.kept + [x], s.dropped)
      else Stage(s.kept, s.dropped + [Exclusion(x.id, ScopeExceeded)])
  }

  function Pipeline(items: seq<Item>, classes: Option<set<Class>>, limits: Limits, ranks: Ranks): Stage {
    var requested := ByClass(items, classes);
    var unique := Unique(requested.kept);
    var capped := Cap(Sort(unique.kept, ranks), limits);
    Stage(capped.kept, requested.dropped + unique.dropped + capped.dropped)
  }

  // ----- The loops ------------------------------------------------------------------------------

  method CapItems(
    items: seq<Item>, classes: Option<set<Class>>, limits: Limits, ranks: Ranks, before: seq<Exclusion>)
    returns (capped: seq<Item>, excluded: seq<Exclusion>)
    ensures capped == Pipeline(items, classes, limits, ranks).kept
    ensures excluded == before + Pipeline(items, classes, limits, ranks).dropped
  {
    var candidates, afterClass := KeepRequested(items, classes, before);
    var unique, afterUnique := DropDuplicates(candidates, afterClass);
    var sorted := Sort(unique, ranks);
    capped, excluded := TakeWithin(sorted, limits, afterUnique);
    Regroup(before, ByClass(items, classes).dropped, Unique(candidates).dropped, Cap(sorted, limits).dropped);
  }

  lemma Regroup(a: seq<Exclusion>, b: seq<Exclusion>, c: seq<Exclusion>, d: seq<Exclusion>)
    ensures a + b + c + d == a + (b + c + d)
  {
  }

  method KeepRequested(items: seq<Item>, classes: Option<set<Class>>, before: seq<Exclusion>)
    returns (candidates: seq<Item>, excluded: seq<Exclusion>)
    ensures candidates == ByClass(items, classes).kept && excluded == before + ByClass(items, classes).dropped
  {
    candidates, excluded := [], before;
    for i := 0 to |items|
      invariant candidates == ByClass(items[..i], classes).kept
      invariant excluded == before + ByClass(items[..i], classes).dropped
    {
      assert items[..i + 1][..i] == items[..i];
      if Requested(classes, items[i].kind) {
        candidates := candidates + [items[i]];
      } else {
        excluded := excluded + [Exclusion(items[i].id, ClassNotRequested)];
      }
    }
    assert items[..|items|] == items;
  }

  method DropDuplicates(candidates: seq<Item>, before: seq<Exclusion>)
    returns (unique: seq<Item>, excluded: seq<Exclusion>)
    ensures unique == Unique(candidates).kept && excluded == before + Unique(candidates).dropped
  {
    unique, excluded := [], before;
    for i := 0 to |candidates|
      invariant unique == Unique(candidates[..i]).kept
      invariant excluded == before + Unique(candidates[..i]).dropped
    {
      assert candidates[..i + 1][..i] == candidates[..i];
      if HasKey(unique, KeyOf(candidates[i])) {
        excluded := excluded + [Exclusion(candidates[i].id, Duplicate)];
      } else {
        unique := unique + [candidates[i]];
      }
    }
    assert candidates[..|candidates|] == candidates;
  }

  method TakeWithin(sorted: seq<Item>, limits: Limits, before: seq<Exclusion>)
    returns (capped: seq<Item>, excluded: seq<Exclusion>)
    ensures capped == Cap(sorted, limits).kept && excluded == before + Cap(sorted, limits).dropped
  {
    capped, excluded := [], before;
    var totalChars := 0;
    for i := 0 to |sorted|
      invariant capped == Cap(sorted[..i], limits).kept
      invariant excluded == before + Cap(sorted[..i], limits).dropped
      invariant totalChars == TotalChars(capped)
    {
      assert sorted[..i + 1][..i] == sorted[..i];
      var nextTotal := totalChars + |sorted[i].content|;
      if |capped| >= limits.items || nextTotal > limits.chars || EstimateTokens(nextTotal) > limits.tokens {
        excluded := excluded + [Exclusion(sorted[i].id, ScopeExceeded)];
      } else {
        TotalCharsSnoc(capped, sorted[i]);
        capped := capped + [sorted[i]];
        totalChars := nextTotal;
      }
    }
    assert sorted[..|sorted|] == sorted;
  }

  // ----- Conservation ------------------------------------------------------------------------------

  /** A stage loses no id: each is kept or recorded. */
  predicate Conserves(items: seq<Item>, s: Stage) {
    multiset(IdsOf(items)) == multiset(IdsOf(s.kept)) + multiset(ExcludedIds(s.dropped))
  }

  lemma IdsSnoc(items: seq<Item>, x: Item)
    ensures IdsOf(items + [x]) == IdsOf(items) + [x.id]
  {
  }

  lemma ExcludedSnoc(es: seq<Exclusion>, e: Exclusion)
    ensures ExcludedIds(es + [e]) == ExcludedIds(es) + [e.id]
  {
  }

  /** One item more, kept or dropped. */
  lemma ConservesStep(items: seq<Item>, s: Stage, x: Item, t: Stage, why: Why)
    requires Conserves(items, s)
    requires t == Stage(s.kept + [x], s.dropped) || t == Stage(s.kept, s.dropped + [Exclusion(x.id, why)])
    ensures Conserves(items + [x], t)
  {
    IdsSnoc(items, x);
    IdsSnoc(s.kept, x);
    ExcludedSnoc(s.dropped, Exclusion(x.id, why));
  }

  lemma {:induction false} ByClassConserves(items: seq<Item>, classes: Option<set<Class>>)
    ensures Conserves(items, ByClass(items, classes))
  {
    if items != [] {
      var n := |items| - 1;
      ByClassConserves(items[..n], classes);
      ConservesStep(items[..n], ByClass(items[..n], classes), items[n], ByClass(items, classes), ClassNotRequested);
      assert items == items[..n] + [items[n]];
    }
  }

  lemma {:induction false} ByClassOnly(items: seq<Item>, classes: Option<set<Class>>)
    ensures forall x | x in ByClass(items, classes).kept :: x in items && Requested(classes, x.kind)
    ensures forall e | e in ByClass(items, classes).dropped :: e.why.ClassNotRequested?
  {
    if items != [] {
      ByClassOnly(items[..|items| - 1], classes);
    }
  }

  predicate DistinctItemKeys(items: seq<Item>) {
    forall i, j | 0 <= i < j < |items| :: KeyOf(items[i]) != KeyOf(items[j])
  }

  lemma {:induction false} UniqueConserves(items: seq<Item>)
    ensures Conserves(items, Unique(items))
    ensures forall e | e in Unique(items).dropped :: e.why.Duplicate?
  {
    if items != [] {
      var n := |items| - 1;
      UniqueConserves(items[..n]);
      ConservesStep(items[..n], Unique(items[..n]), items[n], Unique(items), Duplicate);
      assert items == items[..n] + [items[n]];
    }
  }

  lemma {:induction false} UniqueKeys(items: seq<Item>)
    ensures DistinctItemKeys(Unique(items).kept)
    ensures forall x | x in Unique(items).kept :: x in items
  {
    if items != [] {
      UniqueKeys(items[..|items| - 1]);
    }
  }

  lemma HasKeyStays(items: seq<Item>, x: Item, k: Key)
    ensures HasKey(items + [x], k) <==> HasKey(items, k) || KeyOf(x) == k
  {
    if HasKey(items, k) {
      var y :| y in items && KeyOf(y) == k;
      assert y in items + [x];
    }
    assert x in items + [x];
  }

  /** Dropping duplicates drops no key. */
  lemma {:induction false} UniqueCovers(items: seq<Item>, x: Item)
    requires x in items
    ensures HasKey(Unique(items).kept, KeyOf(x))
  {
    var n := |items| - 1;
    var s := Unique(items[..n]).kept;
    assert items == items[..n] + [items[n]];
    if x in items[..n] {
      UniqueCovers(items[..n], x);
    }
    HasKeyStays(s, items[n], KeyOf(x));
  }

  /** A duplicate-free list is left alone. */
  lemma {:induction false} UniqueKeepsDistinct(items: seq<Item>)
    requires DistinctItemKeys(items)
    ensures Unique(items) == Stage(items, [])
  {
    if items != [] {
      var n := |items| - 1;
      UniqueKeepsDistinct(items[..n]);
      assert !HasKey(items[..n], KeyOf(items[n])) by {
        forall x | x in items[..n] ensures KeyOf(x) != KeyOf(items[n]) {
          var i :| 0 <= i < n && items[i] == x;
        }
      }
      assert items == items[..n] + [items[n]];
    }
  }

  lemma RoomShrinks(kept: seq<Item>, y: Item, x: Item, limits: Limits)
    requires !Room(kept, x, limits)
    ensures !Room(kept + [y], x, limits)
  {
    TotalCharsSnoc(kept, y);
    TokensMonotone(TotalChars(kept) + |x.content|, TotalChars(kept + [y]) + |x.content|);
  }

  lemma {:induction false} CapConserves(items: seq<Item>, limits: Limits)
    ensures Conserves(items, Cap(items, limits))
    ensures forall e | e in Cap(items, limits).dropped :: e.why.ScopeExceeded?
  {
    if items != [] {
      var n := |items| - 1;
      CapConserves(items[..n], limits);
      ConservesStep(items[..n], Cap(items[..n], limits), items[n], Cap(items, limits), ScopeExceeded);
      assert items == items[..n] + [items[n]];
    }
  }

  lemma {:induction false} CapWithin(items: seq<Item>, limits: Limits)
    requires limits.items >= 0 && limits.chars >= 0 && limits.tokens >= 0
    ensures Within(Totals(Cap(items, limits).kept), limits)
  {
    if items != [] {
      var n := |items| - 1;
      var s, x := Cap(items[..n], limits), items[n];
      CapWithin(items[..n], limits);
      if Room(s.kept, x, limits) {
        assert Cap(items, limits).kept == s.kept + [x];
        TotalCharsSnoc(s.kept, x);
      }
    }
  }

  predicate LeftOut(e: Exclusion, kept: seq<Item>, items: seq<Item>, limits: Limits) {
    exists x | x in items :: x.id == e.id && !Room(kept, x, limits)
  }

  lemma LeftOutStays(e: Exclusion, kept: seq<Item>, y: Item, items: seq<Item>, limits: Limits)
    requires LeftOut(e, kept, items, limits)
    ensures LeftOut(e, kept, items + [y], limits) && LeftOut(e, kept + [y], items + [y], limits)
  {
    var x :| x in items && x.id == e.id && !Room(kept, x, limits);
    assert x in items + [y];
    RoomShrinks(kept, y, x, limits);
  }

  /** Whatever the budget left out would still break some limit if added to the final result. */
  lemma {:induction false} CapIsMaximal(items: seq<Item>, limits: Limits)
    ensures forall e | e in Cap(items, limits).dropped :: LeftOut(e, Cap(items, limits).kept, items, limits)
  {
    if items != [] {
      var n := |items| - 1;
      var s, t, x := Cap(items[..n], limits), Cap(items, limits), items[n];
      CapIsMaximal(items[..n], limits);
      assert items == items[..n] + [x];
      forall e | e in t.dropped ensures LeftOut(e, t.kept, items, limits) {
        if e in s.dropped {
          LeftOutStays(e, s.kept, x, items[..n], limits);
        } else {
          assert x in items && x.id == e.id;
        }
      }
    }
  }

  lemma {:induction false} CapKeys(items: seq<Item>, limits: Limits)
    requires DistinctItemKeys(items)
    ensures DistinctItemKeys(Cap(items, limits).kept)
    ensures forall x | x in Cap(items, limits).kept :: x in items
  {
    if items != [] {
      CapKeys(items[..|items| - 1], limits);
      var s := Cap(items[..|items| - 1], limits).kept;
      forall y | y in s ensures KeyOf(y) != KeyOf(items[|items| - 1]) {
        assert y in items[..|items| - 1];
      }
    }
  }

  lemma WithoutOne(b: seq<Item>, k: nat)
    requires k < |b|
    ensures
      var rest := b[..k] + b[k + 1..];
      multiset(rest) == multiset(b) - multiset{b[k]}
      && multiset(IdsOf(b)) == multiset(IdsOf(rest)) + multiset{b[k].id}
  {
    var x := b[k];
    assert b == b[..k] + ([x] + b[k + 1..]);
    IdsSplit(b[..k], [x] + b[k + 1..]);
    IdsSplit([x], b[k + 1..]);
    IdsSplit(b[..k], b[k + 1..]);
    assert IdsOf([x]) == [x.id];
  }

  lemma {:induction false} SameItemsSameIds(a: seq<Item>, b: seq<Item>)
    requires multiset(a) == multiset(b)
    ensures multiset(IdsOf(a)) == multiset(IdsOf(b))
    decreases |a|
  {
    if a == [] {
      assert |multiset(b)| == 0;
    } else {
      assert a[0] in multiset(b);
      var k :| 0 <= k < |b| && b[k] == a[0];
      WithoutOne(a, 0);
      WithoutOne(b, k);
      SameItemsSameIds(a[..0] + a[1..], b[..k] + b[k + 1..]);
    }
  }

  lemma IdsSplit(a: seq<Item>, b: seq<Item>)
    ensures IdsOf(a + b) == IdsOf(a) + IdsOf(b)
    ensures multiset(IdsOf(a + b)) == multiset(IdsOf(a)) + multiset(IdsOf(b))
  {
    assert IdsOf(a + b) == IdsOf(a) + IdsOf(b);
  }

  // ----- Order independence ----------------------------------------------------------------------------

  lemma BeforeTransitive(a: Item, b: Item, c: Item, ranks: Ranks)
    requires Before(a, b, ranks) && Before(b, c, ranks)
    ensures Before(a, c, ranks)
  {
  }

  predicate DistinctIds(items: seq<Item>) {
    forall i, j | 0 <= i < j < |items| :: items[i].id != items[j].id
  }

  /** Different ids compare as different, as hexadecimal digests do. */
  ghost predicate IdsSeparated(ranks: Ranks) {
    forall a: Id, b: Id :: ranks.id(a) == ranks.id(b) ==> a == b
  }

  lemma BeforeTotal(a: Item, b: Item, ranks: Ranks)
    requires IdsSeparated(ranks) && a.id != b.id
    ensures Before(a, b, ranks) || Before(b, a, ranks)
  {
    assert ranks.id(a.id) != ranks.id(b.id);
  }

  predicate Ascending(items: seq<Item>, ranks: Ranks) {
    items == [] || ((forall y | y in items[1..] :: Before(items[0], y, ranks)) && Ascending(items[1..], ranks))
  }

  lemma {:induction false} InsertAscending(x: Item, ys: seq<Item>, ranks: Ranks)
    requires IdsSeparated(ranks) && Ascending(ys, ranks) && forall y | y in ys :: y.id != x.id
    ensures Ascending(Insert(x, ys, ranks), ranks)
  {
    var r := Insert(x, ys, ranks);
    if ys != [] {
      if Before(ys[0], x, ranks) {
        InsertAscending(x, ys[1..], ranks);
        var rest := Insert(x, ys[1..], ranks);
        forall y | y in rest ensures Before(ys[0], y, ranks) {
          assert y in multiset(rest);
        }
        assert r[1..] == rest;
      } else {
        BeforeTotal(ys[0], x, ranks);
        forall y | y in ys ensures Before(x, y, ranks) {
          if y != ys[0] {
            BeforeTransitive(x, ys[0], y, ranks);
          }
        }
        assert r[1..] == ys;
      }
    }
  }

  lemma {:induction false} SortAscending(xs: seq<Item>, ranks: Ranks)
    requires IdsSeparated(ranks) && DistinctIds(xs)
    ensures Ascending(Sort(xs, ranks), ranks)
  {
    if xs != [] {
      SortAscending(xs[1..], ranks);
      var r := Sort(xs[1..], ranks);
      forall y | y in r ensures y.id != xs[0].id {
        assert y in multiset(r);
      }
      InsertAscending(xs[0], r, ranks);
    }
  }

  lemma FirstIsFirst(a: seq<Item>, b: seq<Item>, ranks: Ranks)
    requires a != [] && b != [] && Ascending(a, ranks) && Ascending(b, ranks) && multiset(a) == multiset(b)
    ensures a[0] == b[0]
  {
    assert a[0] in multiset(b) && b[0] in multiset(a);
    if a[0] != b[0] {
      assert a[0] in b[1..] && b[0] in a[1..];
      BeforeTransitive(a[0], b[0], a[0], ranks);
    }
  }

  /** There is one ascending list of given items. */
  lemma {:induction false} AscendingUnique(a: seq<Item>, b: seq<Item>, ranks: Ranks)
    requires Ascending(a, ranks) && Ascending(b, ranks) && multiset(a) == multiset(b)
    ensures a == b
    decreases |a|
  {
    assert |multiset(a)| == |multiset(b)|;
    if a != [] {
      FirstIsFirst(a, b, ranks);
      RestMultiset(a);
      RestMultiset(b);
      AscendingUnique(a[1..], b[1..], ranks);
      assert a == [a[0]] + a[1..] && b == [b[0]] + b[1..];
    }
  }

  lemma RestMultiset(a: seq<Item>)
    requires a != []
    ensures multiset(a[1..]) == multiset(a) - multiset{a[0]}
  {
    assert a == [a[0]] + a[1..];
  }

  /** The class filter commutes with reordering. */
  lemma {:induction false} ByClassMultiset(items: seq<Item>, classes: Option<set<Class>>, x: Item)
    ensures multiset(ByClass(items, classes).kept)[x] == if Requested(classes, x.kind) then multiset(items)[x] else 0
  {
    if items != [] {
      var n := |items| - 1;
      ByClassMultiset(items[..n], classes, x);
      assert items == items[..n] + [items[n]];
      assert multiset(items) == multiset(items[..n]) + multiset{items[n]};
    }
  }

  lemma {:induction false} ByClassDistinct(items: seq<Item>, classes: Option<set<Class>>)
    requires DistinctIds(items) && DistinctItemKeys(items)
    ensures DistinctIds(ByClass(items, classes).kept) && DistinctItemKeys(ByClass(items, classes).kept)
  {
    if items != [] {
      var n := |items| - 1;
      ByClassDistinct(items[..n], classes);
      ByClassOnly(items[..n], classes);
      forall y | y in ByClass(items[..n], classes).kept ensures y.id != items[n].id && KeyOf(y) != KeyOf(items[n]) {
        assert y in items[..n];
      }
    }
  }

  /** Items with pairwise distinct ids and keys are reduced to the same result in whatever order they come. */
  lemma PipelineOrderIndependent(
    a: seq<Item>, b: seq<Item>, classes: Option<set<Class>>, limits: Limits, ranks: Ranks)
    requires IdsSeparated(ranks) && multiset(a) == multiset(b)
    requires DistinctIds(a) && DistinctItemKeys(a) && DistinctIds(b) && DistinctItemKeys(b)
    ensures Pipeline(a, classes, limits, ranks).kept == Pipeline(b, classes, limits, ranks).kept
  {
    var p, q := ByClass(a, classes).kept, ByClass(b, classes).kept;
    forall x ensures multiset(p)[x] == multiset(q)[x] {
      ByClassMultiset(a, classes, x);
      ByClassMultiset(b, classes, x);
    }
    ByClassDistinct(a, classes);
    ByClassDistinct(b, classes);
    UniqueKeepsDistinct(p);
    UniqueKeepsDistinct(q);
    SortAscending(p, ranks);
    SortAscending(q, ranks);
    AscendingUnique(Sort(p, ranks), Sort(q, ranks), ranks);
  }

  // ----- The whole pipeline --------------------------------------------------------------------------------

  /**
   * No id is lost, the result has distinct keys and requested classes and fits, and nothing the budget left
   * out would have fitted.
   */
  lemma PipelineOk(items: seq<Item>, classes: Option<set<Class>>, limits: Limits, ranks: Ranks)
    requires limits.items >= 0 && limits.chars >= 0 && limits.tokens >= 0
    ensures
      var s := Pipeline(items, classes, limits, ranks);
      Conserves(items, s) && DistinctItemKeys(s.kept) && Within(Totals(s.kept), limits)
      && (forall x | x in s.kept :: x in items && Requested(classes, x.kind))
      && forall e | e in s.dropped && e.why.ScopeExceeded? :: LeftOut(e, s.kept, items, limits)
  {
    var r := ByClass(items, classes);
    var u := Unique(r.kept);
    var sorted := Sort(u.kept, ranks);
    var c := Cap(sorted, limits);
    PipelineConserves(items, classes, limits, ranks);
    CapWithin(sorted, limits);
    PipelineKeys(items, classes, limits, ranks);
    PipelineMaximal(items, classes, limits, ranks);
  }

  lemma ExcludedSplit(a: seq<Exclusion>, b: seq<Exclusion>)
    ensures multiset(ExcludedIds(a + b)) == multiset(ExcludedIds(a)) + multiset(ExcludedIds(b))
  {
    assert ExcludedIds(a + b) == ExcludedIds(a) + ExcludedIds(b);
  }

  /** Two conserving stages make one. */
  lemma ConservesChain(items: seq<Item>, r: Stage, middle: seq<Item>, u: Stage)
    requires Conserves(items, r) && multiset(IdsOf(r.kept)) == multiset(IdsOf(middle)) && Conserves(middle, u)
    ensures Conserves(items, Stage(u.kept, r.dropped + u.dropped))
  {
    ExcludedSplit(r.dropped, u.dropped);
  }

  lemma PipelineConserves(items: seq<Item>, classes: Option<set<Class>>, limits: Limits, ranks: Ranks)
    ensures Conserves(items, Pipeline(items, classes, limits, ranks))
  {
    var r := ByClass(items, classes);
    var u := Unique(r.kept);
    var sorted := Sort(u.kept, ranks);
    ByClassConserves(items, classes);
    UniqueConserves(r.kept);
    ConservesChain(items, r, r.kept, u);
    SameItemsSameIds(u.kept, sorted);
    CapConserves(sorted, limits);
    ConservesChain(items, Stage(u.kept, r.dropped + u.dropped), sorted, Cap(sorted, limits));
  }

  lemma SortedSame(xs: seq<Item>, ranks: Ranks)
    ensures forall x :: x in Sort(xs, ranks) <==> x in xs
  {
    forall x ensures x in Sort(xs, ranks) <==> x in xs {
      assert x in multiset(Sort(xs, ranks)) <==> x in multiset(xs);
    }
  }

  lemma KeysCons(x: Item, ys: seq<Item>)
    requires DistinctItemKeys(ys) && forall y | y in ys :: KeyOf(y) != KeyOf(x)
    ensures DistinctItemKeys([x] + ys)
  {
  }

  lemma {:induction false} InsertKeys(x: Item, ys: seq<Item>, ranks: Ranks)
    requires DistinctItemKeys(ys) && forall y | y in ys :: KeyOf(y) != KeyOf(x)
    ensures DistinctItemKeys(Insert(x, ys, ranks))
  {
    if ys != [] && Before(ys[0], x, ranks) {
      var rest := Insert(x, ys[1..], ranks);
      InsertKeys(x, ys[1..], ranks);
      forall y | y in rest ensures KeyOf(y) != KeyOf(ys[0]) {
        assert y in multiset(rest);
      }
      KeysCons(ys[0], rest);
    } else {
      KeysCons(x, ys);
    }
  }

  lemma {:induction false} SortKeys(xs: seq<Item>, ranks: Ranks)
    requires DistinctItemKeys(xs)
    ensures DistinctItemKeys(Sort(xs, ranks))
  {
    if xs != [] {
      SortKeys(xs[1..], ranks);
      SortedSame(xs[1..], ranks);
      InsertKeys(xs[0], Sort(xs[1..], ranks), ranks);
    }
  }

  lemma PipelineKeys(items: seq<Item>, classes: Option<set<Class>>, limits: Limits, ranks: Ranks)
    ensures
      var kept := Pipeline(items, classes, limits, ranks).kept;
      DistinctItemKeys(kept) && forall x | x in kept :: x in items && Requested(classes, x.kind)
  {
    var r := ByClass(items, classes);
    var u := Unique(r.kept);
    var sorted := Sort(u.kept, ranks);
    ByClassOnly(items, classes);
    UniqueKeys(r.kept);
    SortedSame(u.kept, ranks);
    SortKeys(u.kept, ranks);
    CapKeys(sorted, limits);
  }

  lemma PipelineMaximal(items: seq<Item>, classes: Option<set<Class>>, limits: Limits, ranks: Ranks)
    ensures
      var s := Pipeline(items, classes, limits, ranks);
      forall e | e in s.dropped && e.why.ScopeExceeded? :: LeftOut(e, s.kept, items, limits)
  {
    var r := ByClass(items, classes);
    var u := Unique(r.kept);
    var sorted := Sort(u.kept, ranks);
    var c := Cap(sorted, limits);
    ByClassOnly(items, classes);
    UniqueConserves(r.kept);
    UniqueKeys(r.kept);
    SortedSame(u.kept, ranks);
    CapIsMaximal(sorted, limits);
    forall e | e in r.dropped + u.dropped + c.dropped && e.why.ScopeExceeded?
      ensures LeftOut(e, c.kept, items, limits)
    {
      assert LeftOut(e, c.kept, sorted, limits);
      var x :| x in sorted && x.id == e.id && !Room(c.kept, x, limits);
      assert x in items;
    }
  }
}
