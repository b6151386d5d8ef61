/** Changing a compiled package: ageing, merging an expansion, and adding derived items. None of it widens anything. */
module ContextChanges {
  import opened Wrappers
  import opened Json
  import opened ContextModel
  import opened CapPipeline
  import opened ContextCompiler

  // ----- Selecting -----------------------------------------------------------------------------

  function Select<T>(xs: seq<T>, keep: T -> bool): (r: seq<T>)
    ensures forall x | x in r :: x in xs && keep(x)
    ensures forall x | x in xs && keep(x) :: x in r
    ensures |r| <= |xs|
  {
    if xs == [] then []
    else
      assert xs == xs[..|xs| - 1] + [xs[|xs| - 1]];
      Select(xs[..|xs| - 1], keep) + (if keep(xs[|xs| - 1]) then [xs[|xs| - 1]] else [])
  }

  lemma {:induction false} SelectAll<T>(xs: seq<T>, keep: T -> bool)
    requires forall x | x in xs :: keep(x)
    ensures Select(xs, keep) == xs
  {
    if xs != [] {
      SelectAll(xs[..|xs| - 1], keep);
      assert xs == xs[..|xs| - 1] + [xs[|xs| - 1]];
    }
  }

  lemma SelectSnoc<T>(xs: seq<T>, x: T, keep: T -> bool)
    ensures Select(xs + [x], keep) == Select(xs, keep) + (if keep(x) then [x] else [])
  {
    assert (xs + [x])[..|xs|] == xs;
  }

  lemma {:induction false} SelectTwice<T>(xs: seq<T>, p: T -> bool, q: T -> bool, both: T -> bool)
    requires forall x | x in xs :: both(x) <==> p(x) && q(x)
    ensures Select(Select(xs, p), q) == Select(xs, both)
  {
    if xs != [] {
      var init, x := xs[..|xs| - 1], xs[|xs| - 1];
      assert xs == init + [x];
      SelectTwice(init, p, q, both);
      SelectSnoc(init, x, p);
      SelectSnoc(init, x, both);
      SelectSnoc(Select(init, p), x, q);
      assert Select(xs, p) == if p(x) then Select(init, p) + [x] else Select(init, p);
      assert Select(xs, both) == if both(x) then Select(init, both) + [x] else Select(init, both);
    }
  }

  lemma {:induction false} SelectChars(items: seq<Item>, keep: Item -> bool)
    ensures TotalChars(Select(items, keep)) <= TotalChars(items)
  {
    if items != [] {
      var init, x := items[..|items| - 1], items[|items| - 1];
      assert items == init + [x];
      SelectChars(init, keep);
      SelectSnoc(init, x, keep);
      TotalCharsSnoc(init, x);
      TotalCharsSnoc(Select(init, keep), x);
      assert Select(items, keep) == if keep(x) then Select(init, keep) + [x] else Select(init, keep);
    }
  }

  // ----- Ageing ----------------------------------------------------------------------------------

  predicate IsStale(x: Item, now: int) {
    x.expiresAt.Some? && x.expiresAt.value < now
  }

  function StaleIds(items: seq<Item>, now: int): set<Id> {
    set x | x in items && IsStale(x, now) :: x.id
  }

  function Without(items: seq<Item>, ids: set<Id>): seq<Item> {
    Select(items, (x: Item) => x.id !in ids)
  }

  function StaleRecords(removed: seq<Item>): (r: seq<Unresolved>)
    ensures |r| == |removed|
    ensures forall i | 0 <= i < |removed| :: r[i] == Unresolved(removed[i].ref, removed[i].owner, Stale)
  {
    seq(|removed|, i requires 0 <= i < |removed| => Unresolved(removed[i].ref, removed[i].owner, Stale))
  }

  function Refresh(p: Package, now: int): Package {
    var stale := Select(p.items, (x: Item) => IsStale(x, now));
    if stale == [] then p
    else
      var items := Without(p.items, StaleIds(p.items, now));
      p.(compiledAt := now, items := items, unresolved := p.unresolved + StaleRecords(stale), observed := Totals(items))
  }

  lemma RefreshItems(p: Package, now: int)
    ensures Refresh(p, now).items == Without(p.items, StaleIds(p.items, now))
  {
    if Select(p.items, (x: Item) => IsStale(x, now)) == [] {
      forall x | x in p.items ensures x.id !in StaleIds(p.items, now) {
        assert forall y | y in p.items :: !IsStale(y, now);
      }
      SelectAll(p.items, (x: Item) => x.id !in StaleIds(p.items, now));
    }
  }

  /** Ageing in two steps leaves the items that ageing once to the later time leaves: freshness never renews. */
  lemma RefreshComposes(p: Package, t1: int, t2: int)
    requires t1 <= t2
    ensures Refresh(Refresh(p, t1), t2).items == Refresh(p, t2).items
  {
    var q := Refresh(p, t1);
    var first, second, all := StaleIds(p.items, t1), StaleIds(q.items, t2), StaleIds(p.items, t2);
    RefreshItems(p, t1);
    RefreshItems(q, t2);
    RefreshItems(p, t2);
    forall x | x in p.items ensures x.id !in all <==> x.id !in first && x.id !in second {
      if x.id in all && x.id !in first {
        var y :| y in p.items && IsStale(y, t2) && y.id == x.id;
        assert y in q.items;
      }
    }
    SelectTwice(p.items, (x: Item) => x.id !in first, (x: Item) => x.id !in second, (x: Item) => x.id !in all);
  }

  /**
   * The two gates agree: a row with a timestamp, not restricted, passes the age check of compilation at `now`
   * exactly when the item it yields is not stale at `now`.
   */
  lemma GatesAgree(row: Row, read: Read, kind: Class, request: Request, now: int, rules: Rules)
    requires row.fetchedAt.At? && !RowSensitivity(row, rules).Restricted?
    ensures
      var x := RowItem(row, read, kind, rules.sanitize(row.content), rules.sanitize(row.content), request, now, rules);
      !TooOld(row, request.maxAge, now) <==> !IsStale(x, now)
  {
  }

  /**
   * A kept row is stale on arrival exactly when it is restricted and its timestamp is too old: a restricted row is
   * taken before its age is looked at.
   */
  lemma StaleOnArrivalIff(row: Row, read: Read, request: Request, now: int, rules: Rules)
    requires JudgeRow(row, read, request, now, rules).Keep?
    ensures
      IsStale(JudgeRow(row, read, request, now, rules).item, now)
      <==> RowSensitivity(row, rules).Restricted? && row.fetchedAt.At? && TooOld(row, request.maxAge, now)
  {
    var x := JudgeRow(row, read, request, now, rules).item;
    assert x.expiresAt == ExpiryFor(row, request.maxAge);
  }

  /** A restricted row that is two units old, when no more than one was asked for, is kept and stale at once. */
  lemma StaleOnArrivalHappens(row: Row, read: Read, request: Request, now: int, rules: Rules)
    requires row.sensitivity == Some(Restricted) && row.fetchedAt == At(now - 2) && row.kind == Some(Fact)
    requires request.maxAge == Some(1)
    requires !rules.hasSecret(row.ref) && row.evidenceRef.None? && !rules.hasSecret(rules.sanitize(row.content))
    ensures
      var verdict := JudgeRow(row, read, request, now, rules);
      verdict.Keep? && IsStale(verdict.item, now)
  {
    StaleOnArrivalIff(row, read, request, now, rules);
  }

  // ----- Merging -----------------------------------------------------------------------------------

  /** Owner and reference joined by a zero character. */
  function SourceKey(x: Item): Text {
    x.owner + [0] + x.ref
  }

  predicate OtherVersion(prior: Item, x: Item) {
    SourceKey(prior) == SourceKey(x) && (prior.version != x.version || prior.fetchedAt != x.fetchedAt)
  }

  function ReplacementKeys(base: seq<Item>, expansion: seq<Item>): set<Text> {
    set x | x in expansion && (exists prior | prior in base :: OtherVersion(prior, x)) :: SourceKey(x)
  }

  function FailedRefs(unresolved: seq<Unresolved>): set<Text> {
    set u | u in unresolved :: u.ref
  }

  function Refs(items: seq<Item>): set<Text> {
    set x | x in items :: x.ref
  }

  predicate IsRemoved(x: Item, base: Package, expansion: Package, now: int) {
    IsStale(x, now) || SourceKey(x) in ReplacementKeys(base.items, expansion.items)
    || x.ref in FailedRefs(expansion.unresolved)
  }

  function Removed(base: Package, expansion: Package, now: int): seq<Item> {
    Select(base.items, (x: Item) => IsRemoved(x, base, expansion, now))
  }

  function RemovedIds(base: Package, expansion: Package, now: int): set<Id> {
    set x | x in base.items && IsRemoved(x, base, expansion, now) :: x.id
  }

  function Candidates(base: Package, expansion: Package, now: int): seq<Item> {
    Without(base.items, RemovedIds(base, expansion, now)) + expansion.items
  }

  predicate HasId(items: seq<Item>, id: Id) {
    exists x | x in items :: x.id == id
  }

  function Merge(items: seq<Item>, classes: Option<set<Class>>, limits: Limits): Stage {
    if items == [] then Stage([], [])
    else
      var s := Merge(items[..|items| - 1], classes, limits);
      var x := items[|items| - 1];
      if HasId(s.kept, x.id) then Stage(s.kept, s.dropped + [Exclusion(x.id, Duplicate)])
      else if !Requested(classes, x.kind) then Stage(s.kept, s.dropped + [Exclusion(x.id, ClassNotRequested)])
      else if !Room(s.kept, x, limits) then Stage(s.kept, s.dropped + [Exclusion(x.id, ScopeExceeded)])
      else Stage(s.kept + [x], s.dropped)
  }

  predicate StillOpen(u: Unresolved, base: Package, expansion: Package, now: int) {
    u.ref !in Refs(expansion.items) && u.ref !in Refs(Removed(base, expansion, now))
  }

  function MergedUnresolved(base: Package, expansion: Package, now: int): seq<Unresolved> {
    Select(base.unresolved, (u: Unresolved) => StillOpen(u, base, expansion, now))
    + StaleRecords(Removed(base, expansion, now))
    + Select(expansion.unresolved, (u: Unresolved) => u.ref !in Refs(expansion.items))
  }

  /** Merging into a base that was aged at `aged`; the second reading of the clock is `now`. */
  function MergeExpansion(stored: Package, expansion: Package, aged: int, now: int): Option<Package> {
    if stored.mission != expansion.mission then None
    else
      var base := Refresh(stored, aged);
      var s := Merge(Candidates(base, expansion, now), base.request.classes, base.limits);
      Some(base.(compiledAt := now, items := s.kept, unresolved := MergedUnresolved(base, expansion, now),
                 observed := Totals(s.kept), excluded := base.excluded + expansion.excluded + s.dropped))
  }

  method MergeItems(candidates: seq<Item>, classes: Option<set<Class>>, limits: Limits, before: seq<Exclusion>)
    returns (items: seq<Item>, excluded: seq<Exclusion>, observed: Limits)
    ensures items == Merge(candidates, classes, limits).kept
    ensures excluded == before + Merge(candidates, classes, limits).dropped
    ensures observed == Totals(items)
  {
    items, excluded := [], before;
    var chars, tokens := 0, 0;
    for i := 0 to |candidates|
      invariant items == Merge(candidates[..i], classes, limits).kept
      invariant excluded == before + Merge(candidates[..i], classes, limits).dropped
      invariant chars == TotalChars(items) && tokens == EstimateTokens(chars)
    {
      assert candidates[..i + 1][..i] == candidates[..i];
      var x := candidates[i];
      var nextChars := chars + |x.content|;
      var nextTokens := EstimateTokens(nextChars);
      if HasId(items, x.id) {
        excluded := excluded + [Exclusion(x.id, Duplicate)];
      } else if !Requested(classes, x.kind) {
        excluded := excluded + [Exclusion(x.id, ClassNotRequested)];
      } else if |items| + 1 > limits.items || nextChars > limits.chars || nextTokens > limits.tokens {
        excluded := excluded + [Exclusion(x.id, ScopeExceeded)];
      } else {
        TotalCharsSnoc(items, x);
        items := items + [x];
        chars, tokens := nextChars, nextTokens;
      }
    }
    assert candidates[..|candidates|] == candidates;
    observed := Limits(|items|, chars, tokens);
  }

  method MergePackages(stored: Package, expansion: Package, aged: int, now: int) returns (r: Option<Package>)
    ensures r == MergeExpansion(stored, expansion, aged, now)
  {
    if stored.mission != expansion.mission {
      return None;
    }
    var base := Refresh(stored, aged);
    var items, excluded, observed :=
      MergeItems(Candidates(base, expansion, now), base.request.classes, base.limits,
                 base.excluded + expansion.excluded);
    r := Some(base.(compiledAt := now, items := items, unresolved := MergedUnresolved(base, expansion, now),
                    observed := observed, excluded := excluded));
  }

  // ----- What a merge keeps --------------------------------------------------------------------------

  lemma {:induction false} MergeOk(items: seq<Item>, classes: Option<set<Class>>, limits: Limits)
    requires limits.items >= 0 && limits.chars >= 0 && limits.tokens >= 0
    ensures Within(Totals(Merge(items, classes, limits).kept), limits)
  {
    if items != [] {
      var n := |items| - 1;
      var s := Merge(items[..n], classes, limits);
      MergeOk(items[..n], classes, limits);
      if Merge(items, classes, limits).kept != s.kept {
        TotalCharsSnoc(s.kept, items[n]);
      }
    }
  }

  /** The result holds candidates of requested classes only. */
  lemma {:induction false} MergeSubset(items: seq<Item>, classes: Option<set<Class>>, limits: Limits)
    ensures forall x | x in Merge(items, classes, limits).kept :: x in items && Requested(classes, x.kind)
  {
    if items != [] {
      MergeSubset(items[..|items| - 1], classes, limits);
    }
  }

  /** Every candidate is in the result or its id is recorded as excluded. */
  lemma {:induction false} MergeAccounts(items: seq<Item>, classes: Option<set<Class>>, limits: Limits, x: Item)
    requires x in items
    ensures x in Merge(items, classes, limits).kept
         || exists e | e in Merge(items, classes, limits).dropped :: e.id == x.id
  {
    var n := |items| - 1;
    var s, t := Merge(items[..n], classes, limits), Merge(items, classes, limits);
    assert items == items[..n] + [items[n]];
    if x in items[..n] {
      MergeAccounts(items[..n], classes, limits, x);
      if x !in s.kept {
        var e :| e in s.dropped && e.id == x.id;
        assert e in t.dropped;
      }
    } else {
      assert x == items[n];
      assert x !in t.kept ==> t.dropped[|t.dropped| - 1].id == x.id;
    }
  }

  /** An item is accounted for when it is shown, excluded by id, or its reference is unresolved or supplied anew. */
  predicate Accounted(x: Item, expansion: Package, r: Package) {
    x in r.items || (exists e | e in r.excluded :: e.id == x.id)
    || (exists u | u in r.unresolved :: u.ref == x.ref) || x.ref in Refs(expansion.items)
  }

  /** Ids fix references, as ids that hash them do. */
  predicate IdsFixRefs(items: seq<Item>) {
    forall x, y | x in items && y in items :: x.id == y.id ==> x.ref == y.ref
  }

  lemma RemovedIsRecorded(base: Package, expansion: Package, now: int, x: Item)
    requires IdsFixRefs(base.items) && x in base.items && x.id in RemovedIds(base, expansion, now)
    ensures exists u | u in MergedUnresolved(base, expansion, now) :: u.ref == x.ref
  {
    var y :| y in base.items && IsRemoved(y, base, expansion, now) && y.id == x.id;
    var removed := Removed(base, expansion, now);
    var i :| 0 <= i < |removed| && removed[i] == y;
    var u := StaleRecords(removed)[i];
    assert u.ref == x.ref && u in MergedUnresolved(base, expansion, now);
  }

  lemma BaseAccounted(base: Package, expansion: Package, now: int, r: Package, x: Item)
    requires IdsFixRefs(base.items) && x in base.items
    requires
      var s := Merge(Candidates(base, expansion, now), base.request.classes, base.limits);
      r.items == s.kept && r.unresolved == MergedUnresolved(base, expansion, now)
      && r.excluded == base.excluded + expansion.excluded + s.dropped
    ensures Accounted(x, expansion, r)
  {
    if x.id in RemovedIds(base, expansion, now) {
      RemovedIsRecorded(base, expansion, now, x);
    } else {
      assert x in Candidates(base, expansion, now);
      MergeAccounts(Candidates(base, expansion, now), base.request.classes, base.limits, x);
      if x !in r.items {
        var s := Merge(Candidates(base, expansion, now), base.request.classes, base.limits);
        var e :| e in s.dropped && e.id == x.id;
        assert e in r.excluded;
      }
    }
  }

  lemma AgedLeavesRecord(stored: Package, aged: int, x: Item)
    requires IdsFixRefs(stored.items) && x in stored.items && x !in Refresh(stored, aged).items
    ensures exists u | u in Refresh(stored, aged).unresolved :: u.ref == x.ref
  {
    RefreshItems(stored, aged);
    var y :| y in stored.items && IsStale(y, aged) && y.id == x.id;
    var stale := Select(stored.items, (z: Item) => IsStale(z, aged));
    var i :| 0 <= i < |stale| && stale[i] == y;
    assert StaleRecords(stale)[i] in Refresh(stored, aged).unresolved;
  }

  /** The merge keeps a record of the base, unless its reference came back; one for a removed item is renewed. */
  lemma RecordKept(base: Package, expansion: Package, now: int, u: Unresolved)
    requires u in base.unresolved && u.ref !in Refs(expansion.items)
    ensures exists v | v in MergedUnresolved(base, expansion, now) :: v.ref == u.ref
  {
    var removed := Removed(base, expansion, now);
    if u.ref in Refs(removed) {
      var z :| z in removed && z.ref == u.ref;
      var k :| 0 <= k < |removed| && removed[k] == z;
      var v := StaleRecords(removed)[k];
      assert v in MergedUnresolved(base, expansion, now) && v.ref == u.ref;
    } else {
      assert StillOpen(u, base, expansion, now);
      assert u in MergedUnresolved(base, expansion, now);
    }
  }

  /** An item that ageing removed left a record, and the merge keeps the record unless the reference came back. */
  lemma AgedAccounted(stored: Package, expansion: Package, aged: int, now: int, x: Item)
    requires IdsFixRefs(stored.items) && x in stored.items && x !in Refresh(stored, aged).items
    ensures (exists u | u in MergedUnresolved(Refresh(stored, aged), expansion, now) :: u.ref == x.ref)
            || x.ref in Refs(expansion.items)
  {
    AgedLeavesRecord(stored, aged, x);
    var u :| u in Refresh(stored, aged).unresolved && u.ref == x.ref;
    if u.ref !in Refs(expansion.items) {
      RecordKept(Refresh(stored, aged), expansion, now, u);
    }
  }

  /** A merge loses nothing silently, on either side. */
  lemma MergeLosesNothing(stored: Package, expansion: Package, aged: int, now: int)
    requires stored.mission == expansion.mission && IdsFixRefs(stored.items)
    ensures
      var r := MergeExpansion(stored, expansion, aged, now).value;
      (forall x | x in stored.items :: Accounted(x, expansion, r))
      && forall x | x in expansion.items :: x in r.items || exists e | e in r.excluded :: e.id == x.id
  {
    var base := Refresh(stored, aged);
    var r := MergeExpansion(stored, expansion, aged, now).value;
    var s := Merge(Candidates(base, expansion, now), base.request.classes, base.limits);
    RefreshItems(stored, aged);
    forall x | x in stored.items ensures Accounted(x, expansion, r) {
      if x in base.items {
        BaseAccounted(base, expansion, now, r, x);
      } else {
        AgedAccounted(stored, expansion, aged, now, x);
      }
    }
    forall x | x in expansion.items ensures x in r.items || exists e | e in r.excluded :: e.id == x.id {
      assert x in Candidates(base, expansion, now);
      MergeAccounts(Candidates(base, expansion, now), base.request.classes, base.limits, x);
      if x !in r.items {
        var e :| e in s.dropped && e.id == x.id;
        assert e in r.excluded;
      }
    }
  }

  /**
   * No stored item survives a merge when the expansion carries its owner and reference at another version or fetch
   * time.
   */
  lemma MergeSupersedes(stored: Package, expansion: Package, aged: int, now: int, prior: Item, x: Item)
    requires stored.mission == expansion.mission && x in expansion.items && prior !in expansion.items
    requires prior.owner == x.owner && prior.ref == x.ref
    requires prior.version != x.version || prior.fetchedAt != x.fetchedAt
    ensures prior !in MergeExpansion(stored, expansion, aged, now).value.items
  {
    var base := Refresh(stored, aged);
    if prior in base.items {
      assert OtherVersion(prior, x);
      assert SourceKey(prior) in ReplacementKeys(base.items, expansion.items);
      assert prior.id in RemovedIds(base, expansion, now);
    }
    assert prior !in Candidates(base, expansion, now);
    MergeSubset(Candidates(base, expansion, now), base.request.classes, base.limits);
  }
}
