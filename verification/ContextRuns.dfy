/** Adding derived items to a package, and what no run of changes can do to its budget. */
module ContextRuns {
  import opened Wrappers
  import opened Json
  import opened CanonicalJson
  import opened JsNumber
  import opened Sequences
  import opened ContextModel
  import opened CapPipeline
  import opened ContextCompiler
  import opened ContextChanges

  // ----- Adding one item -----------------------------------------------------------------------

  datatype Refused =
    | InvalidBudget
    | AlreadyOverBudget
    | UnrequestedClass
    | AlreadyPresent
    | NoRoom
    | UnknownSources
    | InferenceSource
    | RestrictedSource
    | NoSources
    | SecretContent

  function Tightest(a: Limits, b: Limits): Limits {
    Limits(Min(a.items, b.items), Min(a.chars, b.chars), Min(a.tokens, b.tokens))
  }

  /** The compiler at hand can keep or tighten the limits a package already works under. */
  function Append(p: Package, x: Item, policy: Limits): Result<Package, Refused> {
    if !AllFinite(p.request.budget) then Err(InvalidBudget)
    else
      var limits := Tightest(ClampBudget(p.request.budget, policy), p.limits);
      if !Within(Totals(p.items), p.limits) then Err(AlreadyOverBudget)
      else if !Requested(p.request.classes, x.kind) then Err(UnrequestedClass)
      else if HasKey(p.items, KeyOf(x)) then Err(AlreadyPresent)
      else if !Room(p.items, x, limits) then Err(NoRoom)
      else Ok(p.(items := p.items + [x], limits := limits, observed := Totals(p.items + [x])))
  }

  // ----- Derived summaries and inferences ----------------------------------------------------------

  const COMPILER := Ascii("ouroboros.compiler")
  const PLANNER := Ascii("planner")
  const CONTRACT_VERSION := 1

  /** The last item with an id, as a map built from the items in order holds it. */
  function Lookup(items: seq<Item>, id: Id): (r: Option<Item>)
    ensures r.Some? ==> r.value in items && r.value.id == id
    ensures r.None? ==> !HasId(items, id)
  {
    if items == [] then None
    else
      assert items == items[..|items| - 1] + [items[|items| - 1]];
      if items[|items| - 1].id == id then Some(items[|items| - 1]) else Lookup(items[..|items| - 1], id)
  }

  function Joined(items: seq<Item>, ids: seq<Id>): Text {
    if ids == [] then []
    else
      var x := Lookup(items, ids[|ids| - 1]);
      var before := Joined(items, ids[..|ids| - 1]);
      before + (if |ids| > 1 then Ascii(" | ") else []) + (if x.Some? then x.value.content else [])
  }

  function Slice(t: Text, n: int): Text {
    if n < |t| then t[..if n < 0 then 0 else n] else t
  }

  function Sources(p: Package, ids: seq<Id>): seq<Item> {
    Select(p.items, (x: Item) => x.id in ids)
  }

  /** The ids that are in the package, in the order in which they were asked for. */
  function Known(p: Package, ids: seq<Id>): seq<Id> {
    Select(ids, (id: Id) => HasId(p.items, id))
  }

  /** `ids` are known ones. */
  function SummaryItem(p: Package, ids: seq<Id>, content: Text, raw: Text, now: int, rules: Rules): Item {
    var ref := Ascii("derived:first:") + Decimal(|ids|);
    Item(ItemId(COMPILER, ref, DerivedSummary, content, p.mission), DerivedSummary, content, COMPILER, ref,
         Some(CONTRACT_VERSION), At(now), None, RedactionSensitivity(raw, content, rules), None, ids, Missing)
  }

  function DeriveSummary(p: Package, ids: seq<Id>, maxChars: int, policy: Limits, now: int, rules: Rules)
    : Result<Package, Refused>
  {
    var sources := Sources(p, ids);
    if |sources| != |ids| then Err(UnknownSources)
    else if exists x | x in sources :: x.kind.Inference? then Err(InferenceSource)
    else if exists x | x in sources :: x.sensitivity.Restricted? then Err(RestrictedSource)
    else if sources == [] then Err(NoSources)
    else
      var known := Known(p, ids);
      var raw := Slice(Joined(p.items, known), if maxChars > 1 then maxChars else 1);
      var content := rules.sanitize(raw);
      if rules.hasSecret(content) then Err(SecretContent)
      else Append(p, SummaryItem(p, known, content, raw, now, rules), policy)
  }

  function AddInference(p: Package, raw: Text, refId: Text, policy: Limits, now: int, rules: Rules)
    : Result<Package, Refused>
  {
    var content := rules.sanitize(raw);
    if rules.hasSecret(content) then Err(SecretContent)
    else
      var prefix := Ascii("inference:");
      Append(p, Item(ItemId(PLANNER, prefix + refId, Inference, content, p.mission), Inference, content, PLANNER,
                     prefix + rules.sanitize(refId), None, At(now), None, RedactionSensitivity(raw, content, rules),
                     None, [], Missing),
             policy)
  }

  lemma {:induction false} NoRepeatsSize<T>(xs: seq<T>)
    ensures |set x | x in xs| <= |xs|
    ensures |set x | x in xs| == |xs| <==> NoRepeats(xs)
  {
    if xs != [] {
      var init, x := xs[..|xs| - 1], xs[|xs| - 1];
      NoRepeatsSize(init);
      assert xs == init + [x];
      assert (set y | y in xs) == (set y | y in init) + {x};
      if NoRepeats(init) && x !in init {
        assert NoRepeats(xs);
      } else if x in init {
        var i :| 0 <= i < |init| && init[i] == x;
        assert xs[i] == xs[|xs| - 1];
      } else {
        var i, j :| 0 <= i < j < |init| && init[i] == init[j];
        assert xs[i] == xs[j];
      }
    }
  }

  lemma {:induction false} SelectDistinct(items: seq<Item>, keep: Item -> bool)
    requires DistinctIds(items)
    ensures DistinctIds(Select(items, keep))
  {
    if items != [] {
      SelectDistinct(items[..|items| - 1], keep);
      forall x | x in items[..|items| - 1] ensures x.id != items[|items| - 1].id {
      }
    }
  }

  function KnownSet(p: Package, ids: seq<Id>): set<Id> {
    set id | id in ids && HasId(p.items, id)
  }

  lemma FoundIds(p: Package, ids: seq<Id>)
    ensures (set id | id in IdsOf(Sources(p, ids))) == KnownSet(p, ids)
  {
    var found := Sources(p, ids);
    forall id | id in KnownSet(p, ids) ensures id in IdsOf(found) {
      var x :| x in p.items && x.id == id;
      var i :| 0 <= i < |found| && found[i] == x;
      assert IdsOf(found)[i] == id;
    }
    forall i | 0 <= i < |found| ensures IdsOf(found)[i] in KnownSet(p, ids) {
      assert found[i] in p.items;
    }
  }

  lemma FoundSize(p: Package, ids: seq<Id>)
    requires DistinctIds(p.items)
    ensures |Sources(p, ids)| == |KnownSet(p, ids)|
  {
    var found := Sources(p, ids);
    SelectDistinct(p.items, (x: Item) => x.id in ids);
    assert NoRepeats(IdsOf(found));
    NoRepeatsSize(IdsOf(found));
    FoundIds(p, ids);
  }

  /** Counting the items found tells whether every id is known only because no two items share one. */
  lemma SourcesKnownIff(p: Package, ids: seq<Id>)
    requires DistinctIds(p.items)
    ensures |Sources(p, ids)| == |ids| <==> NoRepeats(ids) && forall id | id in ids :: HasId(p.items, id)
  {
    var asked, known := (set id | id in ids), KnownSet(p, ids);
    FoundSize(p, ids);
    NoRepeatsSize(ids);
    assert known <= asked && |asked| == |known| + |asked - known|;
    if |known| == |ids| {
      assert asked - known == {};
      forall id | id in ids ensures HasId(p.items, id) {
        assert id in asked;
      }
    } else if forall id | id in ids :: HasId(p.items, id) {
      assert known == asked;
    }
  }

  /**
   * A summary names its sources in order, all of them in the package when no two items share an id; none is an
   * inference or restricted. It carries no expiry, so it outlives sources that expire.
   */
  lemma SummaryKeepsLineage(p: Package, ids: seq<Id>, maxChars: int, policy: Limits, now: int, rules: Rules)
    requires DeriveSummary(p, ids, maxChars, policy, now, rules).Ok?
    ensures
      var q := DeriveSummary(p, ids, maxChars, policy, now, rules).value;
      var x := q.items[|p.items|];
      q.items[..|p.items|] == p.items && |q.items| == |p.items| + 1 && x.derivedFrom == Known(p, ids)
      && (DistinctIds(p.items) ==> x.derivedFrom == ids && forall id | id in ids :: HasId(p.items, id))
      && !rules.hasSecret(x.content) && x.kind.DerivedSummary? && (forall t :: !IsStale(x, t))
      && forall y | y in p.items && y.id in ids :: !y.kind.Inference? && !y.sensitivity.Restricted?
  {
    if DistinctIds(p.items) {
      SourcesKnownIff(p, ids);
      SelectAll(ids, (id: Id) => HasId(p.items, id));
    }
  }

  // ----- A summary that outlives its source -----------------------------------------------------------

  /** No secrets, nothing to redact. */
  function SampleRules(): Rules {
    Rules(_ => false, t => t, _ => false, _ => false, Ranks(_ => 0.0, _ => 0.0))
  }

  function SampleRequest(): Request {
    Request([], [], [], None, None, Budget(Finite(10.0), Finite(100.0), Finite(100.0)), Some(5), None)
  }

  function SampleItem(): Item {
    Item(ItemId([], [], Fact, [65], []), Fact, [65], [], [], None, At(0), Some(5), Normal, Some([]), [], At(0))
  }

  /** One item that expires at time five. */
  function SamplePackage(): Package {
    Package([], 0, SampleRequest(), [SampleItem()], [], SampleLimits(), Limits(1, 1, 1), [])
  }

  function SampleLimits(): Limits {
    Limits(10, 100, 100)
  }

  lemma SampleSummary()
    ensures
      var r := DeriveSummary(SamplePackage(), [SampleItem().id], 10, SampleLimits(), 0, SampleRules());
      var summary := SummaryItem(SamplePackage(), [SampleItem().id], [65], [65], 0, SampleRules());
      r.Ok? && r.value.items == [SampleItem(), summary]
  {
    var p, x, ids := SamplePackage(), SampleItem(), [SampleItem().id];
    assert Sources(p, ids) == [x] && Known(p, ids) == ids by {
      assert p.items[..0] == [] && ids[..0] == [];
      assert HasId(p.items, x.id) by {
        assert x in p.items;
      }
    }
    assert Joined(p.items, ids) == [65] by {
      assert ids[..0] == [] && Lookup(p.items, x.id) == Some(x);
    }
    SampleAppends(SummaryItem(p, ids, [65], [65], 0, SampleRules()));
  }

  lemma SampleAppends(x: Item)
    requires x.kind.DerivedSummary? && x.content == [65]
    ensures Append(SamplePackage(), x, SampleLimits()).Ok?
  {
    var p := SamplePackage();
    assert p.items[..0] == [];
    assert TotalChars(p.items) == 1;
  }

  lemma WithoutFirst(x: Item, y: Item, ids: set<Id>)
    requires x.id in ids && y.id !in ids
    ensures Without([x, y], ids) == [y]
  {
    var keep := (z: Item) => z.id !in ids;
    SelectSnoc([], x, keep);
    SelectSnoc([x], y, keep);
    assert [] + [x] == [x] && [x] + [y] == [x, y];
  }

  lemma StaleOfTwo(x: Item, y: Item, t: int)
    requires x.id != y.id && IsStale(x, t) && !IsStale(y, t)
    ensures x.id in StaleIds([x, y], t) && y.id !in StaleIds([x, y], t)
  {
    assert x in [x, y];
  }

  /** Of two items, ageing removes the stale one. */
  lemma OnlyTheOther(q: Package, x: Item, y: Item, t: int)
    requires q.items == [x, y] && x.id != y.id && IsStale(x, t) && !IsStale(y, t)
    ensures Refresh(q, t).items == [y]
  {
    RefreshItems(q, t);
    StaleOfTwo(x, y, t);
    WithoutFirst(x, y, StaleIds(q.items, t));
  }

  /** A summary of the one item of a package: once the item has expired, the summary is all that is left. */
  lemma SummaryOutlivesHappens()
    ensures
      var r := DeriveSummary(SamplePackage(), [SampleItem().id], 10, SampleLimits(), 0, SampleRules());
      var summary := SummaryItem(SamplePackage(), [SampleItem().id], [65], [65], 0, SampleRules());
      r.Ok? && Refresh(r.value, 6).items == [summary] && summary.derivedFrom == [SampleItem().id]
  {
    var r := DeriveSummary(SamplePackage(), [SampleItem().id], 10, SampleLimits(), 0, SampleRules());
    var summary := SummaryItem(SamplePackage(), [SampleItem().id], [65], [65], 0, SampleRules());
    SampleSummary();
    OnlyTheOther(r.value, SampleItem(), summary, 6);
  }

  // ----- Runs ----------------------------------------------------------------------------------------

  /** One change, by a compiler with its own policy and clock. */
  datatype Change =
    | Summarize(ids: seq<Id>, maxChars: int, policy: Limits, now: int)
    | Infer(content: Text, refId: Text, policy: Limits, now: int)
    | Age(now: int)
    | Absorb(expansion: Package, aged: int, now: int)

  function Apply(p: Package, c: Change, rules: Rules): Package {
    match c
    case Summarize(ids, maxChars, policy, now) =>
      var r := DeriveSummary(p, ids, maxChars, policy, now, rules);
      if r.Ok? then r.value else p
    case Infer(content, refId, policy, now) =>
      var r := AddInference(p, content, refId, policy, now, rules);
      if r.Ok? then r.value else p
    case Age(now) => Refresh(p, now)
    case Absorb(expansion, aged, now) => MergeExpansion(p, expansion, aged, now).GetOr(p)
  }

  function Run(p: Package, changes: seq<Change>, rules: Rules): Package
    decreases |changes|
  {
    if changes == [] then p else Run(Apply(p, changes[0], rules), changes[1..], rules)
  }

  /** `q` is an honest package under limits no wider than those of `p`, for the same request. */
  predicate Bounded(p: Package, q: Package) {
    PackageOk(q) && Within(q.limits, p.limits) && q.request == p.request && q.mission == p.mission
  }

  lemma AppendBounded(p: Package, x: Item, policy: Limits)
    requires PackageOk(p) && Append(p, x, policy).Ok?
    ensures Bounded(p, Append(p, x, policy).value)
  {
    TotalCharsSnoc(p.items, x);
  }

  lemma RefreshBounded(p: Package, now: int)
    requires PackageOk(p)
    ensures Bounded(p, Refresh(p, now)) && Refresh(p, now).limits == p.limits
    ensures Within(Totals(Refresh(p, now).items), Totals(p.items))
  {
    var keep := (x: Item) => x.id !in StaleIds(p.items, now);
    RefreshItems(p, now);
    SelectChars(p.items, keep);
    TokensMonotone(TotalChars(Without(p.items, StaleIds(p.items, now))), TotalChars(p.items));
  }

  lemma MergeBounded(p: Package, expansion: Package, aged: int, now: int)
    requires PackageOk(p) && p.mission == expansion.mission
    ensures Bounded(p, MergeExpansion(p, expansion, aged, now).value)
    ensures MergeExpansion(p, expansion, aged, now).value.limits == p.limits
  {
    var base := Refresh(p, aged);
    RefreshBounded(p, aged);
    MergeOk(Candidates(base, expansion, now), base.request.classes, base.limits);
    MergeSubset(Candidates(base, expansion, now), base.request.classes, base.limits);
  }

  lemma ApplyBounded(p: Package, c: Change, rules: Rules)
    requires PackageOk(p)
    ensures Bounded(p, Apply(p, c, rules))
  {
    match c
    case Summarize(ids, maxChars, policy, now) =>
      if DeriveSummary(p, ids, maxChars, policy, now, rules).Ok? {
        var known := Known(p, ids);
        var raw := Slice(Joined(p.items, known), if maxChars > 1 then maxChars else 1);
        AppendBounded(p, SummaryItem(p, known, rules.sanitize(raw), raw, now, rules), policy);
      }
    case Infer(content, refId, policy, now) =>
      if AddInference(p, content, refId, policy, now, rules).Ok? {
        InferBounded(p, content, refId, policy, now, rules);
      }
    case Age(now) => RefreshBounded(p, now);
    case Absorb(expansion, aged, now) =>
      if p.mission == expansion.mission {
        MergeBounded(p, expansion, aged, now);
      }
  }

  lemma InferBounded(p: Package, content: Text, refId: Text, policy: Limits, now: int, rules: Rules)
    requires PackageOk(p) && AddInference(p, content, refId, policy, now, rules).Ok?
    ensures Bounded(p, AddInference(p, content, refId, policy, now, rules).value)
  {
    var q := AddInference(p, content, refId, policy, now, rules).value;
    AppendBounded(p, q.items[|p.items|], policy);
  }

  lemma {:induction false} RunBounded(p: Package, changes: seq<Change>, rules: Rules)
    requires PackageOk(p)
    ensures Bounded(p, Run(p, changes, rules))
    decreases |changes|
  {
    if changes != [] {
      ApplyBounded(p, changes[0], rules);
      RunBounded(Apply(p, changes[0], rules), changes[1..], rules);
    }
  }

  /**
   * Through any sequence of changes after a compilation, by compilers with any policies and clocks, the report equals
   * the recomputed totals, stays within the compiled limits and the compiling policy, and shows only the requested
   * classes.
   */
  lemma BudgetOverRuns(
    mission: Mission, request: Request, rs: seq<Resolution>, policy: Limits, now: int, changes: seq<Change>,
    rules: Rules)
    requires CompileResult(mission, request, rs, policy, now, rules).Ok?
    ensures
      var p := CompileResult(mission, request, rs, policy, now, rules).value;
      var q := Run(p, changes, rules);
      q.observed == Totals(q.items) && Within(q.observed, q.limits) && Within(q.limits, p.limits)
      && Within(p.limits, policy)
      && forall x | x in q.items :: Requested(request.classes, x.kind)
  {
    CompiledOk(mission, request, rs, policy, now, rules);
    RunBounded(Compiled(mission, request, rs, policy, now, rules), changes, rules);
  }

  // ----- Expiry never grows ------------------------------------------------------------------------------

  /** A demanded age cannot remove the item: its source restricted it and carried no readable stamp. */
  predicate Ageless(x: Item) {
    x.sensitivity.Restricted? && !x.stamped.At?
  }

  /**
   * Under a demanded age, an item from a read has no expiry exactly if it is ageless, and otherwise expires at most
   * that age after its own source stamped it. Mission references and derived items carry no age.
   */
  predicate InTime(x: Item, maxAge: int) {
    if x.step.None? then x.expiresAt.None?
    else
      (x.expiresAt.None? <==> Ageless(x))
      && (x.expiresAt.Some? ==> x.stamped.At? && x.expiresAt.value <= x.stamped.ms + maxAge)
  }

  predicate AllInTime(items: seq<Item>, maxAge: int) {
    forall x | x in items :: InTime(x, maxAge)
  }

  /** The expiry of a kept row under a demanded age: none exactly for an ageless one, and otherwise stamp plus age. */
  lemma ExpiryIff(row: Row, read: Read, request: Request, now: int, rules: Rules, maxAge: int)
    requires JudgeRow(row, read, request, now, rules).Keep? && request.maxAge == Some(maxAge)
    ensures
      var x := JudgeRow(row, read, request, now, rules).item;
      (x.expiresAt.None? <==> RowSensitivity(row, rules).Restricted? && !row.fetchedAt.At?)
      && (row.fetchedAt.At? ==> x.expiresAt == Some(row.fetchedAt.ms + maxAge))
      && x.step.Some? && x.stamped == row.fetchedAt && (Ageless(x) <==> x.expiresAt.None?)
  {
  }

  /** A restricted row without a timestamp is kept under a demanded age, and is stale at no time. */
  lemma AgelessHappens(row: Row, read: Read, request: Request, now: int, rules: Rules)
    requires row.sensitivity == Some(Restricted) && row.fetchedAt == Missing && row.kind == Some(Fact)
    requires request.maxAge == Some(1)
    requires !rules.hasSecret(row.ref) && row.evidenceRef.None? && !rules.hasSecret(rules.sanitize(row.content))
    ensures
      var verdict := JudgeRow(row, read, request, now, rules);
      verdict.Keep? && Ageless(verdict.item) && forall t :: !IsStale(verdict.item, t)
  {
    ExpiryIff(row, read, request, now, rules, 1);
  }

  /** What ageing leaves of such items is ageless or no older than demanded. */
  lemma FreshAfterRefresh(p: Package, maxAge: int, t: int)
    requires AllInTime(p.items, maxAge)
    ensures forall x | x in Refresh(p, t).items && x.step.Some? :: Ageless(x) || t - x.stamped.ms <= maxAge
  {
    RefreshItems(p, t);
    forall x | x in Refresh(p, t).items && x.step.Some? ensures Ageless(x) || t - x.stamped.ms <= maxAge {
      assert x in p.items && x.id !in StaleIds(p.items, t);
      assert !IsStale(x, t);
    }
  }

  lemma {:induction false} RowsInTime(
    g: Gather, rows: seq<Row>, read: Read, request: Request, now: int, rules: Rules, maxAge: int)
    requires AllInTime(g.items, maxAge) && request.maxAge.Some? && request.maxAge.value <= maxAge
    ensures AllInTime(AddRows(g, rows, read, request, now, rules).items, maxAge)
  {
    if rows != [] {
      var row := rows[|rows| - 1];
      RowsInTime(g, rows[..|rows| - 1], read, request, now, rules, maxAge);
      if JudgeRow(row, read, request, now, rules).Keep? {
        ExpiryIff(row, read, request, now, rules, request.maxAge.value);
      }
    }
  }

  lemma {:induction false} ReadsInTime(
    g: Gather, batches: seq<Read>, request: Request, now: int, rules: Rules, maxAge: int)
    requires AllInTime(g.items, maxAge) && request.maxAge.Some? && request.maxAge.value <= maxAge
    ensures AllInTime(AddReads(g, batches, request, now, rules).items, maxAge)
  {
    if batches != [] {
      var init, read := batches[..|batches| - 1], batches[|batches| - 1];
      ReadsInTime(g, init, request, now, rules, maxAge);
      var h := AddReads(g, init, request, now, rules);
      var skipped := h.(unresolved := h.unresolved + SkippedRecord(read, rules));
      RowsInTime(skipped, read.rows, read, request, now, rules, maxAge);
    }
  }

  lemma {:induction false} ResolutionsInTime(
    g: Gather, rs: seq<Resolution>, request: Request, now: int, rules: Rules, maxAge: int)
    requires AllInTime(g.items, maxAge) && request.maxAge.Some? && request.maxAge.value <= maxAge
    ensures AllInTime(AddResolutions(g, rs, request, now, rules).items, maxAge)
  {
    if rs != [] {
      var r := rs[|rs| - 1];
      ResolutionsInTime(g, rs[..|rs| - 1], request, now, rules, maxAge);
      var h := AddResolutions(g, rs[..|rs| - 1], request, now, rules);
      ReadsInTime(h.(unresolved := h.unresolved + r.refusals), r.batches, request, now, rules, maxAge);
    }
  }

  lemma {:induction false} OwnedInTime(
    g: Gather, refs: seq<OwnedRef>, mission: Mission, now: int, rules: Rules, maxAge: int)
    requires AllInTime(g.items, maxAge)
    ensures AllInTime(AddOwned(g, refs, mission, now, rules).items, maxAge)
  {
    if refs != [] {
      OwnedInTime(g, refs[..|refs| - 1], mission, now, rules, maxAge);
    }
  }

  /** Compiling, whenever it happens, dates every item by its own source's stamp, ageless ones and references apart. */
  lemma CompiledInTime(
    mission: Mission, request: Request, rs: seq<Resolution>, policy: Limits, now: int, rules: Rules, maxAge: int)
    requires request.maxAge.Some? && request.maxAge.value <= maxAge
    ensures AllInTime(Compiled(mission, request, rs, policy, now, rules).items, maxAge)
  {
    var normalized := Normalized(request, rules);
    var g := Gathered(mission, normalized, rs, now, rules);
    OwnedInTime(Gather([], [], []), mission.contextRefs, mission, now, rules, maxAge);
    var owned := AddOwned(Gather([], [], []), mission.contextRefs, mission, now, rules);
    ResolutionsInTime(owned, rs, normalized, now, rules, maxAge);
    PipelineKeys(g.items, request.classes, ClampBudget(request.budget, policy), rules.ranks);
  }

  lemma MergedInTime(p: Package, expansion: Package, aged: int, now: int, maxAge: int)
    requires AllInTime(p.items, maxAge) && AllInTime(expansion.items, maxAge) && p.mission == expansion.mission
    ensures AllInTime(MergeExpansion(p, expansion, aged, now).value.items, maxAge)
  {
    var base := Refresh(p, aged);
    RefreshItems(p, aged);
    MergeSubset(Candidates(base, expansion, now), base.request.classes, base.limits);
  }
}
