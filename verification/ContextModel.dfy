/** Context packages: items with provenance, budgets, and what a package has to satisfy. */
module ContextModel {
  import opened Wrappers
  import opened Json
  import opened JsNumber

  datatype Class = DerivedSummary | Fact | Inference

  datatype Sensitivity = Normal | Redacted | Restricted

  /** A source's own timestamp: missing, unreadable, or a time in milliseconds. */
  datatype Stamp = Missing | Unreadable | At(ms: int)

  /** Hashes are modelled by what is hashed, so that equal ids mean equal parts. */
  datatype Id =
    | ItemId(owner: Text, ref: Text, kind: Class, content: Text, mission: Text)
    | SecretId(ref: Text, detail: Text)

  datatype Key = Key(owner: Text, kind: Class, content: Text)

  /**
   * An item from a source read carries the step that authorized the read; mission references and derived items carry
   * none. `stamped` is history only: the source's own timestamp, where `fetchedAt` may stand in for a missing one.
   */
  datatype Item = Item(
    id: Id, kind: Class, content: Text, owner: Text, ref: Text, version: Option<int>,
    fetchedAt: Stamp, expiresAt: Option<int>, sensitivity: Sensitivity, step: Option<Text>, derivedFrom: seq<Id>,
    stamped: Stamp)

  datatype Why = Duplicate | ClassNotRequested | ScopeExceeded | SecretRefused | SecretInIdentity

  datatype Exclusion = Exclusion(id: Id, why: Why)

  datatype SourceStatus = Unavailable | Revoked | Stale | Unsupported | ConfigurationError

  datatype Unresolved = Unresolved(ref: Text, owner: Text, status: SourceStatus)

  /** A budget as proposed by a requester. */
  datatype Budget = Budget(maxItems: Number, maxTotalChars: Number, maxEstimatedTokens: Number)

  /** A ceiling of the runtime, or the limits a package works under. */
  datatype Limits = Limits(items: int, chars: int, tokens: int)

  datatype Request = Request(
    subject: Text, purpose: Text, mission: Text, ownerHint: Option<Text>, step: Option<Text>,
    budget: Budget, maxAge: Option<int>, classes: Option<set<Class>>)

  datatype Package = Package(
    mission: Text, compiledAt: int, request: Request, items: seq<Item>, unresolved: seq<Unresolved>,
    limits: Limits, observed: Limits, excluded: seq<Exclusion>)

  const DEFAULT_POLICY := Limits(32, 16000, 4000)

  // ----- Budgets ---------------------------------------------------------------------------

  function Min(a: int, b: int): int {
    if a < b then a else b
  }

  /** Not finite or not positive becomes nothing; the rest is rounded down and cut to the ceiling. */
  function Clamp(v: Number, ceiling: int): int {
    if v.Finite? && v.value > 0.0 then Min(v.value.Floor, ceiling) else 0
  }

  function ClampBudget(b: Budget, policy: Limits): Limits {
    Limits(Clamp(b.maxItems, policy.items), Clamp(b.maxTotalChars, policy.chars),
           Clamp(b.maxEstimatedTokens, policy.tokens))
  }

  predicate AllFinite(b: Budget) {
    b.maxItems.Finite? && b.maxTotalChars.Finite? && b.maxEstimatedTokens.Finite?
  }

  function EstimateTokens(chars: nat): (tokens: nat)
    ensures 4 * tokens - 3 <= chars <= 4 * tokens
  {
    (chars + 3) / 4
  }

  /** Rounding up once costs no more than rounding up twice. */
  lemma TokensSubadditive(a: nat, b: nat)
    ensures EstimateTokens(a + b) <= EstimateTokens(a) + EstimateTokens(b)
  {
  }

  lemma TokensMonotone(a: nat, b: nat)
    requires a <= b
    ensures EstimateTokens(a) <= EstimateTokens(b)
  {
  }

  predicate Within(a: Limits, b: Limits) {
    a.items <= b.items && a.chars <= b.chars && a.tokens <= b.tokens
  }

  predicate Positive(l: Limits) {
    l.items > 0 && l.chars > 0 && l.tokens > 0
  }

  /** A budget that clamps to something positive never exceeds the proposal or the policy. */
  lemma ClampWithin(b: Budget, policy: Limits)
    requires Positive(ClampBudget(b, policy))
    ensures AllFinite(b) && Within(ClampBudget(b, policy), policy)
    ensures Within(ClampBudget(b, policy),
                   Limits(b.maxItems.value.Floor, b.maxTotalChars.value.Floor, b.maxEstimatedTokens.value.Floor))
  {
  }

  // ----- Totals ----------------------------------------------------------------------------

  function TotalChars(items: seq<Item>): nat {
    if items == [] then 0 else TotalChars(items[..|items| - 1]) + |items[|items| - 1].content|
  }

  function Totals(items: seq<Item>): Limits {
    Limits(|items|, TotalChars(items), EstimateTokens(TotalChars(items)))
  }

  lemma TotalCharsSnoc(items: seq<Item>, x: Item)
    ensures TotalChars(items + [x]) == TotalChars(items) + |x.content|
  {
    assert (items + [x])[..|items|] == items;
  }

  predicate Requested(classes: Option<set<Class>>, c: Class) {
    classes.Some? ==> c in classes.value
  }

  function KeyOf(x: Item): Key {
    Key(x.owner, x.kind, x.content)
  }

  function IdsOf(items: seq<Item>): (r: seq<Id>)
    ensures |r| == |items| && forall i | 0 <= i < |items| :: r[i] == items[i].id
  {
    seq(|items|, i requires 0 <= i < |items| => items[i].id)
  }

  function ExcludedIds(excluded: seq<Exclusion>): (r: seq<Id>)
    ensures |r| == |excluded| && forall i | 0 <= i < |excluded| :: r[i] == excluded[i].id
  {
    seq(|excluded|, i requires 0 <= i < |excluded| => excluded[i].id)
  }

  /** The report is honest, within its limits, and shows only requested classes. */
  predicate PackageOk(p: Package) {
    p.observed == Totals(p.items) && Within(p.observed, p.limits)
    && forall x | x in p.items :: Requested(p.request.classes, x.kind)
  }
}
