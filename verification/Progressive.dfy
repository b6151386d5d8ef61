/** Context packs that grow by explicit expansions under one aggregate budget fixed at the start. */
module Progressive {
  import opened Wrappers
  import opened Json
  import opened JsNumber
  import opened ContextModel
  import opened ContextCompiler
  import opened ContextChanges
  import opened ContextRuns

  datatype Accounting = Accounting(initial: Limits, aggregate: Limits, contextRequests: nat, expansions: nat)

  /** A mission as the store holds it: whether it has ended, its projection's length, and counts of earlier sessions. */
  datatype Stored = Stored(mission: Mission, ended: bool, core: nat, contextRequests: nat, expansions: nat)

  /**
   * `initialCore` is the length of the serialized mission projection when the session began. It
   * is history: no later step reads it.
   */
  datatype Pack = Pack(
    mission: Text, package: Package, limits: Limits, observed: Limits, remaining: Limits, accounting: Accounting,
    initialCore: nat)

  datatype PackError =
    | NotCurrent
    | Malformed
    | NotMissionOnly
    | MissionEnded
    | ProjectionTooLarge
    | CompileFailed(error: CompileError)
    | Widens
    | NothingRemaining
    | WrongMission
    | OverAggregate
    | NotPersisted

  /** The mission projection counts as one item. */
  function Measure(core: nat, p: Package): Limits {
    Limits(1 + |p.items|, core + TotalChars(p.items), EstimateTokens(core + TotalChars(p.items)))
  }

  function Minus(a: Limits, b: Limits): Limits {
    Limits(a.items - b.items, a.chars - b.chars, a.tokens - b.tokens)
  }

  function AtLeastZero(l: Limits): Limits {
    Limits(if l.items < 0 then 0 else l.items, if l.chars < 0 then 0 else l.chars, if l.tokens < 0 then 0 else l.tokens)
  }

  function AsBudget(l: Limits): Budget {
    Budget(Finite(l.items as real), Finite(l.chars as real), Finite(l.tokens as real))
  }

  function MakePack(
    mission: Text, p: Package, limits: Limits, observed: Limits, accounting: Accounting, initialCore: nat): Pack
  {
    Pack(mission, p, limits, observed, AtLeastZero(Minus(limits, observed)), accounting, initialCore)
  }

  // ----- The initial pack ------------------------------------------------------------------------

  /** What the projection itself takes from the budget. */
  function Reserve(core: nat): Limits {
    Limits(1, core, EstimateTokens(core))
  }

  function InitialPack(
    stored: Stored, request: Request, policy: Limits, now: int, rules: Rules)
    : Result<Pack, PackError>
  {
    var mission, core := stored.mission, stored.core;
    if request.mission != mission.id || request.ownerHint.Some? || request.step.Some? then Err(NotMissionOnly)
    else if stored.ended then Err(MissionEnded)
    else
      var limits := ClampBudget(request.budget, DEFAULT_POLICY);
      var remaining := Minus(limits, Reserve(core));
      if !Positive(remaining) then Err(ProjectionTooLarge)
      else
        var compiled := CompileResult(mission, request.(budget := AsBudget(remaining)), [], policy, now, rules);
        if compiled.Err? then Err(CompileFailed(compiled.error))
        else
          var observed := Measure(core, compiled.value);
          Ok(MakePack(mission.id, compiled.value, limits, observed,
                      Accounting(observed, observed, stored.contextRequests, stored.expansions), core))
  }

  // ----- Expansions ----------------------------------------------------------------------------------

  predicate FitsBudget(v: Number, limit: int) {
    v.Finite? && 0.0 < v.value <= limit as real
  }

  predicate DoesNotWiden(initial: Request, expansion: Request, limits: Limits) {
    FitsBudget(expansion.budget.maxItems, limits.items) && FitsBudget(expansion.budget.maxTotalChars, limits.chars)
    && FitsBudget(expansion.budget.maxEstimatedTokens, limits.tokens)
    && (initial.classes.Some? ==> expansion.classes.Some? && expansion.classes.value <= initial.classes.value)
    && (initial.maxAge.Some? ==> expansion.maxAge.Some? && expansion.maxAge.value <= initial.maxAge.value)
  }

  function Smaller(v: Number, limit: int): Number {
    if v.Finite? && v.value < limit as real then v else Finite(limit as real)
  }

  function BoundedBudget(b: Budget, remaining: Limits): Budget {
    Budget(Smaller(b.maxItems, remaining.items), Smaller(b.maxTotalChars, remaining.chars),
           Smaller(b.maxEstimatedTokens, remaining.tokens))
  }

  /** What one expansion meets: the mission as read, its projection, the sealed batch, and the clock read in turn. */
  datatype Moment = Moment(
    mission: Mission, ended: bool, endedAfterRead: bool, wellFormed: bool, core: nat, batch: Option<Resolution>,
    policy: Limits, aged: int, compiled: int, mergeAged: int, merged: int, persists: bool)

  function Batches(m: Moment): seq<Resolution> {
    if m.batch.Some? then [m.batch.value] else []
  }

  function ExpandPack(pack: Pack, asked: Request, m: Moment, rules: Rules): Result<Pack, PackError> {
    var request := Normalized(asked, rules);
    if !m.wellFormed || request.mission != pack.mission || request.ownerHint.None? || request.step.None? then
      Err(Malformed)
    else if !DoesNotWiden(pack.package.request, request, pack.limits) then Err(Widens)
    else if m.ended then Err(MissionEnded)
    else
      var base := Refresh(pack.package, m.aged);
      var remaining := Minus(pack.limits, Measure(m.core, base));
      if !Positive(remaining) then Err(NothingRemaining)
      else if m.endedAfterRead then Err(MissionEnded)
      else
        var bounded := ExpansionRequest(pack, asked, m, rules);
        var compiled := CompileResult(m.mission, bounded, Batches(m), m.policy, m.compiled, rules);
        if compiled.Err? then Err(CompileFailed(compiled.error))
        else Combine(pack, base, Expansion(pack, asked, m, rules), m)
  }

  /** The request as it is compiled: with a budget no larger than what is left. */
  function ExpansionRequest(pack: Pack, asked: Request, m: Moment, rules: Rules): Request {
    var request := Normalized(asked, rules);
    var remaining := Minus(pack.limits, Measure(m.core, Refresh(pack.package, m.aged)));
    request.(budget := BoundedBudget(request.budget, remaining))
  }

  function Expansion(pack: Pack, asked: Request, m: Moment, rules: Rules): Package {
    Compiled(m.mission, ExpansionRequest(pack, asked, m, rules), Batches(m), m.policy, m.compiled, rules)
  }

  function Combine(pack: Pack, base: Package, expansion: Package, m: Moment): Result<Pack, PackError> {
    var merged := MergeExpansion(base, expansion, m.mergeAged, m.merged);
    if merged.None? then Err(WrongMission)
    else
      var observed := Measure(m.core, merged.value);
      if !Within(observed, pack.limits) then Err(OverAggregate)
      else
        var a := pack.accounting;
        Ok(MakePack(pack.mission, merged.value, pack.limits, observed,
                    Accounting(a.initial, observed, a.contextRequests + 1, a.expansions + 1), pack.initialCore))
  }

  // ----- What every pack satisfies ----------------------------------------------------------------------

  /** The package's own limits leave room for the projection the session began with. */
  predicate LeavesRoom(p: Package, limits: Limits, core: nat) {
    Within(p.limits, Minus(limits, Reserve(core)))
  }

  predicate PackOk(pack: Pack) {
    PackageOk(pack.package) && LeavesRoom(pack.package, pack.limits, pack.initialCore)
    && Within(pack.limits, DEFAULT_POLICY) && Within(pack.observed, pack.limits)
    && pack.remaining == Minus(pack.limits, pack.observed)
    && pack.observed.items == 1 + |pack.package.items|
    && pack.accounting.aggregate == pack.observed
  }

  /** Rounding the projection and the items up together costs no more than rounding each up. */
  lemma MeasureWithin(core: nat, p: Package, limits: Limits, initialCore: nat)
    requires PackageOk(p) && LeavesRoom(p, limits, initialCore) && core <= initialCore
    ensures Within(Measure(core, p), limits)
  {
    TokensMonotone(core, initialCore);
    TokensSubadditive(core, TotalChars(p.items));
  }

  lemma AsBudgetClamps(l: Limits, policy: Limits)
    requires Positive(l)
    ensures Within(ClampBudget(AsBudget(l), policy), l)
  {
  }

  /** The initial pack fits its budget, projection included. */
  lemma InitialOk(stored: Stored, request: Request, policy: Limits, now: int, rules: Rules)
    requires InitialPack(stored, request, policy, now, rules).Ok?
    ensures PackOk(InitialPack(stored, request, policy, now, rules).value)
  {
    var mission, core := stored.mission, stored.core;
    var limits := ClampBudget(request.budget, DEFAULT_POLICY);
    var remaining := Minus(limits, Reserve(core));
    var bounded := request.(budget := AsBudget(remaining));
    CompiledOk(mission, bounded, [], policy, now, rules);
    AsBudgetClamps(remaining, policy);
    ClampWithin(request.budget, DEFAULT_POLICY);
    MeasureWithin(core, Compiled(mission, bounded, [], policy, now, rules), limits, core);
  }

  /** An expansion keeps the pack within the limits the session began with, those limits and its first request. */
  lemma ExpandOk(pack: Pack, asked: Request, m: Moment, rules: Rules)
    requires PackOk(pack) && ExpandPack(pack, asked, m, rules).Ok?
    ensures
      var next := ExpandPack(pack, asked, m, rules).value;
      PackOk(next) && next.limits == pack.limits && next.initialCore == pack.initialCore
      && next.package.request == pack.package.request && next.accounting.initial == pack.accounting.initial
      && next.accounting.expansions == pack.accounting.expansions + 1
      && next.accounting.contextRequests == pack.accounting.contextRequests + 1
  {
    var base := Refresh(pack.package, m.aged);
    RefreshBounded(pack.package, m.aged);
    var bounded := ExpansionRequest(pack, asked, m, rules);
    MergeBounded(base, Compiled(m.mission, bounded, Batches(m), m.policy, m.compiled, rules), m.mergeAged, m.merged);
  }

  /** While the serialized projection has not grown since the start, the check of the aggregate budget cannot fail. */
  lemma NeverOverAggregate(pack: Pack, asked: Request, m: Moment, rules: Rules)
    requires PackOk(pack) && m.core <= pack.initialCore
    ensures ExpandPack(pack, asked, m, rules) != Err(OverAggregate)
  {
    var base := Refresh(pack.package, m.aged);
    var bounded := ExpansionRequest(pack, asked, m, rules);
    var expansion := Compiled(m.mission, bounded, Batches(m), m.policy, m.compiled, rules);
    RefreshBounded(pack.package, m.aged);
    if base.mission == expansion.mission {
      MergeBounded(base, expansion, m.mergeAged, m.merged);
      var merged := MergeExpansion(base, expansion, m.mergeAged, m.merged).value;
      MeasureWithin(m.core, merged, pack.limits, pack.initialCore);
    }
  }

  /** An expansion dates every item by its own source's stamp and what the first request demanded. */
  lemma ExpandInTime(pack: Pack, asked: Request, m: Moment, rules: Rules, maxAge: int)
    requires PackOk(pack) && ExpandPack(pack, asked, m, rules).Ok?
    requires pack.package.request.maxAge == Some(maxAge) && AllInTime(pack.package.items, maxAge)
    ensures AllInTime(ExpandPack(pack, asked, m, rules).value.package.items, maxAge)
  {
    var base := Refresh(pack.package, m.aged);
    RefreshItems(pack.package, m.aged);
    ExpandCombines(pack, asked, m, rules);
    ExpandNarrows(pack, asked, m, rules);
    ExpansionInTime(pack, asked, m, rules, maxAge);
    CombineInTime(pack, base, Expansion(pack, asked, m, rules), m, maxAge);
  }

  /** An expansion that goes through asks for sources no older than the first request did. */
  lemma ExpandNarrows(pack: Pack, asked: Request, m: Moment, rules: Rules)
    requires ExpandPack(pack, asked, m, rules).Ok?
    ensures DoesNotWiden(pack.package.request, Normalized(asked, rules), pack.limits)
  {
  }

  lemma ExpandCombines(pack: Pack, asked: Request, m: Moment, rules: Rules)
    requires ExpandPack(pack, asked, m, rules).Ok?
    ensures ExpandPack(pack, asked, m, rules)
         == Combine(pack, Refresh(pack.package, m.aged), Expansion(pack, asked, m, rules), m)
  {
  }

  lemma ExpansionInTime(pack: Pack, asked: Request, m: Moment, rules: Rules, maxAge: int)
    requires DoesNotWiden(pack.package.request, Normalized(asked, rules), pack.limits)
    requires pack.package.request.maxAge == Some(maxAge)
    ensures AllInTime(Expansion(pack, asked, m, rules).items, maxAge)
  {
    var bounded := ExpansionRequest(pack, asked, m, rules);
    CompiledInTime(m.mission, bounded, Batches(m), m.policy, m.compiled, rules, maxAge);
  }

  lemma CombineInTime(pack: Pack, base: Package, expansion: Package, m: Moment, maxAge: int)
    requires AllInTime(base.items, maxAge) && AllInTime(expansion.items, maxAge)
    ensures Combine(pack, base, expansion, m).Ok? ==>
      AllInTime(Combine(pack, base, expansion, m).value.package.items, maxAge)
  {
    if base.mission == expansion.mission {
      MergedInTime(base, expansion, m.mergeAged, m.merged, maxAge);
    }
  }

  // ----- Chains ---------------------------------------------------------------------------------------------

  /** The pack after a chain of expansions; a refused one leaves it as it was. */
  function Chain(pack: Pack, steps: seq<(Request, Moment)>, rules: Rules): Pack
    decreases |steps|
  {
    if steps == [] then pack
    else
      var r := ExpandPack(pack, steps[0].0, steps[0].1, rules);
      Chain(if r.Ok? then r.value else pack, steps[1..], rules)
  }

  lemma {:induction false} ChainKeeps(pack: Pack, steps: seq<(Request, Moment)>, rules: Rules)
    requires PackOk(pack)
    ensures PackOk(Chain(pack, steps, rules)) && Chain(pack, steps, rules).limits == pack.limits
    ensures Chain(pack, steps, rules).initialCore == pack.initialCore
    ensures Chain(pack, steps, rules).package.request == pack.package.request
    decreases |steps|
  {
    if steps != [] {
      var r := ExpandPack(pack, steps[0].0, steps[0].1, rules);
      if r.Ok? {
        ExpandOk(pack, steps[0].0, steps[0].1, rules);
      }
      ChainKeeps(if r.Ok? then r.value else pack, steps[1..], rules);
    }
  }

  lemma {:induction false} ChainInTime(pack: Pack, steps: seq<(Request, Moment)>, rules: Rules, maxAge: int)
    requires PackOk(pack)
    requires pack.package.request.maxAge == Some(maxAge) && AllInTime(pack.package.items, maxAge)
    ensures AllInTime(Chain(pack, steps, rules).package.items, maxAge)
    decreases |steps|
  {
    if steps != [] {
      var r := ExpandPack(pack, steps[0].0, steps[0].1, rules);
      if r.Ok? {
        ExpandOk(pack, steps[0].0, steps[0].1, rules);
        ExpandInTime(pack, steps[0].0, steps[0].1, rules, maxAge);
      }
      ChainInTime(if r.Ok? then r.value else pack, steps[1..], rules, maxAge);
    }
  }

  /**
   * Over every chain of expansions, whatever the later requests allow and whenever they run, every item from a read
   * expires by its source's stamp plus the age that the first request demanded, unless it is ageless; so what is left
   * at any time is ageless or no older than that.
   */
  lemma FirstDemandHolds(
    stored: Stored, request: Request, policy: Limits, now: int, steps: seq<(Request, Moment)>, rules: Rules,
    maxAge: int, t: int)
    requires InitialPack(stored, request, policy, now, rules).Ok? && request.maxAge == Some(maxAge)
    ensures
      var pack := Chain(InitialPack(stored, request, policy, now, rules).value, steps, rules);
      AllInTime(pack.package.items, maxAge)
      && forall x | x in Refresh(pack.package, t).items && x.step.Some? ::
           Ageless(x) || t - x.stamped.ms <= maxAge
  {
    var remaining := Minus(ClampBudget(request.budget, DEFAULT_POLICY), Reserve(stored.core));
    InitialOk(stored, request, policy, now, rules);
    CompiledInTime(stored.mission, request.(budget := AsBudget(remaining)), [], policy, now, rules, maxAge);
    ChainInTime(InitialPack(stored, request, policy, now, rules).value, steps, rules, maxAge);
    FreshAfterRefresh(Chain(InitialPack(stored, request, policy, now, rules).value, steps, rules).package, maxAge, t);
  }

  /**
   * Over every chain of expansions, projection and items together stay within the limits of the first request, only
   * its classes are shown, and as long as the projection is no longer than at the start, no further expansion fails
   * on the aggregate.
   */
  lemma AggregateBudget(
    stored: Stored, request: Request, policy: Limits, now: int, steps: seq<(Request, Moment)>,
    asked: Request, m: Moment, rules: Rules)
    requires InitialPack(stored, request, policy, now, rules).Ok?
    ensures
      var pack := Chain(InitialPack(stored, request, policy, now, rules).value, steps, rules);
      Within(pack.observed, ClampBudget(request.budget, DEFAULT_POLICY))
      && (forall x | x in pack.package.items :: Requested(request.classes, x.kind))
      && (m.core <= stored.core ==> ExpandPack(pack, asked, m, rules) != Err(OverAggregate))
  {
    var first := InitialPack(stored, request, policy, now, rules).value;
    InitialOk(stored, request, policy, now, rules);
    ChainKeeps(first, steps, rules);
    if m.core <= stored.core {
      NeverOverAggregate(Chain(first, steps, rules), asked, m, rules);
    }
  }

  // ----- The runtime ------------------------------------------------------------------------------------------

  /** Sessions by the identity of their current pack; a pack that was expanded is no longer a key. */
  class ProgressiveContextPackRuntime {
    var sessions: map<nat, Pack>
    var next: nat

    ghost predicate Valid()
      reads this
    {
      forall k | k in sessions :: k < next && PackOk(sessions[k])
    }

    constructor ()
      ensures Valid() && sessions == map[]
    {
      sessions, next := map[], 0;
    }

    method Open(pack: Pack) returns (handle: nat)
      requires Valid() && PackOk(pack)
      modifies this
      ensures Valid() && handle !in old(sessions) && sessions == old(sessions)[handle := pack]
    {
      handle := next;
      sessions := sessions[handle := pack];
      next := next + 1;
    }

    /** The session is opened before its accounting is written; a failed write leaves it without a holder. */
    method CompileInitial(stored: Stored, request: Request, policy: Limits, now: int, persists: bool, rules: Rules)
      returns (r: Result<nat, PackError>)
      requires Valid()
      modifies this
      ensures Valid()
      ensures var first := InitialPack(stored, request, policy, now, rules);
        (first.Err? ==> r == Err(first.error) && sessions == old(sessions))
        && (first.Ok? ==> Opened(old(sessions), sessions, first.value, r, persists))
    {
      var first := InitialPack(stored, request, policy, now, rules);
      if first.Err? {
        return Err(first.error);
      }
      InitialOk(stored, request, policy, now, rules);
      var key := Open(first.value);
      r := if persists then Ok(key) else Err(NotPersisted);
      assert OpenedAt(old(sessions), sessions, first.value, key);
    }

    method Supersede(handle: nat, pack: Pack, persists: bool) returns (r: Result<nat, PackError>)
      requires Valid() && handle in sessions && PackOk(pack)
      modifies this
      ensures Valid() && handle !in sessions
      ensures Opened(old(sessions) - {handle}, sessions, pack, r, persists)
    {
      var key := Open(pack);
      sessions := sessions - {handle};
      r := if persists then Ok(key) else Err(NotPersisted);
      assert OpenedAt(old(sessions) - {handle}, sessions, pack, key);
    }

    /** The expanded session replaces the one it came from, before the accounting is written. */
    method Expand(handle: nat, asked: Request, m: Moment, rules: Rules) returns (r: Result<nat, PackError>)
      requires Valid()
      modifies this
      ensures Valid()
      ensures handle !in old(sessions) ==> r == Err(NotCurrent) && sessions == old(sessions)
      ensures handle in old(sessions) ==>
        var grown := ExpandPack(old(sessions)[handle], asked, m, rules);
        (grown.Err? ==> r == Err(grown.error) && sessions == old(sessions))
        && (grown.Ok? ==> handle !in sessions && Opened(old(sessions) - {handle}, sessions, grown.value, r, m.persists))
    {
      if handle !in sessions {
        return Err(NotCurrent);
      }
      var grown := ExpandPack(sessions[handle], asked, m, rules);
      if grown.Err? {
        return Err(grown.error);
      }
      ExpandOk(sessions[handle], asked, m, rules);
      r := Supersede(handle, grown.value, m.persists);
    }
  }

  predicate OpenedAt(before: map<nat, Pack>, after: map<nat, Pack>, pack: Pack, key: nat) {
    key !in before && after == before[key := pack]
  }

  /** One session is new; its caller learns of it exactly when the accounting was written. */
  ghost predicate Opened(
    before: map<nat, Pack>, after: map<nat, Pack>, pack: Pack, r: Result<nat, PackError>, persists: bool)
  {
    if persists then r.Ok? && OpenedAt(before, after, pack, r.value)
    else r == Err(NotPersisted) && exists key :: OpenedAt(before, after, pack, key)
  }

  // ----- A pack that is lost to its caller --------------------------------------------------------------

  /** Limits that leave room for more than the projection. */
  predicate Roomy(l: Limits) {
    Positive(l) && Within(l, DEFAULT_POLICY) && l.items > 1
  }

  function SampleMission(): Mission {
    Mission([], [], {})
  }

  function SampleStored(): Stored {
    Stored(SampleMission(), false, 0, 0, 0)
  }

  function OpeningRequest(l: Limits): Request {
    SampleRequest().(budget := AsBudget(l))
  }

  /** The same demand for one step of the mission. */
  function ExpandingRequest(l: Limits): Request {
    OpeningRequest(l).(ownerHint := Some([]), step := Some([]))
  }

  /** An expansion that brings nothing, and whose accounting cannot be written. */
  function UnwrittenMoment(l: Limits): Moment {
    Moment(SampleMission(), false, false, true, 0, None, l, 0, 0, 0, 0, false)
  }

  lemma ClampExact(l: Limits, policy: Limits)
    requires Positive(l) && Within(l, policy)
    ensures ClampBudget(AsBudget(l), policy) == l && AllFinite(AsBudget(l))
  {
    assert (l.items as real).Floor == l.items && (l.chars as real).Floor == l.chars;
    assert (l.tokens as real).Floor == l.tokens;
  }

  lemma BoundedExact(l: Limits, remaining: Limits)
    requires Within(remaining, l)
    ensures BoundedBudget(AsBudget(l), remaining) == AsBudget(remaining)
  {
  }

  lemma EmptyCompiles(request: Request, policy: Limits, now: int)
    requires request.mission == [] && AllFinite(request.budget) && Positive(ClampBudget(request.budget, policy))
    ensures
      var p := Compiled(SampleMission(), request, [], policy, now, SampleRules());
      CompileResult(SampleMission(), request, [], policy, now, SampleRules()) == Ok(p)
      && p.items == [] && p.mission == [] && p.request == request && PackageOk(p)
      && p.limits == ClampBudget(request.budget, policy)
  {
    CompiledOk(SampleMission(), request, [], policy, now, SampleRules());
  }

  lemma SampleOpens(l: Limits)
    requires Roomy(l)
    ensures
      var r := InitialPack(SampleStored(), OpeningRequest(l), l, 0, SampleRules());
      r.Ok? && PackOk(r.value) && r.value.package.items == [] && r.value.limits == l && r.value.initialCore == 0
      && r.value.mission == [] && r.value.package.mission == []
      && r.value.package.request.maxAge == Some(5) && r.value.package.request.classes.None?
  {
    var remaining := Minus(l, Reserve(0));
    ClampExact(l, DEFAULT_POLICY);
    ClampExact(remaining, l);
    EmptyCompiles(OpeningRequest(l).(budget := AsBudget(remaining)), l, 0);
    InitialOk(SampleStored(), OpeningRequest(l), l, 0, SampleRules());
  }

  lemma SampleGrows(pack: Pack, l: Limits)
    requires Roomy(l) && PackOk(pack) && pack.package.items == [] && pack.limits == l && pack.initialCore == 0
    requires pack.mission == [] && pack.package.mission == []
    requires pack.package.request.maxAge == Some(5) && pack.package.request.classes.None?
    ensures ExpandPack(pack, ExpandingRequest(l), UnwrittenMoment(l), SampleRules()).Ok?
  {
    var m, asked := UnwrittenMoment(l), ExpandingRequest(l);
    var remaining := Minus(l, Measure(0, pack.package));
    assert Refresh(pack.package, 0) == pack.package;
    BoundedExact(l, remaining);
    ClampExact(remaining, l);
    EmptyCompiles(ExpansionRequest(pack, asked, m, SampleRules()), l, 0);
    NeverOverAggregate(pack, asked, m, SampleRules());
  }

  /** A pack is opened, its expansion cannot be accounted for, and its caller is left without either. */
  method LosePack(l: Limits)
    returns (runtime: ProgressiveContextPackRuntime, first: nat, second: Result<nat, PackError>)
    requires Roomy(l)
    ensures fresh(runtime) && runtime.Valid()
    ensures second == Err(NotPersisted) && first !in runtime.sessions && |runtime.sessions| == 1
  {
    runtime := new ProgressiveContextPackRuntime();
    SampleOpens(l);
    var created := runtime.CompileInitial(SampleStored(), OpeningRequest(l), l, 0, true, SampleRules());
    first := created.value;
    SampleGrows(runtime.sessions[first], l);
    second := runtime.Expand(first, ExpandingRequest(l), UnwrittenMoment(l), SampleRules());
  }
}
