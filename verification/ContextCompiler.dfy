/**
 * Compiling a context package from a mission's own references and authorized reads, and the
 * operations that change a package afterwards.
 */
module ContextCompiler {
  import opened Wrappers
  import opened Json
  import opened ContextModel
  import opened CapPipeline

  /** The shared text checks, and the order of identifiers. */
  datatype Rules = Rules(
    hasSecret: Text -> bool, sanitize: Text -> Text, marked: Text -> bool, blank: Text -> bool, ranks: Ranks)

  datatype OwnedRef = OwnedRef(owner: Text, externalRef: Text, caption: Text)

  datatype Mission = Mission(id: Text, contextRefs: seq<OwnedRef>, capabilities: set<Text>)

  datatype Row = Row(
    ref: Text, content: Text, kind: Option<Class>, fetchedAt: Stamp, evidenceRef: Option<Text>,
    sensitivity: Option<Sensitivity>)

  datatype Source = Source(capability: Text, owner: Text, version: int, factRowsOnly: bool)

  datatype Envelope = Envelope(mission: Text, step: Text, capability: Text, subject: Text)

  datatype Read = Read(authorization: Envelope, source: Source, skipped: nat, rows: seq<Row>)

  datatype Resolution = Resolution(authorization: Envelope, refusals: seq<Unresolved>, batches: seq<Read>)

  datatype CompileError =
    | EmptyRequest
    | ForeignMission
    | SecretInRequest
    | BadBudget
    | UnboundResolution

  // ----- Gates -------------------------------------------------------------------------------

  predicate SecretIn(t: Option<Text>, rules: Rules) {
    t.Some? && rules.hasSecret(t.value)
  }

  predicate Bound(r: Resolution, mission: Mission, request: Request) {
    var a := r.authorization;
    a.mission == mission.id && (request.step.Some? ==> a.step == request.step.value) && a.subject == request.subject
    && forall read | read in r.batches ::
         read.authorization == a && read.source.capability == a.capability && a.capability in mission.capabilities
  }

  /** The first gate that is closed, in the order the gates stand. */
  function Refusal(
    mission: Mission, request: Request, resolutions: seq<Resolution>, policy: Limits, rules: Rules)
    : Option<CompileError>
  {
    if rules.blank(request.subject) || rules.blank(request.purpose) then Some(EmptyRequest)
    else if request.mission != mission.id then Some(ForeignMission)
    else if rules.hasSecret(request.subject) || SecretIn(request.ownerHint, rules) || SecretIn(request.step, rules)
    then Some(SecretInRequest)
    else if !AllFinite(request.budget) || !Positive(ClampBudget(request.budget, policy)) then Some(BadBudget)
    else if exists r | r in resolutions :: !Bound(r, mission, request) then Some(UnboundResolution)
    else None
  }

  function Normalized(request: Request, rules: Rules): Request {
    request.(purpose := rules.sanitize(request.purpose))
  }

  // ----- One row ---------------------------------------------------------------------------------

  const RESTRICTED_CONTENT := Ascii("(restricted)")

  function ReferenceOnly(ref: Text): Text {
    Ascii("(restricted: reference-only ") + ref + Ascii(")")
  }

  function RedactionSensitivity(raw: Text, content: Text, rules: Rules): Sensitivity {
    if content != raw || rules.marked(content) then Redacted else Normal
  }

  function RowKind(row: Row, source: Source): Option<Class> {
    if row.kind.Some? then row.kind else if source.factRowsOnly then Some(Fact) else None
  }

  /** Restricted stays restricted; redaction only raises what would be normal. */
  function RowSensitivity(row: Row, rules: Rules): Sensitivity {
    var declared := row.sensitivity.GetOr(Normal);
    if declared.Restricted? then Restricted
    else if RedactionSensitivity(row.content, rules.sanitize(row.content), rules).Redacted? then Redacted
    else declared
  }

  function ExpiryFor(row: Row, maxAge: Option<int>): Option<int> {
    if maxAge.Some? && row.fetchedAt.At? then Some(row.fetchedAt.ms + maxAge.value) else None
  }

  /** Without a readable timestamp a row cannot prove its age. */
  predicate TooOld(row: Row, maxAge: Option<int>, now: int) {
    maxAge.Some? && !(row.fetchedAt.At? && now - row.fetchedAt.ms <= maxAge.value)
  }

  datatype Verdict = Keep(item: Item) | Drop(exclusion: Exclusion) | Refuse(record: Unresolved)

  function RowItem(
    row: Row, read: Read, kind: Class, idContent: Text, content: Text, request: Request, now: int, rules: Rules): Item
  {
    Item(ItemId(read.source.owner, row.ref, kind, idContent, request.mission), kind, content,
         read.source.owner, row.ref,
         Some(read.source.version), if row.fetchedAt.Missing? then At(now) else row.fetchedAt,
         ExpiryFor(row, request.maxAge), RowSensitivity(row, rules), Some(read.authorization.step), [], row.fetchedAt)
  }

  function JudgeRow(row: Row, read: Read, request: Request, now: int, rules: Rules): Verdict {
    var content := rules.sanitize(row.content);
    var kind := RowKind(row, read.source);
    var ref := rules.sanitize(row.ref);
    if rules.hasSecret(row.ref) || SecretIn(row.evidenceRef, rules) then
      Drop(Exclusion(SecretId(row.ref, row.evidenceRef.GetOr([])), SecretInIdentity))
    else if rules.hasSecret(content) then Drop(Exclusion(SecretId(row.ref, content), SecretRefused))
    else if kind.None? then Refuse(Unresolved(ref, read.source.owner, Unsupported))
    else if RowSensitivity(row, rules).Restricted? then
      Keep(RowItem(row, read, kind.value, RESTRICTED_CONTENT, ReferenceOnly(row.ref), request, now, rules))
    else if TooOld(row, request.maxAge, now) then Refuse(Unresolved(ref, read.source.owner, Stale))
    else Keep(RowItem(row, read, kind.value, content, content, request, now, rules))
  }

  function JudgeOwned(owned: OwnedRef, mission: Mission, now: int, rules: Rules): Verdict {
    var content := rules.sanitize(owned.caption);
    if rules.hasSecret(owned.externalRef) then Drop(Exclusion(SecretId(owned.externalRef, []), SecretInIdentity))
    else
      Keep(Item(ItemId(owned.owner, owned.externalRef, Fact, content, mission.id), Fact, content, owned.owner,
                owned.externalRef, None, At(now), None, RedactionSensitivity(owned.caption, content, rules), None, [],
                Missing))
  }

  // ----- Gathering ----------------------------------------------------------------------------------

  /** What has been collected so far. */
  datatype Gather = Gather(items: seq<Item>, unresolved: seq<Unresolved>, excluded: seq<Exclusion>)

  function Add(g: Gather, v: Verdict): Gather {
    match v
    case Keep(item) => g.(items := g.items + [item])
    case Drop(exclusion) => g.(excluded := g.excluded + [exclusion])
    case Refuse(record) => g.(unresolved := g.unresolved + [record])
  }

  function AddOwned(g: Gather, refs: seq<OwnedRef>, mission: Mission, now: int, rules: Rules): Gather {
    if refs == [] then g
    else Add(AddOwned(g, refs[..|refs| - 1], mission, now, rules), JudgeOwned(refs[|refs| - 1], mission, now, rules))
  }

  function AddRows(g: Gather, rows: seq<Row>, read: Read, request: Request, now: int, rules: Rules): Gather {
    if rows == [] then g
    else Add(AddRows(g, rows[..|rows| - 1], read, request, now, rules),
             JudgeRow(rows[|rows| - 1], read, request, now, rules))
  }

  function SkippedRecord(read: Read, rules: Rules): seq<Unresolved> {
    if read.skipped > 0 then [Unresolved(rules.sanitize(read.source.capability), read.source.owner, Unsupported)]
    else []
  }

  function AddRead(g: Gather, read: Read, request: Request, now: int, rules: Rules): Gather {
    AddRows(g.(unresolved := g.unresolved + SkippedRecord(read, rules)), read.rows, read, request, now, rules)
  }

  function AddReads(g: Gather, batches: seq<Read>, request: Request, now: int, rules: Rules): Gather {
    if batches == [] then g
    else
      var before := AddReads(g, batches[..|batches| - 1], request, now, rules);
      AddRead(before, batches[|batches| - 1], request, now, rules)
  }

  function AddResolution(g: Gather, r: Resolution, request: Request, now: int, rules: Rules): Gather {
    AddReads(g.(unresolved := g.unresolved + r.refusals), r.batches, request, now, rules)
  }

  function AddResolutions(g: Gather, rs: seq<Resolution>, request: Request, now: int, rules: Rules): Gather {
    if rs == [] then g
    else AddResolution(AddResolutions(g, rs[..|rs| - 1], request, now, rules), rs[|rs| - 1], request, now, rules)
  }

  function Gathered(mission: Mission, request: Request, rs: seq<Resolution>, now: int, rules: Rules): Gather {
    AddResolutions(AddOwned(Gather([], [], []), mission.contextRefs, mission, now, rules), rs, request, now, rules)
  }

  // ----- Compilation ----------------------------------------------------------------------------------

  function Compiled(
    mission: Mission, request: Request, rs: seq<Resolution>, policy: Limits, now: int, rules: Rules): Package
  {
    var normalized := Normalized(request, rules);
    var limits := ClampBudget(request.budget, policy);
    var g := Gathered(mission, normalized, rs, now, rules);
    var stage := Pipeline(g.items, request.classes, limits, rules.ranks);
    Package(mission.id, now, normalized, stage.kept, g.unresolved, limits, Totals(stage.kept),
            g.excluded + stage.dropped)
  }

  function CompileResult(
    mission: Mission, request: Request, rs: seq<Resolution>, policy: Limits, now: int, rules: Rules)
    : Result<Package, CompileError>
  {
    var refusal := Refusal(mission, request, rs, policy, rules);
    if refusal.Some? then Err(refusal.value) else Ok(Compiled(mission, request, rs, policy, now, rules))
  }

  method GatherRows(g: Gather, read: Read, request: Request, now: int, rules: Rules) returns (r: Gather)
    ensures r == AddRows(g, read.rows, read, request, now, rules)
  {
    r := g;
    for i := 0 to |read.rows|
      invariant r == AddRows(g, read.rows[..i], read, request, now, rules)
    {
      assert read.rows[..i + 1][..i] == read.rows[..i];
      r := Add(r, JudgeRow(read.rows[i], read, request, now, rules));
    }
    assert read.rows[..|read.rows|] == read.rows;
  }

  method GatherResolution(g: Gather, resolution: Resolution, request: Request, now: int, rules: Rules)
    returns (r: Gather)
    ensures r == AddResolution(g, resolution, request, now, rules)
  {
    var start := g.(unresolved := g.unresolved + resolution.refusals);
    r := start;
    for i := 0 to |resolution.batches|
      invariant r == AddReads(start, resolution.batches[..i], request, now, rules)
    {
      assert resolution.batches[..i + 1][..i] == resolution.batches[..i];
      var read := resolution.batches[i];
      r := r.(unresolved := r.unresolved + SkippedRecord(read, rules));
      r := GatherRows(r, read, request, now, rules);
    }
    assert resolution.batches[..|resolution.batches|] == resolution.batches;
  }

  method GatherAll(mission: Mission, request: Request, rs: seq<Resolution>, now: int, rules: Rules) returns (r: Gather)
    ensures r == Gathered(mission, request, rs, now, rules)
  {
    var refs := mission.contextRefs;
    r := Gather([], [], []);
    for i := 0 to |refs|
      invariant r == AddOwned(Gather([], [], []), refs[..i], mission, now, rules)
    {
      assert refs[..i + 1][..i] == refs[..i];
      r := Add(r, JudgeOwned(refs[i], mission, now, rules));
    }
    assert refs[..|refs|] == refs;
    var start := r;
    for i := 0 to |rs|
      invariant r == AddResolutions(start, rs[..i], request, now, rules)
    {
      assert rs[..i + 1][..i] == rs[..i];
      r := GatherResolution(r, rs[i], request, now, rules);
    }
    assert rs[..|rs|] == rs;
  }

  method Compile(mission: Mission, request: Request, rs: seq<Resolution>, policy: Limits, now: int, rules: Rules)
    returns (r: Result<Package, CompileError>)
    ensures r == CompileResult(mission, request, rs, policy, now, rules)
    ensures r.Ok? ==> PackageOk(r.value) && Within(r.value.limits, policy)
  {
    var refusal := Refusal(mission, request, rs, policy, rules);
    if refusal.Some? {
      return Err(refusal.value);
    }
    var normalized := Normalized(request, rules);
    var limits := ClampBudget(request.budget, policy);
    var g := GatherAll(mission, normalized, rs, now, rules);
    var items, excluded := CapItems(g.items, request.classes, limits, rules.ranks, g.excluded);
    CompiledOk(mission, request, rs, policy, now, rules);
    r := Ok(Package(mission.id, now, normalized, items, g.unresolved, limits, Totals(items), excluded));
  }

  /** A compiled package is honest, within its clamped budget, and shows only requested classes. */
  lemma CompiledOk(mission: Mission, request: Request, rs: seq<Resolution>, policy: Limits, now: int, rules: Rules)
    requires Refusal(mission, request, rs, policy, rules).None?
    ensures PackageOk(Compiled(mission, request, rs, policy, now, rules))
    ensures Within(Compiled(mission, request, rs, policy, now, rules).limits, policy)
  {
    var g := Gathered(mission, Normalized(request, rules), rs, now, rules);
    var limits := ClampBudget(request.budget, policy);
    ClampWithin(request.budget, policy);
    PipelineOk(g.items, request.classes, limits, rules.ranks);
  }

  // ----- Nothing is dropped silently -------------------------------------------------------------------

  function Size(g: Gather): nat {
    |g.items| + |g.unresolved| + |g.excluded|
  }

  function ReadSize(read: Read): nat {
    (if read.skipped > 0 then 1 else 0) + |read.rows|
  }

  function ReadsSize(batches: seq<Read>): nat {
    if batches == [] then 0 else ReadsSize(batches[..|batches| - 1]) + ReadSize(batches[|batches| - 1])
  }

  function ResolutionsSize(rs: seq<Resolution>): nat {
    if rs == [] then 0
    else ResolutionsSize(rs[..|rs| - 1]) + |rs[|rs| - 1].refusals| + ReadsSize(rs[|rs| - 1].batches)
  }

  lemma {:induction false} AddOwnedSize(g: Gather, refs: seq<OwnedRef>, mission: Mission, now: int, rules: Rules)
    ensures Size(AddOwned(g, refs, mission, now, rules)) == Size(g) + |refs|
  {
    if refs != [] {
      AddOwnedSize(g, refs[..|refs| - 1], mission, now, rules);
    }
  }

  lemma {:induction false} AddRowsSize(g: Gather, rows: seq<Row>, read: Read, request: Request, now: int, rules: Rules)
    ensures Size(AddRows(g, rows, read, request, now, rules)) == Size(g) + |rows|
  {
    if rows != [] {
      AddRowsSize(g, rows[..|rows| - 1], read, request, now, rules);
    }
  }

  lemma {:induction false} AddReadsSize(g: Gather, batches: seq<Read>, request: Request, now: int, rules: Rules)
    ensures Size(AddReads(g, batches, request, now, rules)) == Size(g) + ReadsSize(batches)
  {
    if batches != [] {
      var read := batches[|batches| - 1];
      var h := AddReads(g, batches[..|batches| - 1], request, now, rules);
      AddReadsSize(g, batches[..|batches| - 1], request, now, rules);
      AddRowsSize(h.(unresolved := h.unresolved + SkippedRecord(read, rules)), read.rows, read, request, now, rules);
    }
  }

  lemma {:induction false} AddResolutionsSize(g: Gather, rs: seq<Resolution>, request: Request, now: int, rules: Rules)
    ensures Size(AddResolutions(g, rs, request, now, rules)) == Size(g) + ResolutionsSize(rs)
  {
    if rs != [] {
      var r := rs[|rs| - 1];
      var h := AddResolutions(g, rs[..|rs| - 1], request, now, rules);
      AddResolutionsSize(g, rs[..|rs| - 1], request, now, rules);
      AddReadsSize(h.(unresolved := h.unresolved + r.refusals), r.batches, request, now, rules);
    }
  }

  /** Every reference, row, refusal and skipped batch ends up as an item, an exclusion or an unresolved record. */
  lemma NothingSilent(mission: Mission, request: Request, rs: seq<Resolution>, policy: Limits, now: int, rules: Rules)
    ensures
      var p := Compiled(mission, request, rs, policy, now, rules);
      |p.items| + |p.excluded| + |p.unresolved| == |mission.contextRefs| + ResolutionsSize(rs)
  {
    var normalized := Normalized(request, rules);
    var g := Gathered(mission, normalized, rs, now, rules);
    var owned := AddOwned(Gather([], [], []), mission.contextRefs, mission, now, rules);
    AddOwnedSize(Gather([], [], []), mission.contextRefs, mission, now, rules);
    AddResolutionsSize(owned, rs, normalized, now, rules);
    var s := Pipeline(g.items, request.classes, ClampBudget(request.budget, policy), rules.ranks);
    PipelineConserves(g.items, request.classes, ClampBudget(request.budget, policy), rules.ranks);
    assert |multiset(IdsOf(g.items))| == |g.items|;
    assert |multiset(IdsOf(s.kept)) + multiset(ExcludedIds(s.dropped))| == |s.kept| + |s.dropped|;
  }

  /** What a kept row shows is free of secrets, and looks normal only when nothing had to be changed. */
  lemma KeptRowIsClean(row: Row, read: Read, request: Request, now: int, rules: Rules)
    requires JudgeRow(row, read, request, now, rules).Keep?
    ensures
      var x := JudgeRow(row, read, request, now, rules).item;
      !rules.hasSecret(x.ref)
      && (x.sensitivity.Restricted? <==> row.sensitivity == Some(Restricted))
      && (x.sensitivity.Restricted? ==> x.content == ReferenceOnly(row.ref))
      && (!x.sensitivity.Restricted? ==> !rules.hasSecret(x.content) && x.content == rules.sanitize(row.content))
      && (x.sensitivity.Normal? ==> x.content == row.content && !rules.marked(row.content))
  {
  }
}
