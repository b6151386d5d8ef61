/** The registry's table of descriptors, and what no run of it can change. */
module CapabilityRegistry {
  import opened Wrappers
  import opened Json
  import opened CanonicalJson
  import opened Sequences
  import opened Sorting
  import opened Registry
  import opened JsNumber

  const CAPABILITY_ID := Ascii("capabilityId")
  const AVAILABILITY := Ascii("availability")
  const AVAILABILITY_DETAIL := Ascii("availabilityDetail")
  const FACT_ROWS_ONLY := Ascii("factRowsOnly")

  const IDENTITY_NAMES: seq<string> :=
    ["purpose", "contractVersion", "moduleOwner", "effectClass", "requiresApproval", "requiresOwnerVerification",
     "allowedInputRefPrefixes", "ownsStorage", "idempotency", "retry", "cancellationSupport", "reconciliationSupport",
     "expectedEvidence", "inputSchema", "resultSchema", "inputSchemaDescription", "resultSchemaDescription",
     "credentialRequirement", "characteristics", "degradation"]

  const CONTRACT_IDENTITY_FIELDS: seq<Text> := Map(s => Ascii(s), IDENTITY_NAMES)

  /** `sound` is the descriptor validator, `secret` the secret detector, `rank` the order of `localeCompare`. */
  datatype Rules = Rules(sound: Value -> bool, secret: Text -> bool, rank: Text -> real, identity: seq<Text>)

  datatype Error =
    | Invalid
    | Duplicate
    | Unknown
    | IdentityChanged(fields: seq<Text>)
    | SecretInDetail
    | BadLimit

  /** A map that remembers in which order its keys came. */
  datatype Table = Table(order: seq<Text>, rows: map<Text, Value>)

  datatype Page = Page(descriptors: seq<Value>, truncated: bool)

  const EMPTY := Table([], map[])

  // ----- One descriptor ------------------------------------------------------------------

  function SetMember(ms: seq<Member>, key: Text, v: Value): seq<Member> {
    if ms == [] then [Member(key, v)]
    else if ms[0].key == key then [Member(key, v)] + ms[1..]
    else [ms[0]] + SetMember(ms[1..], key, v)
  }

  lemma {:induction false} SetMemberReads(ms: seq<Member>, key: Text, v: Value, k: Text)
    ensures Lookup(SetMember(ms, key, v), k) == if k == key then v else Lookup(ms, k)
  {
    if ms != [] && ms[0].key != key {
      SetMemberReads(ms[1..], key, v, k);
      assert SetMember(ms, key, v)[1..] == SetMember(ms[1..], key, v);
    }
  }

  lemma {:induction false} SetMemberHas(ms: seq<Member>, key: Text, v: Value)
    ensures forall m | m in SetMember(ms, key, v) :: m in ms || m == Member(key, v)
  {
    if ms != [] && ms[0].key != key {
      SetMemberHas(ms[1..], key, v);
    }
  }

  lemma DistinctCons(m: Member, ms: seq<Member>)
    requires DistinctKeys(ms) && forall n | n in ms :: n.key != m.key
    ensures DistinctKeys([m] + ms)
  {
  }

  lemma {:induction false} SetMemberDistinct(ms: seq<Member>, key: Text, v: Value)
    requires DistinctKeys(ms)
    ensures DistinctKeys(SetMember(ms, key, v))
  {
    if ms != [] {
      if ms[0].key == key {
        DistinctCons(Member(key, v), ms[1..]);
      } else {
        SetMemberDistinct(ms[1..], key, v);
        SetMemberHas(ms[1..], key, v);
        DistinctCons(ms[0], SetMember(ms[1..], key, v));
      }
    }
  }

  function With(d: Value, key: Text, v: Value): Value
    requires d.Obj?
  {
    Obj(SetMember(d.members, key, v))
  }

  lemma WithWellFormed(d: Value, key: Text, v: Value)
    requires d.Obj? && WellFormed(d) && WellFormed(v)
    ensures WellFormed(With(d, key, v))
  {
    SetMemberDistinct(d.members, key, v);
    SetMemberHas(d.members, key, v);
  }

  predicate Accepts(d: Value, rules: Rules) {
    WellFormed(d) && d.Obj? && Get(d, CAPABILITY_ID).Str? && rules.sound(d)
  }

  predicate FieldDiffers(current: Value, candidate: Value, field: Text) {
    Print(Get(current, field)) != Print(Get(candidate, field))
  }

  /** The fields whose canonical text differs, in the order of `fields`. */
  function Changed(current: Value, candidate: Value, fields: seq<Text>): (r: seq<Text>)
    ensures forall f :: f in r <==> f in fields && FieldDiffers(current, candidate, f)
  {
    if fields == [] then []
    else
      (if FieldDiffers(current, candidate, fields[0]) then [fields[0]] else [])
      + Changed(current, candidate, fields[1..])
  }

  lemma {:induction false} ChangedOneMore(current: Value, candidate: Value, fields: seq<Text>, field: Text)
    ensures Changed(current, candidate, fields + [field])
         == Changed(current, candidate, fields) + (if FieldDiffers(current, candidate, field) then [field] else [])
  {
    if fields != [] {
      ChangedOneMore(current, candidate, fields[1..], field);
      assert (fields + [field])[1..] == fields[1..] + [field];
    }
  }

  lemma ChangedPrefix(current: Value, candidate: Value, fields: seq<Text>, i: nat)
    requires i < |fields|
    ensures Changed(current, candidate, fields[..i + 1])
         == Changed(current, candidate, fields[..i])
            + (if FieldDiffers(current, candidate, fields[i]) then [fields[i]] else [])
  {
    assert fields[..i + 1] == fields[..i] + [fields[i]];
    ChangedOneMore(current, candidate, fields[..i], fields[i]);
  }

  predicate SameFields(a: Value, b: Value, fields: seq<Text>) {
    forall f | f in fields :: Mean(Get(a, f)) == Mean(Get(b, f))
  }

  lemma {:induction false} ChangedExact(current: Value, candidate: Value, fields: seq<Text>)
    requires WellFormed(current) && WellFormed(candidate)
    ensures Changed(current, candidate, fields) == [] <==> SameFields(current, candidate, fields)
  {
    if fields != [] {
      var f := fields[0];
      GetWellFormed(current, f);
      GetWellFormed(candidate, f);
      CanonicalText(Get(current, f), Get(candidate, f));
      ChangedExact(current, candidate, fields[1..]);
      assert fields == [f] + fields[1..];
    }
  }

  // ----- Steps ---------------------------------------------------------------------------

  function Put(t: Table, id: Text, d: Value): Table {
    Table(if id in t.rows then t.order else t.order + [id], t.rows[id := d])
  }

  function Registered(t: Table, d: Value, rules: Rules): Result<Table, Error> {
    if !Accepts(d, rules) then Err(Invalid)
    else
      var id := Get(d, CAPABILITY_ID).text;
      if id in t.rows then Err(Duplicate) else Ok(Put(t, id, d))
  }

  function Replaced(t: Table, d: Value, rules: Rules): Result<Table, Error> {
    var id := Get(d, CAPABILITY_ID);
    if !(id.Str? && id.text in t.rows) then Err(Unknown)
    else if !Accepts(d, rules) then Err(Invalid)
    else
      var changes := Changed(t.rows[id.text], d, rules.identity);
      if changes != [] then Err(IdentityChanged(changes)) else Ok(Put(t, id.text, d))
  }

  function Detail(detail: Option<Text>): Value {
    if detail.Some? then Str(detail.value) else Undefined
  }

  function AvailabilitySet(t: Table, id: Text, availability: Text, detail: Option<Text>, rules: Rules)
    : Result<Table, Error>
  {
    if id !in t.rows || !t.rows[id].Obj? then Err(Unknown)
    else if detail.Some? && rules.secret(detail.value) then Err(SecretInDetail)
    else Ok(Put(t, id, WithAvailability(t.rows[id], availability, detail)))
  }

  function Kept(t: Table, r: Result<Table, Error>): Table {
    if r.Ok? then r.value else t
  }

  function ErrorOf(r: Result<Table, Error>): Option<Error> {
    if r.Err? then Some(r.error) else None
  }

  // ----- What every table satisfies --------------------------------------------------------

  predicate RowOk(id: Text, d: Value) {
    WellFormed(d) && d.Obj? && Get(d, CAPABILITY_ID) == Str(id)
  }

  ghost predicate TableOk(t: Table) {
    NoRepeats(t.order) && (forall id :: id in t.order <==> id in t.rows)
    && forall id | id in t.rows :: RowOk(id, t.rows[id])
  }

  lemma PutOk(t: Table, id: Text, d: Value)
    requires TableOk(t) && RowOk(id, d)
    ensures TableOk(Put(t, id, d))
  {
  }

  /** The fields discovery may change lie outside the identity fields. */
  predicate Separate(rules: Rules) {
    AVAILABILITY !in rules.identity && AVAILABILITY_DETAIL !in rules.identity && FACT_ROWS_ONLY !in rules.identity
  }

  lemma NamesApart()
    ensures CAPABILITY_ID != AVAILABILITY && CAPABILITY_ID != AVAILABILITY_DETAIL && CAPABILITY_ID != FACT_ROWS_ONLY
    ensures AVAILABILITY != AVAILABILITY_DETAIL
  {
    assert AVAILABILITY[0] == 97 && FACT_ROWS_ONLY[0] == 102 && CAPABILITY_ID[0] == 99;
  }

  lemma ContractFieldsSeparate(rules: Rules)
    requires rules.identity == CONTRACT_IDENTITY_FIELDS
    ensures Separate(rules)
  {
    forall i | 0 <= i < |IDENTITY_NAMES|
      ensures rules.identity[i] !in [AVAILABILITY, AVAILABILITY_DETAIL, FACT_ROWS_ONLY]
    {
      AsciiApart(IDENTITY_NAMES[i], "availability");
      AsciiApart(IDENTITY_NAMES[i], "availabilityDetail");
      AsciiApart(IDENTITY_NAMES[i], "factRowsOnly");
    }
  }

  lemma WithReads(d: Value, key: Text, v: Value, k: Text)
    requires d.Obj?
    ensures Get(With(d, key, v), k) == if k == key then v else Get(d, k)
  {
    SetMemberReads(d.members, key, v, k);
  }

  function WithAvailability(d: Value, availability: Text, detail: Option<Text>): Value
    requires d.Obj?
  {
    With(With(d, AVAILABILITY, Str(availability)), AVAILABILITY_DETAIL, Detail(detail))
  }

  /** Discovery state is all that changes. */
  lemma WithAvailabilityReads(d: Value, availability: Text, detail: Option<Text>, k: Text)
    requires d.Obj?
    ensures Get(WithAvailability(d, availability, detail), k)
         == if k == AVAILABILITY_DETAIL then Detail(detail)
            else if k == AVAILABILITY then Str(availability) else Get(d, k)
  {
    var e := With(d, AVAILABILITY, Str(availability));
    WithReads(d, AVAILABILITY, Str(availability), k);
    WithReads(e, AVAILABILITY_DETAIL, Detail(detail), k);
  }

  lemma WithAvailabilityOk(id: Text, d: Value, availability: Text, detail: Option<Text>, rules: Rules)
    requires RowOk(id, d) && Separate(rules)
    ensures RowOk(id, WithAvailability(d, availability, detail))
    ensures SameFields(d, WithAvailability(d, availability, detail), rules.identity)
  {
    var e := WithAvailability(d, availability, detail);
    WithWellFormed(d, AVAILABILITY, Str(availability));
    WithWellFormed(With(d, AVAILABILITY, Str(availability)), AVAILABILITY_DETAIL, Detail(detail));
    NamesApart();
    WithAvailabilityReads(d, availability, detail, CAPABILITY_ID);
    forall f | f in rules.identity ensures Mean(Get(d, f)) == Mean(Get(e, f)) {
      WithAvailabilityReads(d, availability, detail, f);
    }
  }

  // ----- Runs ------------------------------------------------------------------------------

  datatype Event =
    | Register(d: Value)
    | ReplaceWith(d: Value)
    | SetAvailability(id: Text, availability: Text, detail: Option<Text>)

  function Outcome(t: Table, e: Event, rules: Rules): Result<Table, Error> {
    match e
    case Register(d) => Registered(t, d, rules)
    case ReplaceWith(d) => Replaced(t, d, rules)
    case SetAvailability(id, availability, detail) => AvailabilitySet(t, id, availability, detail, rules)
  }

  function Run(t: Table, events: seq<Event>, rules: Rules): Table
    decreases |events|
  {
    if events == [] then t else Run(Kept(t, Outcome(t, events[0], rules)), events[1..], rules)
  }

  /** Every id of `s` is still there, with the same canonical value in each of `fields`. */
  ghost predicate Keeps(s: Table, t: Table, fields: seq<Text>) {
    forall id | id in s.rows :: id in t.rows && SameFields(s.rows[id], t.rows[id], fields)
  }

  lemma PutKeeps(t: Table, id: Text, d: Value, fields: seq<Text>)
    requires id in t.rows ==> SameFields(t.rows[id], d, fields)
    ensures Keeps(t, Put(t, id, d), fields)
  {
    forall k | k in t.rows ensures SameFields(t.rows[k], Put(t, id, d).rows[k], fields) {
    }
  }

  lemma StepKeepsIdentity(t: Table, e: Event, rules: Rules)
    requires TableOk(t) && Separate(rules)
    ensures TableOk(Kept(t, Outcome(t, e, rules)))
    ensures Keeps(t, Kept(t, Outcome(t, e, rules)), rules.identity)
  {
    var r := Outcome(t, e, rules);
    if r.Ok? {
      match e
      case Register(d) =>
        PutOk(t, Get(d, CAPABILITY_ID).text, d);
        PutKeeps(t, Get(d, CAPABILITY_ID).text, d, rules.identity);
      case ReplaceWith(d) =>
        ReplaceExact(t, d, rules);
        PutOk(t, Get(d, CAPABILITY_ID).text, d);
        PutKeeps(t, Get(d, CAPABILITY_ID).text, d, rules.identity);
      case SetAvailability(id, availability, detail) =>
        assert RowOk(id, t.rows[id]);
        var d := WithAvailability(t.rows[id], availability, detail);
        WithAvailabilityOk(id, t.rows[id], availability, detail, rules);
        PutOk(t, id, d);
        PutKeeps(t, id, d, rules.identity);
    }
  }

  lemma AvailabilityKeeps(t: Table, id: Text, availability: Text, detail: Option<Text>, rules: Rules)
    requires TableOk(t) && Separate(rules)
    ensures TableOk(Kept(t, AvailabilitySet(t, id, availability, detail, rules)))
  {
    StepKeepsIdentity(t, SetAvailability(id, availability, detail), rules);
  }

  lemma {:induction false} RunKeeps(t: Table, events: seq<Event>, rules: Rules)
    requires TableOk(t) && Separate(rules)
    ensures TableOk(Run(t, events, rules))
    ensures Keeps(t, Run(t, events, rules), rules.identity)
    decreases |events|
  {
    if events != [] {
      StepKeepsIdentity(t, events[0], rules);
      var next := Kept(t, Outcome(t, events[0], rules));
      RunKeeps(next, events[1..], rules);
      KeepsTransitive(t, next, Run(t, events, rules), rules.identity);
    }
  }

  lemma {:induction false} RunSplit(t: Table, before: seq<Event>, after: seq<Event>, rules: Rules)
    ensures Run(t, before + after, rules) == Run(Run(t, before, rules), after, rules)
    decreases |before|
  {
    if before == [] {
      assert before + after == after;
    } else {
      RunSplit(Kept(t, Outcome(t, before[0], rules)), before[1..], after, rules);
      assert (before + after)[1..] == before[1..] + after;
    }
  }

  /** Over every run, a registered id stays registered and no identity field of it changes its canonical value. */
  lemma IdentityNeverChanges(before: seq<Event>, after: seq<Event>, rules: Rules)
    requires rules.identity == CONTRACT_IDENTITY_FIELDS
    ensures Keeps(Run(EMPTY, before, rules), Run(EMPTY, before + after, rules), CONTRACT_IDENTITY_FIELDS)
  {
    ContractFieldsSeparate(rules);
    RunKeeps(EMPTY, before, rules);
    RunKeeps(Run(EMPTY, before, rules), after, rules);
    RunSplit(EMPTY, before, after, rules);
  }

  lemma KeepsTransitive(s: Table, t: Table, u: Table, fields: seq<Text>)
    requires Keeps(s, t, fields) && Keeps(t, u, fields)
    ensures Keeps(s, u, fields)
  {
    forall id | id in s.rows ensures SameFields(s.rows[id], u.rows[id], fields) {
      assert SameFields(s.rows[id], t.rows[id], fields) && SameFields(t.rows[id], u.rows[id], fields);
    }
  }

  /** A replacement goes through exactly when the id is known, the descriptor is valid and its identity is the same. */
  lemma ReplaceExact(t: Table, d: Value, rules: Rules)
    requires TableOk(t)
    ensures Replaced(t, d, rules).Ok?
      <==> Accepts(d, rules) && Get(d, CAPABILITY_ID).text in t.rows
           && SameFields(t.rows[Get(d, CAPABILITY_ID).text], d, rules.identity)
  {
    var id := Get(d, CAPABILITY_ID);
    if Accepts(d, rules) && id.text in t.rows {
      assert RowOk(id.text, t.rows[id.text]);
      ChangedExact(t.rows[id.text], d, rules.identity);
    }
  }

  /** Every difference an accepted replacement makes lies outside the identity fields. */
  lemma ReplaceDiffersOutsideIdentity(t: Table, d: Value, rules: Rules, trail: seq<Text>)
    requires TableOk(t) && Replaced(t, d, rules).Ok?
    requires DiffersAt(t.rows[Get(d, CAPABILITY_ID).text], d, trail)
    ensures trail != [] && trail[0] !in rules.identity && trail[0] != CAPABILITY_ID
  {
    var current := t.rows[Get(d, CAPABILITY_ID).text];
    assert RowOk(Get(d, CAPABILITY_ID).text, current);
    var x, y := Get(current, trail[0]), Get(d, trail[0]);
    GetWellFormed(current, trail[0]);
    GetWellFormed(d, trail[0]);
    PrintsDiffer(x, y, trail[1..]);
    CanonicalText(x, y);
    ReplaceExact(t, d, rules);
  }

  /** The fact-only licence is not an identity field: a valid replacement may set it to anything. */
  lemma FactRowsOnlyMayChange(t: Table, id: Text, v: Value, rules: Rules)
    requires TableOk(t) && Separate(rules) && id in t.rows && t.rows[id].Obj?
    requires Accepts(With(t.rows[id], FACT_ROWS_ONLY, v), rules)
    ensures Replaced(t, With(t.rows[id], FACT_ROWS_ONLY, v), rules)
         == Ok(Put(t, id, With(t.rows[id], FACT_ROWS_ONLY, v)))
    ensures Get(With(t.rows[id], FACT_ROWS_ONLY, v), FACT_ROWS_ONLY) == v
  {
    var current := t.rows[id];
    var d := With(current, FACT_ROWS_ONLY, v);
    assert RowOk(id, current);
    NamesApart();
    WithReads(current, FACT_ROWS_ONLY, v, FACT_ROWS_ONLY);
    WithReads(current, FACT_ROWS_ONLY, v, CAPABILITY_ID);
    forall f | f in rules.identity ensures Mean(Get(current, f)) == Mean(Get(d, f)) {
      WithReads(current, FACT_ROWS_ONLY, v, f);
    }
    ReplaceExact(t, d, rules);
  }

  // ----- Listing ---------------------------------------------------------------------------

  function IdOf(d: Value): Text {
    var id := Get(d, CAPABILITY_ID);
    if id.Str? then id.text else []
  }

  function RowAt(t: Table): Text -> Value {
    id => if id in t.rows then t.rows[id] else Undefined
  }

  function Listed(t: Table, rank: Text -> real): seq<Value> {
    SortBy(Map(RowAt(t), t.order), ById(rank))
  }

  function Take<T>(xs: seq<T>, n: nat): seq<T> {
    if n < |xs| then xs[..n] else xs
  }

  function ById(rank: Text -> real): Value -> real {
    d => rank(IdOf(d))
  }

  /** Sorting ids and then fetching the rows gives the sorted descriptors. */
  lemma SortedIdsList(t: Table, rank: Text -> real)
    requires TableOk(t)
    ensures Map(RowAt(t), SortBy(t.order, rank)) == Listed(t, rank)
  {
    forall id | id in t.order ensures rank(id) == ById(rank)(RowAt(t)(id)) {
      assert id in t.rows && RowOk(id, t.rows[id]);
      assert RowAt(t)(id) == t.rows[id] && IdOf(t.rows[id]) == id;
    }
    SortByMap(RowAt(t), t.order, ById(rank), rank);
  }

  lemma TakeMap<S, T>(f: S -> T, xs: seq<S>, n: nat)
    ensures Map(f, Take(xs, n)) == Take(Map(f, xs), n)
  {
  }

  // ----- The object ------------------------------------------------------------------------

  class CapabilityRegistry {
    var order: seq<Text>
    var descriptors: map<Text, Value>
    const rules: Rules

    function View(): Table
      reads this
    {
      Table(order, descriptors)
    }

    ghost predicate Valid()
      reads this
    {
      TableOk(View()) && Separate(rules)
    }

    constructor (sound: Value -> bool, secret: Text -> bool, rank: Text -> real)
      ensures View() == EMPTY && Valid()
      ensures rules == Rules(sound, secret, rank, CONTRACT_IDENTITY_FIELDS)
    {
      order, descriptors := [], map[];
      rules := Rules(sound, secret, rank, CONTRACT_IDENTITY_FIELDS);
      new;
      ContractFieldsSeparate(rules);
    }

    method Store(id: Text, d: Value)
      modifies this
      ensures View() == Put(old(View()), id, d)
    {
      if id !in descriptors {
        order := order + [id];
      }
      descriptors := descriptors[id := d];
    }

    method Register(d: Value) returns (error: Option<Error>)
      requires Valid()
      modifies this
      ensures View() == Kept(old(View()), Registered(old(View()), d, rules)) && Valid()
      ensures error == ErrorOf(Registered(old(View()), d, rules))
    {
      StepKeepsIdentity(View(), Event.Register(d), rules);
      if !Accepts(d, rules) {
        return Some(Invalid);
      }
      var id := Get(d, CAPABILITY_ID).text;
      if id in descriptors {
        return Some(Duplicate);
      }
      Store(id, d);
      error := None;
    }

    method ContractFieldDifferences(current: Value, candidate: Value) returns (changes: seq<Text>)
      ensures changes == Changed(current, candidate, rules.identity)
    {
      changes := [];
      var fields := rules.identity;
      for i := 0 to |fields|
        invariant changes == Changed(current, candidate, fields[..i])
      {
        ChangedPrefix(current, candidate, fields, i);
        if FieldDiffers(current, candidate, fields[i]) {
          changes := changes + [fields[i]];
        }
      }
      assert fields[..|fields|] == fields;
    }

    method Replace(d: Value) returns (error: Option<Error>)
      requires Valid()
      modifies this
      ensures View() == Kept(old(View()), Replaced(old(View()), d, rules)) && Valid()
      ensures error == ErrorOf(Replaced(old(View()), d, rules))
    {
      StepKeepsIdentity(View(), ReplaceWith(d), rules);
      var id := Get(d, CAPABILITY_ID);
      if !(id.Str? && id.text in descriptors) {
        return Some(Unknown);
      }
      if !Accepts(d, rules) {
        return Some(Invalid);
      }
      var changes := ContractFieldDifferences(descriptors[id.text], d);
      if |changes| > 0 {
        return Some(IdentityChanged(changes));
      }
      Store(id.text, d);
      error := None;
    }

    method SetAvailability(id: Text, availability: Text, detail: Option<Text>) returns (error: Option<Error>)
      requires Valid()
      modifies this
      ensures View() == Kept(old(View()), AvailabilitySet(old(View()), id, availability, detail, rules)) && Valid()
      ensures error == ErrorOf(AvailabilitySet(old(View()), id, availability, detail, rules))
    {
      AvailabilityKeeps(View(), id, availability, detail, rules);
      error := StoreAvailability(id, availability, detail);
    }

    method StoreAvailability(id: Text, availability: Text, detail: Option<Text>) returns (error: Option<Error>)
      requires Valid()
      modifies this
      ensures View() == Kept(old(View()), AvailabilitySet(old(View()), id, availability, detail, rules))
      ensures error == ErrorOf(AvailabilitySet(old(View()), id, availability, detail, rules))
    {
      if id !in descriptors {
        return Some(Unknown);
      }
      var current := descriptors[id];
      assert RowOk(id, current);
      if detail.Some? && rules.secret(detail.value) {
        return Some(SecretInDetail);
      }
      Store(id, WithAvailability(current, availability, detail));
      error := None;
    }

    method ListDescriptors() returns (ds: seq<Value>)
      requires Valid()
      ensures multiset(ds) == multiset(Map(RowAt(View()), order))
      ensures SortedBy(ds, ById(rules.rank))
      ensures ds == Listed(View(), rules.rank)
    {
      ds := Listed(View(), rules.rank);
      SortBySorted(Map(RowAt(View()), order), ById(rules.rank));
    }

    method ListDescriptorPage(limit: Number) returns (r: Result<Page, Error>)
      requires Valid()
      ensures r.Ok? <==> IsSafeInteger(limit) && limit.value.Floor >= 1
      ensures r.Ok? ==> r.value.descriptors == Take(Listed(View(), rules.rank), limit.value.Floor)
      ensures r.Ok? ==> (r.value.truncated <==> |Listed(View(), rules.rank)| > limit.value.Floor)
      ensures r.Err? ==> r.error == BadLimit
    {
      if !IsSafeInteger(limit) || limit.value < 1.0 {
        return Err(BadLimit);
      }
      var n := limit.value.Floor;
      var ids := SortBy(order, rules.rank);
      SortedIdsList(View(), rules.rank);
      TakeMap(RowAt(View()), ids, n);
      r := Ok(Page(Map(RowAt(View()), Take(ids, n)), |ids| > n));
    }
  }
}
