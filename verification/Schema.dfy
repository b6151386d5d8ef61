/**
 * The declarative schema interpreter: a walk that collects problems, measured
 * against what it means for a value to satisfy a schema.
 */
module Schema {
  import opened Wrappers
  import opened Json
  import opened CanonicalJson
  import opened Registry
  import opened Sequences

  datatype JsonType = TString | TNumber | TBoolean | TObject | TArray | TNull

  datatype Spec = Spec(path: Text, types: seq<JsonType>, minLength: Option<int>, optional: bool, items: Nested)

  /** What is asked of the elements of an array, or of an object itself. */
  datatype Nested = Anything | Each(specs: seq<Spec>)

  datatype Problem =
    | NotAnObject
    | Missing(at: Text)
    | WrongType(at: Text, types: seq<JsonType>)
    | TooShort(at: Text, min: int)
    | TooFew(at: Text, min: int)
    | ItemNotObject(at: Text)

  // ----- Reading ---------------------------------------------------------------------------

  function ItemNamed(items: seq<Value>, key: Text, i: nat): Value
    requires i <= |items|
    decreases |items| - i
  {
    if i == |items| then Undefined else if Decimal(i) == key then items[i] else ItemNamed(items, key, i + 1)
  }

  /** Reading a property of an object, or of an array standing where an object is expected. */
  function Read(container: Value, key: Text): Value {
    match container
    case Obj(members) => Lookup(members, key)
    case Arr(items) => if key == Ascii("length") then Int(|items|) else ItemNamed(items, key, 0)
    case _ => Undefined
  }

  function TypeOf(v: Value): JsonType
    requires !v.Undefined?
  {
    match v
    case Null => TNull
    case Bool(_) => TBoolean
    case Int(_) => TNumber
    case Str(_) => TString
    case Arr(_) => TArray
    case Obj(_) => TObject
  }

  predicate AtLeast(n: nat, min: Option<int>) {
    min.Some? ==> n >= min.value
  }

  // ----- What a schema means -----------------------------------------------------------------

  predicate Satisfies(spec: Spec, container: Value)
    decreases spec
  {
    var v := Read(container, spec.path);
    if v.Undefined? then spec.optional
    else
      TypeOf(v) in spec.types
      && (v.Str? ==> AtLeast(|v.text|, spec.minLength))
      && (v.Arr? ==> AtLeast(|v.items|, spec.minLength)
                     && (spec.items.Each? ==>
                           forall item | item in v.items :: item.Obj? && SatisfiesAll(spec.items.specs, item)))
      && (v.Obj? && spec.items.Each? ==> SatisfiesAll(spec.items.specs, v))
  }

  predicate SatisfiesAll(specs: seq<Spec>, container: Value)
    decreases specs
  {
    forall s | s in specs :: Satisfies(s, container)
  }

  predicate IsContainer(v: Value) {
    v.Obj? || v.Arr?
  }

  predicate Conforms(fields: seq<Spec>, value: Value) {
    IsContainer(value) && SatisfiesAll(fields, value)
  }

  // ----- What the walk collects ----------------------------------------------------------------

  function At(path: Text, index: nat): Text {
    path + [91] + Decimal(index) + [93]
  }

  function LengthProblem(short: bool, p: Problem): seq<Problem> {
    if short then [p] else []
  }

  function Problems(spec: Spec, container: Value, prefix: Text): seq<Problem>
    decreases spec, 1, 0
  {
    var path := Join(prefix, spec.path);
    var v := Read(container, spec.path);
    if v.Undefined? then if spec.optional then [] else [Missing(path)]
    else PresentProblems(spec, v, path)
  }

  function PresentProblems(spec: Spec, v: Value, path: Text): seq<Problem>
    requires !v.Undefined?
    decreases spec, 0, 0
  {
    if TypeOf(v) !in spec.types then [WrongType(path, spec.types)]
    else if v.Str? then
      LengthProblem(!AtLeast(|v.text|, spec.minLength), TooShort(path, spec.minLength.GetOr(0)))
    else if v.Arr? then
      LengthProblem(!AtLeast(|v.items|, spec.minLength), TooFew(path, spec.minLength.GetOr(0)))
      + (if spec.items.Each? then ItemsProblems(spec.items.specs, v.items, 0, path) else [])
    else if v.Obj? && spec.items.Each? then AllProblems(spec.items.specs, v, path)
    else []
  }

  function ItemsProblems(specs: seq<Spec>, items: seq<Value>, from: nat, path: Text): seq<Problem>
    requires from <= |items|
    decreases specs, 1, |items| - from
  {
    if from == |items| then []
    else ItemProblems(specs, items[from], At(path, from)) + ItemsProblems(specs, items, from + 1, path)
  }

  function ItemProblems(specs: seq<Spec>, item: Value, path: Text): seq<Problem>
    decreases specs, 1, 0
  {
    if item.Obj? then AllProblems(specs, item, path) else [ItemNotObject(path)]
  }

  function AllProblems(specs: seq<Spec>, container: Value, prefix: Text): seq<Problem>
    decreases specs, 0, 0
  {
    if specs == [] then [] else Problems(specs[0], container, prefix) + AllProblems(specs[1..], container, prefix)
  }

  function Evaluation(fields: seq<Spec>, value: Value): seq<Problem> {
    if IsContainer(value) then AllProblems(fields, value, []) else [NotAnObject]
  }

  // ----- The walk finds nothing exactly when the value satisfies the schema ----------------------

  lemma {:induction false} ProblemsExact(spec: Spec, container: Value, prefix: Text)
    ensures Problems(spec, container, prefix) == [] <==> Satisfies(spec, container)
    decreases spec, 1, 0
  {
    var path := Join(prefix, spec.path);
    var v := Read(container, spec.path);
    if !v.Undefined? && TypeOf(v) in spec.types && spec.items.Each? {
      if v.Arr? {
        ItemsProblemsExact(spec.items.specs, v.items, 0, path);
      } else if v.Obj? {
        AllProblemsExact(spec.items.specs, v, path);
      }
    }
  }

  lemma {:induction false} ItemsProblemsExact(specs: seq<Spec>, items: seq<Value>, from: nat, path: Text)
    requires from <= |items|
    ensures ItemsProblems(specs, items, from, path) == []
      <==> forall i | from <= i < |items| :: items[i].Obj? && SatisfiesAll(specs, items[i])
    decreases specs, 1, |items| - from
  {
    if from < |items| {
      if items[from].Obj? {
        AllProblemsExact(specs, items[from], At(path, from));
      }
      ItemsProblemsExact(specs, items, from + 1, path);
    }
  }

  lemma {:induction false} AllProblemsExact(specs: seq<Spec>, container: Value, prefix: Text)
    ensures AllProblems(specs, container, prefix) == [] <==> SatisfiesAll(specs, container)
    decreases specs, 0, 0
  {
    if specs != [] {
      ProblemsExact(specs[0], container, prefix);
      AllProblemsExact(specs[1..], container, prefix);
      assert specs == [specs[0]] + specs[1..];
    }
  }

  /** The interpreter is sound and complete for the meaning of a schema. */
  lemma EvaluationExact(fields: seq<Spec>, value: Value)
    ensures Evaluation(fields, value) == [] <==> Conforms(fields, value)
  {
    AllProblemsExact(fields, value, []);
  }

  // ----- Weakening ---------------------------------------------------------------------------------

  /** `t` asks for no more than `s`: more types, possibly optional, a lower minimum, weaker or fewer parts. */
  predicate Weaker(t: Spec, s: Spec)
    decreases t
  {
    t.path == s.path
    && (forall ty | ty in s.types :: ty in t.types)
    && (s.optional ==> t.optional)
    && (t.minLength.Some? ==> s.minLength.Some? && t.minLength.value <= s.minLength.value)
    && (t.items.Each? ==> s.items.Each? && WeakerAll(t.items.specs, s.items.specs))
  }

  predicate WeakerAll(ts: seq<Spec>, ss: seq<Spec>)
    decreases ts
  {
    forall t | t in ts :: exists s | s in ss :: Weaker(t, s)
  }

  /** Whatever satisfies a spec satisfies every weakening of it. */
  lemma {:induction false} Monotone(t: Spec, s: Spec, container: Value)
    requires Weaker(t, s) && Satisfies(s, container)
    ensures Satisfies(t, container)
    decreases t
  {
    var v := Read(container, s.path);
    if !v.Undefined? && t.items.Each? {
      if v.Arr? {
        forall item | item in v.items ensures item.Obj? && SatisfiesAll(t.items.specs, item) {
          MonotoneAll(t.items.specs, s.items.specs, item);
        }
      } else if v.Obj? {
        MonotoneAll(t.items.specs, s.items.specs, v);
      }
    }
  }

  lemma {:induction false} MonotoneAll(ts: seq<Spec>, ss: seq<Spec>, container: Value)
    requires WeakerAll(ts, ss) && SatisfiesAll(ss, container)
    ensures SatisfiesAll(ts, container)
    decreases ts
  {
    forall t | t in ts ensures Satisfies(t, container) {
      var s :| s in ss && Weaker(t, s);
      Monotone(t, s, container);
    }
  }

  /** Weakening a schema, or dropping fields from it, never makes the interpreter report a problem it did not report. */
  lemma WeakerSchemaAcceptsMore(ts: seq<Spec>, ss: seq<Spec>, value: Value)
    requires WeakerAll(ts, ss) && Evaluation(ss, value) == []
    ensures Evaluation(ts, value) == []
  {
    EvaluationExact(ss, value);
    EvaluationExact(ts, value);
    MonotoneAll(ts, ss, value);
  }

  // ----- The interpreter -----------------------------------------------------------------------------

  method EvaluateDeclarativeSchema(fields: seq<Spec>, value: Value) returns (errors: seq<Problem>)
    ensures errors == Evaluation(fields, value)
    ensures errors == [] <==> Conforms(fields, value)
  {
    EvaluationExact(fields, value);
    if !IsContainer(value) {
      return [NotAnObject];
    }
    errors := WalkAll(fields, value, [], []);
  }

  method Walk(spec: Spec, container: Value, prefix: Text, before: seq<Problem>) returns (errors: seq<Problem>)
    ensures errors == before + Problems(spec, container, prefix)
    decreases spec, 1, 0
  {
    var path := Join(prefix, spec.path);
    var current := Read(container, spec.path);
    if current.Undefined? {
      errors := if spec.optional then before else before + [Missing(path)];
    } else {
      errors := WalkPresent(spec, current, path, before);
    }
  }

  method WalkPresent(spec: Spec, current: Value, path: Text, before: seq<Problem>) returns (errors: seq<Problem>)
    requires !current.Undefined?
    ensures errors == before + PresentProblems(spec, current, path)
    decreases spec, 0, 1
  {
    errors := before;
    if TypeOf(current) !in spec.types {
      errors := errors + [WrongType(path, spec.types)];
      return;
    }
    if current.Str? && spec.minLength.Some? && |current.text| < spec.minLength.value {
      errors := errors + [TooShort(path, spec.minLength.value)];
    }
    if current.Arr? {
      errors := WalkArray(spec, current, path, errors);
    }
    if current.Obj? && spec.items.Each? {
      errors := WalkAll(spec.items.specs, current, path, errors);
    }
  }

  method WalkArray(spec: Spec, current: Value, path: Text, before: seq<Problem>) returns (errors: seq<Problem>)
    requires current.Arr? && TypeOf(current) in spec.types
    ensures errors == before + PresentProblems(spec, current, path)
    decreases spec, 0, 0
  {
    ghost var few := LengthProblem(!AtLeast(|current.items|, spec.minLength), TooFew(path, spec.minLength.GetOr(0)));
    errors := before;
    if spec.minLength.Some? && |current.items| < spec.minLength.value {
      errors := errors + [TooFew(path, spec.minLength.value)];
    }
    assert errors == before + few;
    if spec.items.Each? {
      errors := WalkItems(spec.items.specs, current.items, path, errors);
      Regroup(before, few, ItemsProblems(spec.items.specs, current.items, 0, path));
    }
  }

  method WalkItems(specs: seq<Spec>, items: seq<Value>, path: Text, before: seq<Problem>) returns (errors: seq<Problem>)
    ensures errors == before + ItemsProblems(specs, items, 0, path)
    decreases specs, 1, 0
  {
    errors := before;
    for i := 0 to |items|
      invariant errors + ItemsProblems(specs, items, i, path) == before + ItemsProblems(specs, items, 0, path)
    {
      ghost var had := errors;
      if !items[i].Obj? {
        errors := errors + [ItemNotObject(At(path, i))];
      } else {
        errors := WalkAll(specs, items[i], At(path, i), errors);
      }
      assert errors == had + ItemProblems(specs, items[i], At(path, i));
    }
  }

  method WalkAll(specs: seq<Spec>, container: Value, prefix: Text, before: seq<Problem>) returns (errors: seq<Problem>)
    ensures errors == before + AllProblems(specs, container, prefix)
    decreases specs, 0, 0
  {
    errors := before;
    for i := 0 to |specs|
      invariant errors + AllProblems(specs[i..], container, prefix) == before + AllProblems(specs, container, prefix)
    {
      ghost var had := errors;
      errors := Walk(specs[i], container, prefix, errors);
      assert specs[i..][1..] == specs[i + 1..];
      assert errors == had + Problems(specs[i], container, prefix);
    }
  }

  // ----- Schemas as data -------------------------------------------------------------------------------

  predicate ValidSpec(v: Value)
    decreases v
  {
    v.Obj?
    && Get(v, Ascii("path")).Str? && Get(v, Ascii("path")).text != []
    && Get(v, Ascii("types")).Arr? && Get(v, Ascii("types")).items != []
    && (Get(v, Ascii("optional")).Undefined? || Get(v, Ascii("optional")).Bool?)
    && (var items := Get(v, Ascii("items"));
        items.Undefined? || items.Null?
        || (if items.Arr? then forall sub | sub in items.items :: ValidSpec(sub) else ValidSpec(items)))
  }

  predicate IsDeclarativeSchema(v: Value) {
    v.Obj?
    && Ascii("validate") !in KeyNames(v.members)
    && Get(v, Ascii("kind")) == Str(Ascii("declarative"))
    && Get(v, Ascii("fields")).Arr?
    && forall field | field in Get(v, Ascii("fields")).items :: ValidSpec(field)
  }
}
