/**
 * What a connector result must look like: the default result schema, and the two
 * guards that check the same parts without trusting any schema.
 */
module ResultContract {
  import opened Wrappers
  import opened Json
  import opened Schema

  const OWNER := Ascii("owner")
  const EXTERNAL_REF := Ascii("externalRef")
  const LABEL := Ascii("label")
  const VERIFIED := Ascii("verified")
  const REASON := Ascii("reason")
  const EVIDENCE := Ascii("evidence")
  const OWNER_VERIFICATION := Ascii("ownerVerification")
  const STATUS := Ascii("status")
  const REQUEST_ID := Ascii("requestId")
  const SUMMARY := Ascii("summary")

  // ----- The default schema ------------------------------------------------------------------

  function Required(path: Text, types: seq<JsonType>, min: Option<int>): Spec {
    Spec(path, types, min, false, Anything)
  }

  const EVIDENCE_SPEC :=
    Spec(EVIDENCE, [TArray], None, false,
         Each([Required(OWNER, [TString], Some(1)), Required(EXTERNAL_REF, [TString], Some(1)),
               Required(LABEL, [TString], None)]))

  const OWNER_VERIFICATION_SPEC :=
    Spec(OWNER_VERIFICATION, [TObject], None, true,
         Each([Required(OWNER, [TString], Some(1)), Required(VERIFIED, [TBoolean, TNull], None),
               Required(REASON, [TString], None)]))

  const DEFAULT_RESULT_SCHEMA: seq<Spec> :=
    [Required(STATUS, [TString], None), Required(REQUEST_ID, [TString], Some(1)), Required(SUMMARY, [TString], None),
     EVIDENCE_SPEC, OWNER_VERIFICATION_SPEC]

  // ----- The guards ----------------------------------------------------------------------------

  datatype Issue =
    | NotArray
    | NotObject
    | ItemNotObject(index: nat)
    | BadItemField(index: nat, field: Text)
    | BadField(field: Text)

  predicate NonEmptyText(v: Value) {
    v.Str? && v.text != []
  }

  function OwnerVerificationIssue(outcome: Value): Option<Issue> {
    if !outcome.Obj? then Some(NotObject)
    else if !NonEmptyText(Get(outcome, OWNER)) then Some(BadField(OWNER))
    else if !Get(outcome, VERIFIED).Bool? && !Get(outcome, VERIFIED).Null? then Some(BadField(VERIFIED))
    else if !Get(outcome, REASON).Str? then Some(BadField(REASON))
    else None
  }

  function ItemIssue(item: Value, index: nat): Option<Issue> {
    if !item.Obj? then Some(Issue.ItemNotObject(index))
    else if !NonEmptyText(Get(item, OWNER)) then Some(BadItemField(index, OWNER))
    else if !NonEmptyText(Get(item, EXTERNAL_REF)) then Some(BadItemField(index, EXTERNAL_REF))
    else if !NonEmptyText(Get(item, LABEL)) then Some(BadItemField(index, LABEL))
    else None
  }

  function FirstIssue(items: seq<Value>, from: nat): Option<Issue>
    requires from <= |items|
    decreases |items| - from
  {
    if from == |items| then None
    else if ItemIssue(items[from], from).Some? then ItemIssue(items[from], from)
    else FirstIssue(items, from + 1)
  }

  function EvidenceIssue(evidence: Value): Option<Issue> {
    if evidence.Arr? then FirstIssue(evidence.items, 0) else Some(NotArray)
  }

  // ----- Schema and guards compared ---------------------------------------------------------------

  lemma RequiredText(path: Text, item: Value, min: int)
    requires item.Obj? && (min == 0 || min == 1)
    ensures Satisfies(Required(path, [TString], Some(min)), item)
      <==> Get(item, path).Str? && (min == 1 ==> Get(item, path).text != [])
    ensures Satisfies(Required(path, [TString], None), item) <==> Get(item, path).Str?
  {
  }

  /** Where a container has no owner verdict the clause accepts it; otherwise it accepts what the guard accepts. */
  lemma OwnerClauseIsGuard(container: Value)
    ensures Satisfies(OWNER_VERIFICATION_SPEC, container)
      <==> Read(container, OWNER_VERIFICATION).Undefined?
           || OwnerVerificationIssue(Read(container, OWNER_VERIFICATION)).None?
  {
    var v := Read(container, OWNER_VERIFICATION);
    var specs := OWNER_VERIFICATION_SPEC.items.specs;
    if v.Obj? {
      RequiredText(OWNER, v, 1);
      RequiredText(REASON, v, 1);
      assert SatisfiesAll(specs, v)
        <==> Satisfies(specs[0], v) && Satisfies(specs[1], v) && Satisfies(specs[2], v);
    }
  }

  lemma ItemClause(item: Value, index: nat)
    ensures ItemIssue(item, index).None?
      <==> item.Obj? && SatisfiesAll(EVIDENCE_SPEC.items.specs, item) && NonEmptyText(Get(item, LABEL))
  {
    var specs := EVIDENCE_SPEC.items.specs;
    if item.Obj? {
      RequiredText(OWNER, item, 1);
      RequiredText(EXTERNAL_REF, item, 1);
      RequiredText(LABEL, item, 1);
      assert SatisfiesAll(specs, item)
        <==> Satisfies(specs[0], item) && Satisfies(specs[1], item) && Satisfies(specs[2], item);
    }
  }

  lemma {:induction false} FirstIssueExact(items: seq<Value>, from: nat)
    requires from <= |items|
    ensures FirstIssue(items, from).None? <==> forall i | from <= i < |items| :: ItemIssue(items[i], i).None?
    decreases |items| - from
  {
    if from < |items| {
      FirstIssueExact(items, from + 1);
      assert FirstIssue(items, from).None? <==> ItemIssue(items[from], from).None? && FirstIssue(items, from + 1).None?;
    }
  }

  predicate Labelled(evidence: Value) {
    evidence.Arr? && forall item | item in evidence.items :: NonEmptyText(Get(item, LABEL))
  }

  /** The evidence guard accepts what the clause accepts, and also wants every label to be non-empty. */
  lemma EvidenceGuardIsClauseAndLabels(container: Value)
    ensures EvidenceIssue(Read(container, EVIDENCE)).None?
      <==> Satisfies(EVIDENCE_SPEC, container) && Labelled(Read(container, EVIDENCE))
  {
    var v := Read(container, EVIDENCE);
    if v.Arr? {
      FirstIssueExact(v.items, 0);
      forall i | 0 <= i < |v.items|
        ensures ItemIssue(v.items[i], i).None?
          <==> v.items[i].Obj? && SatisfiesAll(EVIDENCE_SPEC.items.specs, v.items[i])
               && NonEmptyText(Get(v.items[i], LABEL))
      {
        ItemClause(v.items[i], i);
      }
    }
  }

  /** The clause alone is weaker: it lets an empty label through. */
  lemma EmptyLabelPassesClauseOnly(owner: Text, ref: Text)
    requires owner != [] && ref != []
    ensures
      var item := Obj([Member(OWNER, Str(owner)), Member(EXTERNAL_REF, Str(ref)), Member(LABEL, Str([]))]);
      var container := Obj([Member(EVIDENCE, Arr([item]))]);
      Satisfies(EVIDENCE_SPEC, container) && EvidenceIssue(Read(container, EVIDENCE)) == Some(BadItemField(0, LABEL))
  {
    var item := Obj([Member(OWNER, Str(owner)), Member(EXTERNAL_REF, Str(ref)), Member(LABEL, Str([]))]);
    var container := Obj([Member(EVIDENCE, Arr([item]))]);
    UnlabelledItem(item, owner, ref);
    assert Read(container, EVIDENCE) == Arr([item]);
    assert FirstIssue([item], 0) == ItemIssue(item, 0);
  }

  lemma UnlabelledItem(item: Value, owner: Text, ref: Text)
    requires item == Obj([Member(OWNER, Str(owner)), Member(EXTERNAL_REF, Str(ref)), Member(LABEL, Str([]))])
    requires owner != [] && ref != []
    ensures SatisfiesAll(EVIDENCE_SPEC.items.specs, item) && ItemIssue(item, 0) == Some(BadItemField(0, LABEL))
  {
    AsciiApart("owner", "externalRef");
    AsciiApart("owner", "label");
    AsciiApart("externalRef", "label");
    SkipMember(item.members, OWNER, 0);
    SkipMember(item.members, EXTERNAL_REF, 1);
    SkipMember(item.members, LABEL, 2);
    RequiredText(OWNER, item, 1);
    RequiredText(EXTERNAL_REF, item, 1);
    RequiredText(LABEL, item, 1);
  }

  // ----- The default schema read as a whole -------------------------------------------------------------

  /** The default schema asks for text where the seam prints, and for the shapes that the guards ask for. */
  lemma DefaultSchemaExact(value: Value)
    ensures Evaluation(DEFAULT_RESULT_SCHEMA, value) == []
      <==> IsContainer(value) && Read(value, STATUS).Str? && NonEmptyText(Read(value, REQUEST_ID))
           && Read(value, SUMMARY).Str? && Satisfies(EVIDENCE_SPEC, value)
           && (Read(value, OWNER_VERIFICATION).Undefined?
               || OwnerVerificationIssue(Read(value, OWNER_VERIFICATION)).None?)
  {
    EvaluationExact(DEFAULT_RESULT_SCHEMA, value);
    FiveClauses(value);
    RequiredRead(STATUS, value);
    RequiredRead(REQUEST_ID, value);
    RequiredRead(SUMMARY, value);
    OwnerClauseIsGuard(value);
  }

  lemma FiveClauses(value: Value)
    ensures SatisfiesAll(DEFAULT_RESULT_SCHEMA, value)
      <==> Satisfies(Required(STATUS, [TString], None), value)
           && Satisfies(Required(REQUEST_ID, [TString], Some(1)), value)
           && Satisfies(Required(SUMMARY, [TString], None), value) && Satisfies(EVIDENCE_SPEC, value)
           && Satisfies(OWNER_VERIFICATION_SPEC, value)
  {
    var specs := DEFAULT_RESULT_SCHEMA;
    assert specs[0] in specs && specs[1] in specs && specs[2] in specs && specs[3] in specs && specs[4] in specs;
  }

  lemma RequiredRead(path: Text, container: Value)
    ensures Satisfies(Required(path, [TString], None), container) <==> Read(container, path).Str?
    ensures Satisfies(Required(path, [TString], Some(1)), container) <==> NonEmptyText(Read(container, path))
  {
  }

  // ----- The shape of a schema that can be declared --------------------------------------------------

  function Encoded(spec: Spec): Value
    decreases spec
  {
    Obj([Member(Ascii("path"), Str(spec.path)), Member(Ascii("types"), Arr(EncodedTypes(spec.types))),
         Member(Ascii("minLength"), if spec.minLength.Some? then Int(spec.minLength.value) else Undefined),
         Member(Ascii("optional"), if spec.optional then Bool(true) else Undefined),
         Member(Ascii("items"), if spec.items.Each? then Arr(EncodedAll(spec.items.specs)) else Undefined)])
  }

  function EncodedAll(specs: seq<Spec>): (r: seq<Value>)
    ensures |r| == |specs|
    decreases specs
  {
    if specs == [] then [] else [Encoded(specs[0])] + EncodedAll(specs[1..])
  }

  function TypeName(t: JsonType): Text {
    match t
    case TString => Ascii("string")
    case TNumber => Ascii("number")
    case TBoolean => Ascii("boolean")
    case TObject => Ascii("object")
    case TArray => Ascii("array")
    case TNull => Ascii("null")
  }

  function EncodedTypes(types: seq<JsonType>): (r: seq<Value>)
    ensures |r| == |types|
  {
    seq(|types|, i requires 0 <= i < |types| => Str(TypeName(types[i])))
  }

  predicate Declarable(spec: Spec)
    decreases spec
  {
    spec.path != [] && spec.types != [] && (spec.items.Each? ==> forall s | s in spec.items.specs :: Declarable(s))
  }

  lemma EncodedKeys(spec: Spec)
    ensures DistinctKeys(Encoded(spec).members)
  {
    AsciiApart("path", "types");
    AsciiApart("path", "minLength");
    AsciiApart("path", "optional");
    AsciiApart("path", "items");
    AsciiApart("types", "minLength");
    AsciiApart("types", "optional");
    AsciiApart("types", "items");
    AsciiApart("minLength", "optional");
    AsciiApart("minLength", "items");
    AsciiApart("optional", "items");
  }

  lemma EncodedReads(spec: Spec)
    ensures Get(Encoded(spec), Ascii("path")) == Str(spec.path)
    ensures Get(Encoded(spec), Ascii("types")) == Arr(EncodedTypes(spec.types))
    ensures Get(Encoded(spec), Ascii("optional")) == if spec.optional then Bool(true) else Undefined
    ensures Get(Encoded(spec), Ascii("items"))
         == if spec.items.Each? then Arr(EncodedAll(spec.items.specs)) else Undefined
  {
    var ms := Encoded(spec).members;
    EncodedKeys(spec);
    SkipMember(ms, Ascii("path"), 0);
    SkipMember(ms, Ascii("types"), 1);
    SkipMember(ms, Ascii("optional"), 3);
    SkipMember(ms, Ascii("items"), 4);
  }

  /** A member is read past any others with different keys. */
  lemma {:induction false} SkipMember(ms: seq<Member>, key: Text, n: nat)
    requires n < |ms| && ms[n].key == key && forall i | 0 <= i < n :: ms[i].key != key
    ensures Lookup(ms, key) == ms[n].value
  {
    if n > 0 {
      SkipMember(ms[1..], key, n - 1);
    }
  }

  /** Written out as data, a spec is accepted exactly when it names a path and a type all the way down. */
  lemma {:induction false} EncodedIsValid(spec: Spec)
    ensures ValidSpec(Encoded(spec)) <==> Declarable(spec)
    decreases spec
  {
    EncodedReads(spec);
    if spec.items.Each? {
      EncodedAllValid(spec.items.specs);
    }
  }

  lemma {:induction false} EncodedAllValid(specs: seq<Spec>)
    ensures (forall v | v in EncodedAll(specs) :: ValidSpec(v)) <==> forall s | s in specs :: Declarable(s)
    decreases specs
  {
    if specs != [] {
      EncodedIsValid(specs[0]);
      EncodedAllValid(specs[1..]);
      assert specs == [specs[0]] + specs[1..];
      assert EncodedAll(specs) == [Encoded(specs[0])] + EncodedAll(specs[1..]);
    }
  }

  /** A whole schema written out as data. */
  function EncodedSchema(specs: seq<Spec>): Value {
    Obj([Member(Ascii("kind"), Str(Ascii("declarative"))), Member(Ascii("fields"), Arr(EncodedAll(specs)))])
  }

  lemma EncodedSchemaReads(specs: seq<Spec>)
    ensures
      var schema := EncodedSchema(specs);
      Get(schema, Ascii("kind")) == Str(Ascii("declarative")) && Get(schema, Ascii("fields")) == Arr(EncodedAll(specs))
      && Ascii("validate") !in Registry.KeyNames(schema.members)
  {
    var ms := EncodedSchema(specs).members;
    AsciiApart("kind", "fields");
    SkipMember(ms, Ascii("kind"), 0);
    SkipMember(ms, Ascii("fields"), 1);
    AsciiApart("validate", "kind");
    AsciiApart("validate", "fields");
    var names := Registry.KeyNames(ms);
    if i :| 0 <= i < |names| && names[i] == Ascii("validate") {
      assert names[i] == ms[i].key;
    }
  }

  /** Written out, a schema is recognised as declarative exactly when all its fields can be declared. */
  lemma EncodedSchemaIsDeclarative(specs: seq<Spec>)
    ensures IsDeclarativeSchema(EncodedSchema(specs)) <==> forall s | s in specs :: Declarable(s)
  {
    EncodedSchemaReads(specs);
    EncodedAllValid(specs);
  }

  lemma DefaultSchemaIsDeclarative()
    ensures IsDeclarativeSchema(EncodedSchema(DEFAULT_RESULT_SCHEMA))
  {
    EncodedSchemaIsDeclarative(DEFAULT_RESULT_SCHEMA);
    forall s | s in DEFAULT_RESULT_SCHEMA ensures Declarable(s) {
    }
  }
}
