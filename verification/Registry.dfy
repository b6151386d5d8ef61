/** A report of how two descriptors differ, path by path. */
module Registry {
  import opened Json
  import opened CanonicalJson
  import opened Sequences

  // ----- Size of a value, for walks over members -------------------------------------

  function Size(v: Value): nat
    decreases v
  {
    match v
    case Obj(members) => 1 + SizeMembers(members)
    case _ => 0
  }

  function SizeMembers(ms: seq<Member>): nat
    decreases ms
  {
    if ms == [] then 0 else Size(ms[0].value) + SizeMembers(ms[1..])
  }

  lemma {:induction false} LookupSmaller(ms: seq<Member>, key: Text)
    ensures Size(Lookup(ms, key)) <= SizeMembers(ms)
  {
    if ms != [] && ms[0].key != key {
      LookupSmaller(ms[1..], key);
    }
  }

  lemma GetWellFormed(v: Value, key: Text)
    requires WellFormed(v)
    ensures WellFormed(Get(v, key))
  {
  }

  // ----- The keys of two objects, in order ---------------------------------------------

  function KeyNames(ms: seq<Member>): (r: seq<Text>)
    ensures |r| == |ms| && forall i | 0 <= i < |ms| :: r[i] == ms[i].key
  {
    seq(|ms|, i requires 0 <= i < |ms| => ms[i].key)
  }

  function AddKey(key: Text, keys: seq<Text>): (r: seq<Text>)
    ensures forall k :: k in r <==> k == key || k in keys
  {
    if keys == [] then [key]
    else if keys[0] == key then keys
    else if Less(keys[0], key) then [keys[0]] + AddKey(key, keys[1..])
    else [key] + keys
  }

  function KeySet(keys: seq<Text>): (r: seq<Text>)
    ensures forall k :: k in r <==> k in keys
  {
    if keys == [] then [] else AddKey(keys[0], KeySet(keys[1..]))
  }

  function Keys(x: Value, y: Value): (r: seq<Text>)
    requires x.Obj? && y.Obj?
    ensures forall k :: k in r <==> k in KeyNames(x.members) || k in KeyNames(y.members)
  {
    KeySet(KeyNames(x.members) + KeyNames(y.members))
  }

  predicate Ascending(keys: seq<Text>) {
    keys == [] || ((forall k | k in keys[1..] :: Less(keys[0], k)) && Ascending(keys[1..]))
  }

  lemma {:induction false} AddKeyAscending(key: Text, keys: seq<Text>)
    requires Ascending(keys)
    ensures Ascending(AddKey(key, keys))
  {
    if keys != [] && keys[0] != key {
      if Less(keys[0], key) {
        AddKeyAscending(key, keys[1..]);
        assert AddKey(key, keys)[1..] == AddKey(key, keys[1..]);
      } else {
        LessTotal(key, keys[0]);
        forall k | k in keys ensures Less(key, k) {
          if k != keys[0] {
            LessTransitive(key, keys[0], k);
          }
        }
        assert AddKey(key, keys)[1..] == keys;
      }
    }
  }

  /** The keys are visited in code-unit order, each once. */
  lemma {:induction false} KeySetAscending(keys: seq<Text>)
    ensures Ascending(KeySet(keys))
  {
    if keys != [] {
      KeySetAscending(keys[1..]);
      AddKeyAscending(keys[0], KeySet(keys[1..]));
    }
  }

  // ----- Differences ---------------------------------------------------------------------

  function Join(path: Text, key: Text): Text {
    if path == [] then key else path + [46] + key
  }

  function Shown(path: Text): Text {
    if path == [] then Ascii("<root>") else path
  }

  function Differences(x: Value, y: Value, path: Text): seq<Text>
    decreases Size(x)
  {
    if Print(x) == Print(y) then []
    else if x.Obj? && y.Obj? then DifferencesOver(x, y, Keys(x, y), path)
    else [Shown(path)]
  }

  function DifferencesOver(x: Value, y: Value, keys: seq<Text>, path: Text): seq<Text>
    requires x.Obj? && y.Obj?
    decreases Size(x), |keys|
  {
    if keys == [] then []
    else
      LookupSmaller(x.members, keys[0]);
      Differences(Get(x, keys[0]), Get(y, keys[0]), Join(path, keys[0])) + DifferencesOver(x, y, keys[1..], path)
  }

  /** Following `trail` reaches two values that print differently and are not both objects. */
  predicate DiffersAt(x: Value, y: Value, trail: seq<Text>)
    decreases |trail|
  {
    if trail == [] then Print(x) != Print(y) && !(x.Obj? && y.Obj?)
    else x.Obj? && y.Obj? && DiffersAt(Get(x, trail[0]), Get(y, trail[0]), trail[1..])
  }

  function Extend(path: Text, trail: seq<Text>): Text
    decreases |trail|
  {
    if trail == [] then path else Extend(Join(path, trail[0]), trail[1..])
  }

  lemma {:induction false} LookupAbsent(ms: seq<Member>, key: Text)
    requires key !in KeyNames(ms)
    ensures Lookup(ms, key) == Undefined
  {
    if ms != [] {
      assert ms[0].key == KeyNames(ms)[0];
      assert KeyNames(ms[1..]) == KeyNames(ms)[1..];
      LookupAbsent(ms[1..], key);
    }
  }

  lemma {:induction false} LookupPresent(ms: seq<Member>, m: Member)
    requires DistinctKeys(ms) && m in ms
    ensures Lookup(ms, m.key) == m.value
  {
    if m != ms[0] {
      LookupPresent(ms[1..], m);
    }
  }

  /** Objects mean the same exactly when they mean the same at every key. */
  lemma ObjectsMeanPointwise(x: Value, y: Value)
    requires x.Obj? && y.Obj? && WellFormed(x) && WellFormed(y)
    requires forall key | key in Keys(x, y) :: Mean(Get(x, key)) == Mean(Get(y, key))
    ensures Mean(x) == Mean(y)
  {
    MembersMeanBelow(x, y);
    MembersMeanBelow(y, x);
  }

  lemma MembersMeanBelow(x: Value, y: Value)
    requires x.Obj? && y.Obj? && WellFormed(x) && WellFormed(y)
    requires forall key | key in KeyNames(x.members) :: Mean(Get(x, key)) == Mean(Get(y, key))
    ensures forall key | key in MeanMembers(x.members) ::
      key in MeanMembers(y.members) && MeanMembers(y.members)[key] == MeanMembers(x.members)[key]
  {
    forall key | key in MeanMembers(x.members)
      ensures key in MeanMembers(y.members) && MeanMembers(y.members)[key] == MeanMembers(x.members)[key]
    {
      MemberMeansBelow(x, y, key);
    }
  }

  lemma MemberMeansBelow(x: Value, y: Value, key: Text)
    requires x.Obj? && y.Obj? && WellFormed(x) && WellFormed(y) && key in MeanMembers(x.members)
    requires forall key | key in KeyNames(x.members) :: Mean(Get(x, key)) == Mean(Get(y, key))
    ensures key in MeanMembers(y.members) && MeanMembers(y.members)[key] == MeanMembers(x.members)[key]
  {
    var m := DefinedMember(x, key);
    MeanMembersHas(x.members, m);
    assert Mean(Get(y, key)) == Mean(m.value);
    MeanMembersHas(y.members, Member(key, Get(y, key)));
  }

  lemma DefinedMember(x: Value, key: Text) returns (m: Member)
    requires x.Obj? && WellFormed(x) && key in MeanMembers(x.members)
    ensures m in x.members && m.key == key && !m.value.Undefined? && Get(x, key) == m.value
    ensures key in KeyNames(x.members)
  {
    MeanMembersOnly(x.members, key);
    m :| m in x.members && m.key == key && !m.value.Undefined?;
    var i :| 0 <= i < |x.members| && x.members[i] == m;
    assert KeyNames(x.members)[i] == key;
    LookupPresent(x.members, m);
  }

  /** A difference below one of the visited keys is a difference below one particular key. */
  lemma {:induction false} DifferencesOverIn(x: Value, y: Value, keys: seq<Text>, path: Text, p: Text)
    requires x.Obj? && y.Obj?
    ensures p in DifferencesOver(x, y, keys, path)
      <==> exists key :: key in keys && p in Differences(Get(x, key), Get(y, key), Join(path, key))
  {
    if keys != [] {
      DifferencesOverIn(x, y, keys[1..], path, p);
      assert keys == [keys[0]] + keys[1..];
    }
  }

  /** A trail below a member is a trail below the object. */
  lemma TrailThrough(x: Value, y: Value, path: Text, key: Text, rest: seq<Text>)
    requires x.Obj? && y.Obj? && DiffersAt(Get(x, key), Get(y, key), rest)
    ensures DiffersAt(x, y, [key] + rest) && Extend(path, [key] + rest) == Extend(Join(path, key), rest)
  {
    assert ([key] + rest)[1..] == rest;
  }

  /** Where a reported difference between two objects comes from. */
  lemma ReportedBelow(x: Value, y: Value, path: Text, p: Text) returns (key: Text)
    requires x.Obj? && y.Obj? && p in Differences(x, y, path)
    ensures p in Differences(Get(x, key), Get(y, key), Join(path, key))
  {
    DifferencesOverIn(x, y, Keys(x, y), path, p);
    key :| key in Keys(x, y) && p in Differences(Get(x, key), Get(y, key), Join(path, key));
  }

  lemma {:induction false} ReportedIsReal(x: Value, y: Value, path: Text, p: Text) returns (trail: seq<Text>)
    requires p in Differences(x, y, path)
    ensures DiffersAt(x, y, trail) && p == Shown(Extend(path, trail))
    decreases Size(x)
  {
    if x.Obj? && y.Obj? {
      var key := ReportedBelow(x, y, path, p);
      LookupSmaller(x.members, key);
      var rest := ReportedIsReal(Get(x, key), Get(y, key), Join(path, key), p);
      TrailThrough(x, y, path, key, rest);
      trail := [key] + rest;
    } else {
      trail := [];
    }
  }

  lemma {:induction false} PrintsDiffer(x: Value, y: Value, trail: seq<Text>)
    requires WellFormed(x) && WellFormed(y) && DiffersAt(x, y, trail)
    ensures Print(x) != Print(y)
    decreases |trail|
  {
    if trail != [] {
      var key := trail[0];
      GetWellFormed(x, key);
      GetWellFormed(y, key);
      PrintsDiffer(Get(x, key), Get(y, key), trail[1..]);
      CanonicalText(Get(x, key), Get(y, key));
      CanonicalText(x, y);
      if Mean(x) == Mean(y) {
        SameMeaningSameMember(x, y, key);
      }
    }
  }

  lemma SameMeaningSameMember(x: Value, y: Value, key: Text)
    requires WellFormed(x) && WellFormed(y) && Mean(x) == Mean(y)
    ensures Mean(Get(x, key)) == Mean(Get(y, key))
  {
    if x.Obj? {
      MemberMeaning(x.members, key);
      MemberMeaning(y.members, key);
    }
  }

  lemma MeanMembersNamed(ms: seq<Member>)
    ensures forall key | key in MeanMembers(ms) :: key in KeyNames(ms)
  {
    forall key | key in MeanMembers(ms) ensures key in KeyNames(ms) {
      MeanMembersOnly(ms, key);
      var m :| m in ms && m.key == key;
      var i :| 0 <= i < |ms| && ms[i] == m;
      assert KeyNames(ms)[i] == key;
    }
  }

  lemma {:induction false} MemberMeaning(ms: seq<Member>, key: Text)
    requires DistinctKeys(ms)
    ensures Mean(Lookup(ms, key)) == if key in MeanMembers(ms) then MeanMembers(ms)[key] else MUndefined
  {
    if key in KeyNames(ms) {
      var i :| 0 <= i < |ms| && KeyNames(ms)[i] == key;
      LookupPresent(ms, ms[i]);
      if ms[i].value.Undefined? {
        if key in MeanMembers(ms) {
          MeanMembersOnly(ms, key);
        }
      } else {
        MeanMembersHas(ms, ms[i]);
      }
    } else {
      LookupAbsent(ms, key);
      MeanMembersNamed(ms);
    }
  }

  lemma {:induction false} RealIsReported(x: Value, y: Value, path: Text, trail: seq<Text>)
    requires WellFormed(x) && WellFormed(y) && DiffersAt(x, y, trail)
    ensures Shown(Extend(path, trail)) in Differences(x, y, path)
    decreases |trail|
  {
    PrintsDiffer(x, y, trail);
    if trail != [] {
      var key := trail[0];
      var p := Shown(Extend(path, trail));
      GetWellFormed(x, key);
      GetWellFormed(y, key);
      RealIsReported(Get(x, key), Get(y, key), Join(path, key), trail[1..]);
      PrintsDiffer(Get(x, key), Get(y, key), trail[1..]);
      if key !in Keys(x, y) {
        LookupAbsent(x.members, key);
        LookupAbsent(y.members, key);
      }
      DifferencesOverIn(x, y, Keys(x, y), path, p);
    }
  }

  lemma DifferingKey(x: Value, y: Value) returns (key: Text)
    requires WellFormed(x) && WellFormed(y) && x.Obj? && y.Obj? && Print(x) != Print(y)
    ensures Print(Get(x, key)) != Print(Get(y, key))
  {
    CanonicalText(x, y);
    if forall k | k in Keys(x, y) :: Mean(Get(x, k)) == Mean(Get(y, k)) {
      ObjectsMeanPointwise(x, y);
    }
    key :| key in Keys(x, y) && Mean(Get(x, key)) != Mean(Get(y, key));
    GetWellFormed(x, key);
    GetWellFormed(y, key);
    CanonicalText(Get(x, key), Get(y, key));
  }

  lemma {:induction false} DifferenceExists(x: Value, y: Value)
    returns (trail: seq<Text>)
    requires WellFormed(x) && WellFormed(y) && Print(x) != Print(y)
    ensures DiffersAt(x, y, trail)
    decreases Size(x)
  {
    trail := [];
    if x.Obj? && y.Obj? {
      var key := DifferingKey(x, y);
      GetWellFormed(x, key);
      GetWellFormed(y, key);
      LookupSmaller(x.members, key);
      var rest := DifferenceExists(Get(x, key), Get(y, key));
      trail := [key] + rest;
      assert trail[1..] == rest;
    }
  }

  /** `p` names a place where two leaves differ. */
  ghost predicate Reports(x: Value, y: Value, path: Text, p: Text) {
    exists trail :: DiffersAt(x, y, trail) && p == Shown(Extend(path, trail))
  }

  /** The report lists exactly the places where two leaves differ, and is empty iff the values mean the same. */
  lemma DifferencesExact(x: Value, y: Value, path: Text)
    requires WellFormed(x) && WellFormed(y)
    ensures forall p :: p in Differences(x, y, path) <==> Reports(x, y, path, p)
    ensures Differences(x, y, path) == [] <==> Mean(x) == Mean(y)
  {
    forall p ensures p in Differences(x, y, path) <==> Reports(x, y, path, p) {
      if p in Differences(x, y, path) {
        var trail := ReportedIsReal(x, y, path, p);
      }
      if Reports(x, y, path, p) {
        var trail :| DiffersAt(x, y, trail) && p == Shown(Extend(path, trail));
        RealIsReported(x, y, path, trail);
      }
    }
    CanonicalText(x, y);
    if Print(x) != Print(y) {
      var trail := DifferenceExists(x, y);
      RealIsReported(x, y, path, trail);
    }
  }

  lemma OneKeyDone(x: Value, y: Value, keys: seq<Text>, i: nat, path: Text, diffs: seq<Text>, total: seq<Text>)
    requires x.Obj? && y.Obj? && i < |keys| && diffs + DifferencesOver(x, y, keys[i..], path) == total
    ensures diffs + Differences(Get(x, keys[i]), Get(y, keys[i]), Join(path, keys[i]))
            + DifferencesOver(x, y, keys[i + 1..], path) == total
  {
    var first := Differences(Get(x, keys[i]), Get(y, keys[i]), Join(path, keys[i]));
    assert keys[i..][1..] == keys[i + 1..];
    assert DifferencesOver(x, y, keys[i..], path) == first + DifferencesOver(x, y, keys[i + 1..], path);
    Regroup(diffs, first, DifferencesOver(x, y, keys[i + 1..], path));
  }

  lemma GetSmaller(x: Value, key: Text)
    requires x.Obj?
    ensures Size(Get(x, key)) < Size(x)
  {
    LookupSmaller(x.members, key);
  }

  /** The recursive walk, pushing onto the list it is given. */
  method Walk(x: Value, y: Value, path: Text, before: seq<Text>) returns (diffs: seq<Text>)
    ensures diffs == before + Differences(x, y, path)
    decreases Size(x)
  {
    if Print(x) == Print(y) {
      diffs := before;
    } else if x.Obj? && y.Obj? {
      diffs := WalkKeys(x, y, Keys(x, y), path, before);
    } else {
      diffs := before + [Shown(path)];
    }
  }

  method WalkKeys(x: Value, y: Value, keys: seq<Text>, path: Text, before: seq<Text>) returns (diffs: seq<Text>)
    requires x.Obj? && y.Obj?
    ensures diffs == before + DifferencesOver(x, y, keys, path)
    decreases Size(x), 0
  {
    diffs := before;
    ghost var total := before + DifferencesOver(x, y, keys, path);
    for i := 0 to |keys|
      invariant diffs + DifferencesOver(x, y, keys[i..], path) == total
    {
      GetSmaller(x, keys[i]);
      OneKeyDone(x, y, keys, i, path, diffs, total);
      diffs := Walk(Get(x, keys[i]), Get(y, keys[i]), Join(path, keys[i]), diffs);
    }
  }

  method DescribeDescriptorDifferences(a: Value, b: Value) returns (diffs: seq<Text>)
    requires WellFormed(a) && WellFormed(b)
    ensures diffs == [] <==> Mean(a) == Mean(b)
    ensures forall p :: p in diffs <==> Reports(a, b, [], p)
  {
    diffs := Walk(a, b, [], []);
    DifferencesExact(a, b, []);
  }
}
