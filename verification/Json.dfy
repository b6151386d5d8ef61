/** Plain data as JavaScript sees it: text is a sequence of UTF-16 code units, object members keep insertion order. */
module Json {
  type Unit = u: int | 0 <= u < 0x10000

  type Text = seq<Unit>

  datatype Member = Member(key: Text, value: Value)

  datatype Value =
    | Undefined
    | Null
    | Bool(b: bool)
    | Int(i: int)
    | Str(text: Text)
    | Arr(items: seq<Value>)
    | Obj(members: seq<Member>)

  /** The code units of a literal made of ASCII characters. */
  function Ascii(s: string): (t: Text)
    ensures |t| == |s| && forall i | 0 <= i < |s| :: s[i] < 128 as char ==> t[i] == s[i] as int
  {
    seq(|s|, i requires 0 <= i < |s| => if s[i] < 128 as char then s[i] as int else 0)
  }

  lemma AsciiApart(a: string, b: string)
    requires |a| != |b| || (a != "" && a[0] != b[0] && a[0] < 128 as char && b[0] < 128 as char)
    ensures Ascii(a) != Ascii(b)
  {
    if |a| == |b| {
      assert Ascii(a)[0] == a[0] as int && Ascii(b)[0] == b[0] as int;
    }
  }

  predicate DistinctKeys(ms: seq<Member>) {
    forall i, j | 0 <= i < j < |ms| :: ms[i].key != ms[j].key
  }

  /** An object holds each key once, all the way down. */
  predicate WellFormed(v: Value) {
    match v
    case Arr(items) => forall x | x in items :: WellFormed(x)
    case Obj(members) => DistinctKeys(members) && forall m | m in members :: WellFormed(m.value)
    case _ => true
  }

  /** Reads a member; an absent one is undefined. */
  function Lookup(ms: seq<Member>, key: Text): (v: Value)
    ensures v != Undefined ==> Member(key, v) in ms
  {
    if ms == [] then Undefined else if ms[0].key == key then ms[0].value else Lookup(ms[1..], key)
  }

  function Get(v: Value, key: Text): Value {
    if v.Obj? then Lookup(v.members, key) else Undefined
  }

  // ----- Meaning -----------------------------------------------------------------

  /** What a value says once key order and undefined members are forgotten. */
  datatype Meaning =
    | MUndefined
    | MNull
    | MBool(b: bool)
    | MInt(i: int)
    | MStr(text: Text)
    | MArr(items: seq<Meaning>)
    | MObj(members: map<Text, Meaning>)

  function Mean(v: Value): Meaning
    decreases v
  {
    match v
    case Undefined => MUndefined
    case Null => MNull
    case Bool(b) => MBool(b)
    case Int(i) => MInt(i)
    case Str(t) => MStr(t)
    case Arr(items) => MArr(seq(|items|, i requires 0 <= i < |items| => Mean(items[i])))
    case Obj(members) => MObj(MeanMembers(members))
  }

  function MeanMembers(ms: seq<Member>): map<Text, Meaning>
    decreases ms
  {
    if ms == [] then map[]
    else if ms[0].value.Undefined? then MeanMembers(ms[1..])
    else MeanMembers(ms[1..])[ms[0].key := Mean(ms[0].value)]
  }
}
