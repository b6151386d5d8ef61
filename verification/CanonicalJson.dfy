/**
 * Canonical JSON text. Two values print alike exactly when they mean the same,
 * that is, when they differ at most in key order and in undefined members.
 */
module CanonicalJson {
  import opened Json

  const QUOTE: Unit := 34
  const BACKSLASH: Unit := 92
  const COMMA: Unit := 44
  const COLON: Unit := 58

  // ----- Strings -----------------------------------------------------------------

  predicate IsHigh(u: Unit) { 0xD800 <= u < 0xDC00 }

  predicate IsLow(u: Unit) { 0xDC00 <= u < 0xE000 }

  function HexDigit(n: nat): (u: Unit)
    requires n < 16
  {
    if n < 10 then 48 + n else 87 + n
  }

  function Hex4(u: Unit): Text {
    [HexDigit(u / 4096), HexDigit(u / 256 % 16), HexDigit(u / 16 % 16), HexDigit(u % 16)]
  }

  /** One code unit that is not half of a surrogate pair. */
  function EscapeUnit(u: Unit): (t: Text) {
    if u == 8 then [BACKSLASH, 98]
    else if u == 9 then [BACKSLASH, 116]
    else if u == 10 then [BACKSLASH, 110]
    else if u == 12 then [BACKSLASH, 102]
    else if u == 13 then [BACKSLASH, 114]
    else if u == QUOTE || u == BACKSLASH then [BACKSLASH, u]
    else if u < 32 || IsHigh(u) || IsLow(u) then [BACKSLASH, 117] + Hex4(u)
    else [u]
  }

  predicate StartsPair(t: Text) {
    |t| >= 2 && IsHigh(t[0]) && IsLow(t[1])
  }

  function Escape(t: Text): Text {
    if t == [] then []
    else if StartsPair(t) then t[..2] + Escape(t[2..])
    else EscapeUnit(t[0]) + Escape(t[1..])
  }

  function Quoted(t: Text): Text {
    [QUOTE] + Escape(t) + [QUOTE]
  }

  // ----- Numbers -----------------------------------------------------------------

  function Digits(n: nat): (t: Text)
    ensures t != []
  {
    if n < 10 then [48 + n] else Digits(n / 10) + [48 + n % 10]
  }

  function Decimal(i: int): Text {
    if i < 0 then [45] + Digits(-i) else Digits(i)
  }

  // ----- Keys in order -----------------------------------------------------------

  /** The order JavaScript's `<` gives two strings: by code units. */
  predicate Less(a: Text, b: Text) {
    b != [] && (a == [] || a[0] < b[0] || (a[0] == b[0] && Less(a[1..], b[1..])))
  }

  function Insert(m: Member, ms: seq<Member>): (r: seq<Member>)
    ensures multiset(r) == multiset(ms) + multiset{m}
  {
    if ms == [] then [m]
    else if Less(ms[0].key, m.key) then
      assert ms == [ms[0]] + ms[1..];
      [ms[0]] + Insert(m, ms[1..])
    else [m] + ms
  }

  function SortMembers(ms: seq<Member>): (r: seq<Member>)
    ensures multiset(r) == multiset(ms)
  {
    if ms == [] then []
    else
      assert ms == [ms[0]] + ms[1..];
      Insert(ms[0], SortMembers(ms[1..]))
  }

  function Defined(ms: seq<Member>): (r: seq<Member>)
    ensures forall m :: m in r <==> m in ms && !m.value.Undefined?
  {
    if ms == [] then []
    else if ms[0].value.Undefined? then Defined(ms[1..])
    else [ms[0]] + Defined(ms[1..])
  }

  function Ordered(ms: seq<Member>): (r: seq<Member>)
    ensures forall m :: m in r <==> m in ms && !m.value.Undefined?
  {
    var r := SortMembers(Defined(ms));
    assert forall m :: m in r <==> m in multiset(r);
    r
  }

  // ----- Printing ----------------------------------------------------------------

  function Print(v: Value): Text
    decreases v
  {
    match v
    case Undefined => [117, 110, 100, 101, 102, 105, 110, 101, 100]
    case Null => [110, 117, 108, 108]
    case Bool(b) => if b then [116, 114, 117, 101] else [102, 97, 108, 115, 101]
    case Int(i) => Decimal(i)
    case Str(t) => Quoted(t)
    case Arr(items) => [91] + PrintItems(v, items) + [93]
    case Obj(members) => [123] + PrintMembers(v, Ordered(members)) + [125]
  }

  function PrintItems(whole: Value, items: seq<Value>): Text
    requires forall i | 0 <= i < |items| :: items[i] < whole
    decreases whole, |items|
  {
    if items == [] then []
    else Print(items[0]) + (if |items| == 1 then [] else [COMMA] + PrintItems(whole, items[1..]))
  }

  function PrintMembers(whole: Value, ms: seq<Member>): Text
    requires forall m | m in ms :: m.value < whole
    decreases whole, |ms|
  {
    if ms == [] then []
    else Quoted(ms[0].key) + [COLON] + Print(ms[0].value)
         + (if |ms| == 1 then [] else [COMMA] + PrintMembers(whole, ms[1..]))
  }

  // ----- Unique decodability of the parts ------------------------------------------

  /** Four base-sixteen digits determine the number. */
  lemma Base16(u: nat)
    requires u < 65536
    ensures u == 4096 * (u / 4096) + 256 * (u / 256 % 16) + 16 * (u / 16 % 16) + u % 16
  {
    var p, q := u / 16, u / 256;
    assert p / 16 == q && q / 16 == u / 4096;
  }

  lemma Hex4Injective(u: Unit, w: Unit)
    requires Hex4(u) == Hex4(w)
    ensures u == w
  {
    Base16(u);
    Base16(w);
    var a, b := Hex4(u), Hex4(w);
    assert a[0] == b[0] && a[1] == b[1] && a[2] == b[2] && a[3] == b[3];
  }

  /** The escape of one unit can be read off the front of any text. */
  lemma EscapeUnitPrefixFree(u: Unit, x: Text, w: Unit, y: Text)
    requires EscapeUnit(u) + x == EscapeUnit(w) + y
    ensures u == w && x == y
  {
    var a, b := EscapeUnit(u), EscapeUnit(w);
    assert (a + x)[0] == (b + y)[0];
    if |a| > 1 {
      assert (a + x)[1] == (b + y)[1];
      if |a| == 6 {
        assert |b| == 6;
        assert (a + x)[..6] == a && (b + y)[..6] == b;
        assert a[2..] == Hex4(u) && b[2..] == Hex4(w);
        Hex4Injective(u, w);
      }
    }
    assert a == b;
    assert x == (a + x)[|a|..] && y == (b + y)[|b|..];
  }

  function Tail(t: Text, rest: Text): Text {
    Escape(t) + [QUOTE] + rest
  }

  /** How the text of an escaped string starts, unit by unit. */
  lemma TailStart(t: Text, rest: Text)
    requires t != []
    ensures StartsPair(t) ==> Tail(t, rest) == t[..2] + Tail(t[2..], rest)
    ensures !StartsPair(t) ==> Tail(t, rest) == EscapeUnit(t[0]) + Tail(t[1..], rest)
  {
    if StartsPair(t) {
      assert t[..2] + Escape(t[2..]) + [QUOTE] + rest == t[..2] + (Escape(t[2..]) + [QUOTE] + rest);
    } else {
      assert EscapeUnit(t[0]) + Escape(t[1..]) + [QUOTE] + rest == EscapeUnit(t[0]) + (Escape(t[1..]) + [QUOTE] + rest);
    }
  }

  lemma TailHead(t: Text, rest: Text)
    ensures Tail(t, rest) != []
    ensures t == [] <==> Tail(t, rest)[0] == QUOTE
    ensures t != [] ==> (StartsPair(t) <==> IsHigh(Tail(t, rest)[0]))
  {
    if t != [] {
      TailStart(t, rest);
      if !StartsPair(t) {
        assert Tail(t, rest)[0] == EscapeUnit(t[0])[0];
      }
    }
  }

  /** A quoted string can be read off the front of any text. */
  lemma {:induction false} EscapePrefixFree(s: Text, x: Text, t: Text, y: Text)
    requires Tail(s, x) == Tail(t, y)
    ensures s == t && x == y
    decreases |s|
  {
    TailHead(s, x);
    TailHead(t, y);
    if s == [] {
      assert Tail(s, x)[1..] == x && Tail(t, y)[1..] == y;
    } else {
      TailStart(s, x);
      TailStart(t, y);
      if StartsPair(s) {
        assert Tail(s, x)[..2] == s[..2] && Tail(t, y)[..2] == t[..2];
        assert Tail(s, x)[2..] == Tail(s[2..], x) && Tail(t, y)[2..] == Tail(t[2..], y);
        EscapePrefixFree(s[2..], x, t[2..], y);
        assert s == s[..2] + s[2..] && t == t[..2] + t[2..];
      } else {
        EscapeUnitPrefixFree(s[0], Tail(s[1..], x), t[0], Tail(t[1..], y));
        EscapePrefixFree(s[1..], x, t[1..], y);
        assert s == [s[0]] + s[1..] && t == [t[0]] + t[1..];
      }
    }
  }

  lemma QuotedPrefixFree(s: Text, x: Text, t: Text, y: Text)
    requires Quoted(s) + x == Quoted(t) + y
    ensures s == t && x == y
  {
    var a, b := Quoted(s) + x, Quoted(t) + y;
    assert a[1..] == Tail(s, x) && b[1..] == Tail(t, y);
    EscapePrefixFree(s, x, t, y);
  }

  predicate AllDigits(t: Text) {
    forall i | 0 <= i < |t| :: 48 <= t[i] <= 57
  }

  /** What may follow a printed value: nothing, a comma, or a closing bracket. */
  predicate Stops(t: Text) {
    t == [] || t[0] == COMMA || t[0] == 93 || t[0] == 125
  }

  lemma DigitsAreDigits(n: nat)
    ensures AllDigits(Digits(n))
  {
  }

  predicate IsDigit(u: Unit) { 48 <= u <= 57 }

  lemma RunStops(a: Text, x: Text)
    requires Stops(x) && x != []
    ensures !IsDigit((a + x)[|a|])
  {
  }

  lemma DigitRunAtLeast(a: Text, x: Text, b: Text, y: Text)
    requires AllDigits(b) && Stops(x) && a + x == b + y
    ensures |a| >= |b|
  {
    assert |a| + |x| == |b| + |y|;
    if x != [] {
      RunStops(a, x);
      assert forall i | 0 <= i < |b| :: IsDigit((b + y)[i]);
    }
  }

  /** Two runs of digits that both end where the text stops being digits are the same run. */
  lemma DigitRunUnique(a: Text, x: Text, b: Text, y: Text)
    requires AllDigits(a) && AllDigits(b) && Stops(x) && Stops(y) && a + x == b + y
    ensures a == b && x == y
  {
    DigitRunAtLeast(a, x, b, y);
    DigitRunAtLeast(b, y, a, x);
    assert (a + x)[..|a|] == a && (b + y)[..|b|] == b;
    assert (a + x)[|a|..] == x && (b + y)[|b|..] == y;
  }

  lemma {:induction false} DigitsInjective(m: nat, n: nat)
    requires Digits(m) == Digits(n)
    ensures m == n
    decreases m
  {
    var a, b := Digits(m), Digits(n);
    assert a[|a| - 1] == b[|b| - 1];
    if m >= 10 && n >= 10 {
      assert a[..|a| - 1] == Digits(m / 10) && b[..|b| - 1] == Digits(n / 10);
      DigitsInjective(m / 10, n / 10);
    }
  }

  lemma DigitsPrefixFree(m: nat, x: Text, n: nat, y: Text)
    requires Stops(x) && Stops(y) && Digits(m) + x == Digits(n) + y
    ensures m == n && x == y
  {
    DigitsAreDigits(m);
    DigitsAreDigits(n);
    DigitRunUnique(Digits(m), x, Digits(n), y);
    DigitsInjective(m, n);
  }

  lemma DecimalHead(i: int)
    ensures Decimal(i) != []
    ensures i < 0 ==> Decimal(i)[0] == 45
    ensures i >= 0 ==> 48 <= Decimal(i)[0] <= 57
  {
    if i >= 0 {
      DigitsAreDigits(i);
    }
  }

  lemma Peel(h: Text, a: Text, x: Text, b: Text, y: Text)
    requires h + a + x == h + b + y
    ensures a + x == b + y
  {
    assert a + x == (h + a + x)[|h|..] && b + y == (h + b + y)[|h|..];
  }

  lemma DecimalPrefixFree(i: int, x: Text, j: int, y: Text)
    requires Stops(x) && Stops(y) && Decimal(i) + x == Decimal(j) + y
    ensures i == j && x == y
  {
    DecimalHead(i);
    DecimalHead(j);
    var a, b := Decimal(i), Decimal(j);
    assert (a + x)[0] == a[0] && (b + y)[0] == b[0];
    assert i < 0 <==> j < 0;
    if i < 0 {
      Peel([45], Digits(-i), x, Digits(-j), y);
      DigitsPrefixFree(-i, x, -j, y);
    } else {
      DigitsPrefixFree(i, x, j, y);
    }
  }

  // ----- Printed text determines meaning --------------------------------------------

  /** The kind of value a first code unit announces. */
  function Kind(u: Unit): nat {
    if u == 117 then 0 else if u == 110 then 1 else if u == 116 then 2 else if u == 102 then 3
    else if u == 45 || IsDigit(u) then 4 else if u == QUOTE then 5 else if u == 91 then 6
    else if u == 123 then 7 else 8
  }

  function KindOf(v: Value): nat {
    match v
    case Undefined => 0
    case Null => 1
    case Bool(b) => if b then 2 else 3
    case Int(_) => 4
    case Str(_) => 5
    case Arr(_) => 6
    case Obj(_) => 7
  }

  lemma PrintHead(v: Value)
    ensures Print(v) != [] && Kind(Print(v)[0]) == KindOf(v)
  {
    match v
    case Int(i) => DecimalHead(i);
    case Str(t) => assert Print(v)[0] == QUOTE;
    case Arr(items) => assert Print(v)[0] == 91;
    case Obj(members) => assert Print(v)[0] == 123;
    case _ =>
  }

  lemma SameKind(a: Value, x: Text, b: Value, y: Text)
    requires Print(a) + x == Print(b) + y
    ensures KindOf(a) == KindOf(b)
  {
    PrintHead(a);
    PrintHead(b);
    assert (Print(a) + x)[0] == Print(a)[0] && (Print(b) + y)[0] == Print(b)[0];
  }

  /** What follows the first element of a list: the end, or a comma and the others. */
  function Rest(more: bool, others: Text, close: Unit, x: Text): Text {
    (if more then [COMMA] + others else []) + [close] + x
  }

  lemma RestUnique(m: bool, o: Text, x: Text, n: bool, p: Text, y: Text, close: Unit)
    requires close != COMMA && Rest(m, o, close, x) == Rest(n, p, close, y)
    ensures m == n && (m ==> o + [close] + x == p + [close] + y) && (!m ==> x == y)
  {
    var a, b := Rest(m, o, close, x), Rest(n, p, close, y);
    assert a[0] == b[0];
    assert a[1..] == if m then o + [close] + x else x;
    assert b[1..] == if n then p + [close] + y else y;
  }

  lemma ItemsSplit(whole: Value, items: seq<Value>, x: Text)
    requires forall i | 0 <= i < |items| :: items[i] < whole
    requires items != []
    ensures PrintItems(whole, items) + [93] + x
         == Print(items[0]) + Rest(|items| > 1, PrintItems(whole, items[1..]), 93, x)
  {
  }

  lemma MembersSplit(whole: Value, ms: seq<Member>, x: Text)
    requires forall m | m in ms :: m.value < whole
    requires ms != []
    ensures PrintMembers(whole, ms) + [125] + x
         == Quoted(ms[0].key) + ([COLON] + (Print(ms[0].value) + Rest(|ms| > 1, PrintMembers(whole, ms[1..]), 125, x)))
  {
    var q, p := Quoted(ms[0].key), Print(ms[0].value);
    var others := if |ms| == 1 then [] else [COMMA] + PrintMembers(whole, ms[1..]);
    assert PrintMembers(whole, ms) == q + [COLON] + p + others;
    RegroupSix(q, [COLON], p, others, [125], x);
  }

  lemma RegroupSix(a: Text, b: Text, c: Text, d: Text, e: Text, f: Text)
    ensures a + b + c + d + e + f == a + (b + (c + (d + e + f)))
  {
  }

  predicate SameMeanings(a: seq<Value>, b: seq<Value>) {
    |a| == |b| && forall i | 0 <= i < |a| :: Mean(a[i]) == Mean(b[i])
  }

  predicate SameMembers(a: seq<Member>, b: seq<Member>) {
    |a| == |b| && forall i | 0 <= i < |a| :: a[i].key == b[i].key && Mean(a[i].value) == Mean(b[i].value)
  }

  predicate AllDefined(ms: seq<Member>) {
    forall m | m in ms :: !m.value.Undefined?
  }

  lemma {:induction false} SameMembersMean(a: seq<Member>, b: seq<Member>)
    requires SameMembers(a, b)
    ensures MeanMembers(a) == MeanMembers(b)
  {
    if a != [] {
      SameMembersMean(a[1..], b[1..]);
      assert Mean(a[0].value) == Mean(b[0].value);
      assert a[0].value.Undefined? <==> Mean(a[0].value).MUndefined?;
      assert b[0].value.Undefined? <==> Mean(b[0].value).MUndefined?;
    }
  }

  /** A printed value followed by a stop can be read in one way only, up to meaning. */
  lemma {:induction false} PrintPrefixFree(a: Value, x: Text, b: Value, y: Text)
    requires WellFormed(a) && WellFormed(b) && Stops(x) && Stops(y)
    requires Print(a) + x == Print(b) + y
    ensures Mean(a) == Mean(b) && x == y
    decreases a
  {
    SameKind(a, x, b, y);
    match a
    case Int(i) => DecimalPrefixFree(i, x, b.i, y);
    case Str(t) => QuotedPrefixFree(t, x, b.text, y);
    case Arr(_) => ArrPrefixFree(a, x, b, y);
    case Obj(_) => ObjPrefixFree(a, x, b, y);
    case _ =>
      assert Print(a) == Print(b);
      assert (Print(a) + x)[|Print(a)|..] == x && (Print(b) + y)[|Print(b)|..] == y;
  }

  lemma {:induction false} ArrPrefixFree(a: Value, x: Text, b: Value, y: Text)
    requires a.Arr? && b.Arr? && WellFormed(a) && WellFormed(b) && Print(a) + x == Print(b) + y
    ensures Mean(a) == Mean(b) && x == y
    decreases a, |a.items| + 1
  {
    var p, q := PrintItems(a, a.items) + [93], PrintItems(b, b.items) + [93];
    assert Print(a) == [91] + p && Print(b) == [91] + q;
    Peel([91], p, x, q, y);
    ItemsPrefixFree(a, a.items, x, b, b.items, y);
    assert Mean(a).items == Mean(b).items;
  }

  lemma MembersInside(v: Value)
    requires v.Obj? && WellFormed(v)
    ensures forall m | m in Ordered(v.members) :: m.value < v && WellFormed(m.value)
    ensures Print(v) == [123] + (PrintMembers(v, Ordered(v.members)) + [125])
  {
  }

  lemma {:induction false} ObjPrefixFree(a: Value, x: Text, b: Value, y: Text)
    requires a.Obj? && b.Obj? && WellFormed(a) && WellFormed(b) && Print(a) + x == Print(b) + y
    ensures Mean(a) == Mean(b) && x == y
    decreases a, |Ordered(a.members)| + 1
  {
    var ms, ns := Ordered(a.members), Ordered(b.members);
    MembersInside(a);
    MembersInside(b);
    Peel([123], PrintMembers(a, ms) + [125], x, PrintMembers(b, ns) + [125], y);
    MembersPrefixFree(a, ms, x, b, ns, y);
    SameMembersMean(ms, ns);
    OrderedMean(a.members);
    OrderedMean(b.members);
  }

  lemma {:induction false} ItemsPrefixFree(
    wa: Value, a: seq<Value>, x: Text, wb: Value, b: seq<Value>, y: Text)
    requires forall i | 0 <= i < |a| :: a[i] < wa
    requires forall i | 0 <= i < |b| :: b[i] < wb
    requires forall v | v in a :: WellFormed(v)
    requires forall v | v in b :: WellFormed(v)
    requires PrintItems(wa, a) + [93] + x == PrintItems(wb, b) + [93] + y
    ensures SameMeanings(a, b) && x == y
    decreases wa, |a|
  {
    ListHeads(wa, a, x);
    ListHeads(wb, b, y);
    if a == [] {
      assert (PrintItems(wa, a) + [93] + x)[1..] == x && (PrintItems(wb, b) + [93] + y)[1..] == y;
    } else {
      ItemsSplit(wa, a, x);
      ItemsSplit(wb, b, y);
      var oa, ob := PrintItems(wa, a[1..]), PrintItems(wb, b[1..]);
      PrintPrefixFree(a[0], Rest(|a| > 1, oa, 93, x), b[0], Rest(|b| > 1, ob, 93, y));
      RestUnique(|a| > 1, oa, x, |b| > 1, ob, y, 93);
      if |a| > 1 {
        ItemsPrefixFree(wa, a[1..], x, wb, b[1..], y);
      }
    }
  }

  lemma ListHeads(w: Value, items: seq<Value>, x: Text)
    requires forall i | 0 <= i < |items| :: items[i] < w
    ensures items == [] <==> (PrintItems(w, items) + [93] + x)[0] == 93
  {
    if items != [] {
      PrintHead(items[0]);
      ItemsSplit(w, items, x);
    }
  }

  lemma MemberHeads(w: Value, ms: seq<Member>, x: Text)
    requires forall m | m in ms :: m.value < w
    ensures ms == [] <==> (PrintMembers(w, ms) + [125] + x)[0] == 125
  {
    if ms != [] {
      MembersSplit(w, ms, x);
    }
  }

  /** Two lists of members that print alike start with the same key. */
  lemma FirstKeyUnique(wa: Value, a: seq<Member>, x: Text, wb: Value, b: seq<Member>, y: Text)
    requires a != [] && b != []
    requires forall m | m in a :: m.value < wa
    requires forall m | m in b :: m.value < wb
    requires PrintMembers(wa, a) + [125] + x == PrintMembers(wb, b) + [125] + y
    ensures a[0].key == b[0].key
    ensures Print(a[0].value) + Rest(|a| > 1, PrintMembers(wa, a[1..]), 125, x)
         == Print(b[0].value) + Rest(|b| > 1, PrintMembers(wb, b[1..]), 125, y)
  {
    MembersSplit(wa, a, x);
    MembersSplit(wb, b, y);
    var ta := Print(a[0].value) + Rest(|a| > 1, PrintMembers(wa, a[1..]), 125, x);
    var tb := Print(b[0].value) + Rest(|b| > 1, PrintMembers(wb, b[1..]), 125, y);
    QuotedPrefixFree(a[0].key, [COLON] + ta, b[0].key, [COLON] + tb);
    assert ([COLON] + ta)[1..] == ta && ([COLON] + tb)[1..] == tb;
  }

  lemma BothEmpty(wa: Value, a: seq<Member>, x: Text, wb: Value, b: seq<Member>, y: Text)
    requires forall m | m in a :: m.value < wa
    requires forall m | m in b :: m.value < wb
    requires PrintMembers(wa, a) + [125] + x == PrintMembers(wb, b) + [125] + y
    ensures a == [] <==> b == []
    ensures a == [] ==> x == y
  {
    MemberHeads(wa, a, x);
    MemberHeads(wb, b, y);
    if a == [] {
      assert (PrintMembers(wa, a) + [125] + x)[1..] == x && (PrintMembers(wb, b) + [125] + y)[1..] == y;
    }
  }

  lemma {:induction false} MembersPrefixFree(
    wa: Value, a: seq<Member>, x: Text, wb: Value, b: seq<Member>, y: Text)
    requires forall m | m in a :: m.value < wa
    requires forall m | m in b :: m.value < wb
    requires forall m | m in a :: WellFormed(m.value)
    requires forall m | m in b :: WellFormed(m.value)
    requires PrintMembers(wa, a) + [125] + x == PrintMembers(wb, b) + [125] + y
    ensures SameMembers(a, b) && x == y
    decreases wa, |a|, 1
  {
    BothEmpty(wa, a, x, wb, b, y);
    if a != [] {
      FirstMemberUnique(wa, a, x, wb, b, y);
      if |a| > 1 {
        MembersPrefixFree(wa, a[1..], x, wb, b[1..], y);
      }
      SameMembersCons(a, b);
    }
  }

  lemma SameMembersCons(a: seq<Member>, b: seq<Member>)
    requires a != [] && b != [] && a[0].key == b[0].key && Mean(a[0].value) == Mean(b[0].value)
    requires SameMembers(a[1..], b[1..])
    ensures SameMembers(a, b)
  {
    forall i | 0 <= i < |a| ensures a[i].key == b[i].key && Mean(a[i].value) == Mean(b[i].value) {
      assert i > 0 ==> a[i] == a[1..][i - 1] && b[i] == b[1..][i - 1];
    }
  }

  /** Two lists of members that print alike start with the same key and meaning, and their rests print alike. */
  lemma {:induction false} FirstMemberUnique(
    wa: Value, a: seq<Member>, x: Text, wb: Value, b: seq<Member>, y: Text)
    requires a != [] && b != []
    requires forall m | m in a :: m.value < wa
    requires forall m | m in b :: m.value < wb
    requires WellFormed(a[0].value) && WellFormed(b[0].value)
    requires PrintMembers(wa, a) + [125] + x == PrintMembers(wb, b) + [125] + y
    ensures a[0].key == b[0].key && Mean(a[0].value) == Mean(b[0].value) && (|a| > 1 <==> |b| > 1)
    ensures if |a| > 1 then PrintMembers(wa, a[1..]) + [125] + x == PrintMembers(wb, b[1..]) + [125] + y else x == y
    decreases wa, |a|, 0
  {
    var oa, ob := PrintMembers(wa, a[1..]), PrintMembers(wb, b[1..]);
    FirstKeyUnique(wa, a, x, wb, b, y);
    PrintPrefixFree(a[0].value, Rest(|a| > 1, oa, 125, x), b[0].value, Rest(|b| > 1, ob, 125, y));
    RestUnique(|a| > 1, oa, x, |b| > 1, ob, y, 125);
  }

  // ----- The order of keys ------------------------------------------------------------

  lemma {:induction false} LessTotal(a: Text, b: Text)
    ensures a == b || Less(a, b) || Less(b, a)
  {
    if a != [] && b != [] && a[0] == b[0] {
      LessTotal(a[1..], b[1..]);
      assert a == [a[0]] + a[1..] && b == [b[0]] + b[1..];
    }
  }

  lemma {:induction false} LessTransitive(a: Text, b: Text, c: Text)
    requires Less(a, b) && Less(b, c)
    ensures Less(a, c)
  {
    if a != [] && a[0] == b[0] == c[0] {
      LessTransitive(a[1..], b[1..], c[1..]);
    }
  }

  lemma {:induction false} LessIrreflexive(a: Text)
    ensures !Less(a, a)
  {
    if a != [] {
      LessIrreflexive(a[1..]);
    }
  }

  predicate Below(key: Text, ms: seq<Member>) {
    forall m | m in ms :: Less(key, m.key)
  }

  predicate Sorted(ms: seq<Member>) {
    ms == [] || (Below(ms[0].key, ms[1..]) && Sorted(ms[1..]))
  }

  lemma {:induction false} InsertSorted(m: Member, ms: seq<Member>)
    requires Sorted(ms) && forall n | n in ms :: n.key != m.key
    ensures Sorted(Insert(m, ms))
  {
    if ms != [] {
      if Less(ms[0].key, m.key) {
        InsertSorted(m, ms[1..]);
        var r := Insert(m, ms[1..]);
        forall n | n in r ensures Less(ms[0].key, n.key) {
          assert n in multiset(r);
        }
        assert Insert(m, ms)[1..] == r;
      } else {
        LessTotal(m.key, ms[0].key);
        forall n | n in ms ensures Less(m.key, n.key) {
          if n != ms[0] {
            LessTransitive(m.key, ms[0].key, n.key);
          }
        }
        assert Insert(m, ms)[1..] == ms;
      }
    }
  }

  lemma {:induction false} SortSorted(ms: seq<Member>)
    requires DistinctKeys(ms)
    ensures Sorted(SortMembers(ms))
  {
    if ms != [] {
      SortSorted(ms[1..]);
      var r := SortMembers(ms[1..]);
      forall n | n in r ensures n.key != ms[0].key {
        assert n in multiset(r);
      }
      InsertSorted(ms[0], r);
    }
  }

  lemma {:induction false} DefinedDistinct(ms: seq<Member>)
    requires DistinctKeys(ms)
    ensures DistinctKeys(Defined(ms))
  {
    if ms != [] {
      DefinedDistinct(ms[1..]);
    }
  }

  lemma OrderedSorted(ms: seq<Member>)
    requires DistinctKeys(ms)
    ensures Sorted(Ordered(ms))
  {
    DefinedDistinct(ms);
    SortSorted(Defined(ms));
  }

  lemma {:induction false} SortedDistinct(ms: seq<Member>)
    requires Sorted(ms)
    ensures DistinctKeys(ms)
  {
    if ms != [] {
      SortedDistinct(ms[1..]);
      LessIrreflexive(ms[0].key);
    }
  }

  // ----- Members as a map -------------------------------------------------------------

  lemma {:induction false} MeanMembersHas(ms: seq<Member>, m: Member)
    requires DistinctKeys(ms) && m in ms && !m.value.Undefined?
    ensures m.key in MeanMembers(ms) && MeanMembers(ms)[m.key] == Mean(m.value)
  {
    if m != ms[0] {
      MeanMembersHas(ms[1..], m);
    }
  }

  lemma {:induction false} MeanMembersOnly(ms: seq<Member>, key: Text)
    requires key in MeanMembers(ms)
    ensures exists m :: m in ms && m.key == key && !m.value.Undefined?
  {
    if !ms[0].value.Undefined? && ms[0].key == key {
      assert ms[0] in ms;
    } else {
      MeanMembersOnly(ms[1..], key);
    }
  }

  /** Sorting members and dropping undefined ones keeps the meaning. */
  lemma OrderedMean(ms: seq<Member>)
    requires DistinctKeys(ms)
    ensures MeanMembers(Ordered(ms)) == MeanMembers(ms)
  {
    var r := Ordered(ms);
    OrderedSorted(ms);
    SortedDistinct(r);
    forall key | key in MeanMembers(r) ensures key in MeanMembers(ms) && MeanMembers(ms)[key] == MeanMembers(r)[key] {
      MeanMembersOnly(r, key);
      var m :| m in r && m.key == key && !m.value.Undefined?;
      MeanMembersHas(r, m);
      MeanMembersHas(ms, m);
    }
    forall key | key in MeanMembers(ms) ensures key in MeanMembers(r) {
      MeanMembersOnly(ms, key);
      var m :| m in ms && m.key == key && !m.value.Undefined?;
      MeanMembersHas(r, m);
    }
  }

  // ----- Meaning determines printed text ------------------------------------------------

  lemma SortedTail(ms: seq<Member>)
    requires Sorted(ms) && AllDefined(ms) && ms != []
    ensures MeanMembers(ms[1..]) == MeanMembers(ms) - {ms[0].key}
    ensures forall key | key in MeanMembers(ms) :: key == ms[0].key || Less(ms[0].key, key)
    ensures ms[0].key in MeanMembers(ms) && MeanMembers(ms)[ms[0].key] == Mean(ms[0].value)
  {
    LessIrreflexive(ms[0].key);
    forall key | key in MeanMembers(ms[1..]) ensures Less(ms[0].key, key) {
      MeanMembersOnly(ms[1..], key);
    }
  }

  /** A map has one sorted list of members. */
  lemma {:induction false} SortedUnique(a: seq<Member>, b: seq<Member>)
    requires Sorted(a) && Sorted(b) && AllDefined(a) && AllDefined(b) && MeanMembers(a) == MeanMembers(b)
    ensures SameMembers(a, b)
  {
    if a == [] {
      if b != [] {
        SortedTail(b);
      }
    } else if b == [] {
      SortedTail(a);
    } else {
      SortedTail(a);
      SortedTail(b);
      if a[0].key != b[0].key {
        LessTransitive(a[0].key, b[0].key, a[0].key);
        LessIrreflexive(a[0].key);
      }
      SortedUnique(a[1..], b[1..]);
    }
  }

  lemma {:induction false} SameMeaningSamePrint(a: Value, b: Value)
    requires WellFormed(a) && WellFormed(b) && Mean(a) == Mean(b)
    ensures Print(a) == Print(b)
    decreases a
  {
    match a
    case Arr(items) =>
      assert Mean(a).items == Mean(b).items;
      forall i | 0 <= i < |items| ensures Mean(items[i]) == Mean(b.items[i]) {
        assert Mean(a).items[i] == Mean(b).items[i];
      }
      SameItemsPrint(a, items, b, b.items);
    case Obj(members) =>
      OrderedMean(members);
      OrderedMean(b.members);
      OrderedSorted(members);
      OrderedSorted(b.members);
      SortedUnique(Ordered(members), Ordered(b.members));
      SameMembersPrint(a, Ordered(members), b, Ordered(b.members));
    case _ =>
  }

  lemma {:induction false} SameItemsPrint(wa: Value, a: seq<Value>, wb: Value, b: seq<Value>)
    requires forall i | 0 <= i < |a| :: a[i] < wa
    requires forall i | 0 <= i < |b| :: b[i] < wb
    requires forall v | v in a :: WellFormed(v)
    requires forall v | v in b :: WellFormed(v)
    requires SameMeanings(a, b)
    ensures PrintItems(wa, a) == PrintItems(wb, b)
    decreases wa, |a|
  {
    if a != [] {
      SameMeaningSamePrint(a[0], b[0]);
      SameItemsPrint(wa, a[1..], wb, b[1..]);
    }
  }

  lemma {:induction false} SameMembersPrint(wa: Value, a: seq<Member>, wb: Value, b: seq<Member>)
    requires forall m | m in a :: m.value < wa
    requires forall m | m in b :: m.value < wb
    requires forall m | m in a :: WellFormed(m.value)
    requires forall m | m in b :: WellFormed(m.value)
    requires SameMembers(a, b)
    ensures PrintMembers(wa, a) == PrintMembers(wb, b)
    decreases wa, |a|
  {
    if a != [] {
      SameMeaningSamePrint(a[0].value, b[0].value);
      SameMembersPrint(wa, a[1..], wb, b[1..]);
    }
  }

  /** Canonical text is injective modulo key order and undefined members, and only modulo those. */
  lemma CanonicalText(a: Value, b: Value)
    requires WellFormed(a) && WellFormed(b)
    ensures Print(a) == Print(b) <==> Mean(a) == Mean(b)
  {
    if Print(a) == Print(b) {
      PrintPrefixFree(a, [], b, []);
    }
    if Mean(a) == Mean(b) {
      SameMeaningSamePrint(a, b);
    }
  }
}
