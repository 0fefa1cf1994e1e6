/** The replay key of a tool call: its name and its arguments in a canonical form. */
module CallKey {
  import opened Transcript

  /** UTF-16 text, unit by unit. */
  type Text = seq<CodeUnit>

  /** A number is the text the printer writes for it. */
  datatype Json =
    | Null
    | Bool(b: bool)
    | Num(digits: Text)
    | Str(text: Text)
    | Arr(items: seq<Json>)
    | Obj(members: seq<Member>)

  datatype Member = Member(key: Text, value: Json)

  /** What a JSON value means: an object is an unordered set of members (section 4 of RFC 8259). */
  datatype Value =
    | VNull
    | VBool(b: bool)
    | VNum(digits: Text)
    | VStr(text: Text)
    | VArr(items: seq<Value>)
    | VObj(members: map<Text, Value>)

  const NUL: CodeUnit := 0
  const QUOTE: CodeUnit := 34
  const PLUS: CodeUnit := 43
  const COMMA: CodeUnit := 44
  const MINUS: CodeUnit := 45
  const DOT: CodeUnit := 46
  const COLON: CodeUnit := 58
  const OPEN_ARRAY: CodeUnit := 91
  const BACKSLASH: CodeUnit := 92
  const CLOSE_ARRAY: CodeUnit := 93
  const LETTER_E: CodeUnit := 101
  const LETTER_U: CodeUnit := 117
  const OPEN_OBJECT: CodeUnit := 123
  const CLOSE_OBJECT: CodeUnit := 125

  const NULL_TEXT: Text := [110, 117, 108, 108]
  const TRUE_TEXT: Text := [116, 114, 117, 101]
  const FALSE_TEXT: Text := [102, 97, 108, 115, 101]
  const ANALYSIS: Text := [97, 110, 97, 108, 121, 115, 105, 115]

  predicate Digit(u: CodeUnit) {
    48 <= u <= 57
  }

  predicate Numeric(u: CodeUnit) {
    Digit(u) || u == PLUS || u == MINUS || u == DOT || u == LETTER_E
  }

  predicate NumberText(t: Text) {
    t != [] && (Digit(t[0]) || t[0] == MINUS) && forall i :: 0 <= i < |t| ==> Numeric(t[i])
  }

  ghost predicate DistinctKeys(ms: seq<Member>) {
    forall i, j :: 0 <= i < j < |ms| ==> ms[i].key != ms[j].key
  }

  /** A value a JSON parser yields. */
  ghost predicate Valid(v: Json) {
    match v
    case Num(t) => NumberText(t)
    case Arr(items) => forall i | 0 <= i < |items| :: Valid(items[i])
    case Obj(ms) => DistinctKeys(ms) && forall i | 0 <= i < |ms| :: Valid(ms[i].value)
    case _ => true
  }

  function MeaningAll(items: seq<Json>): seq<Value> {
    if items == [] then [] else MeaningAll(items[..|items| - 1]) + [Meaning(items[|items| - 1])]
  }

  function MeaningMap(ms: seq<Member>): map<Text, Value> {
    if ms == [] then map[] else
      var last := ms[|ms| - 1];
      MeaningMap(ms[..|ms| - 1])[last.key := Meaning(last.value)]
  }

  function Meaning(v: Json): Value {
    match v
    case Null => VNull
    case Bool(b) => VBool(b)
    case Num(t) => VNum(t)
    case Str(t) => VStr(t)
    case Arr(items) => VArr(MeaningAll(items))
    case Obj(ms) => VObj(MeaningMap(ms))
  }

  // ---------------------------------------------------------------------------
  // The printer
  // ---------------------------------------------------------------------------

  predicate Lead(u: CodeUnit) {
    0xD800 <= u <= 0xDBFF
  }

  predicate Trail(u: CodeUnit) {
    0xDC00 <= u <= 0xDFFF
  }

  /** Half of a surrogate pair, without the other half. */
  predicate Lone(s: Text, i: nat)
    requires i < |s|
  {
    || (Lead(s[i]) && !(i + 1 < |s| && Trail(s[i + 1])))
    || (Trail(s[i]) && !(i > 0 && Lead(s[i - 1])))
  }

  /** The letter of a two-character escape. */
  function ShortEscape(u: CodeUnit): Option<CodeUnit> {
    if u == 8 then Some(98)
    else if u == 9 then Some(116)
    else if u == 10 then Some(110)
    else if u == 12 then Some(102)
    else if u == 13 then Some(114)
    else if u == QUOTE || u == BACKSLASH then Some(u)
    else None
  }

  function HexDigit(d: nat): (r: CodeUnit)
    requires d < 16
  {
    if d < 10 then 48 + d else 87 + d
  }

  function Hex4(u: CodeUnit): (r: Text)
    ensures |r| == 4
  {
    [HexDigit(u / 4096), HexDigit(u / 256 % 16), HexDigit(u / 16 % 16), HexDigit(u % 16)]
  }

  function EscapeAt(s: Text, i: nat): (r: Text)
    requires i < |s|
    ensures r != [] && r[0] != QUOTE
  {
    if ShortEscape(s[i]).Some? then [BACKSLASH, ShortEscape(s[i]).value]
    else if s[i] < 32 || Lone(s, i) then [BACKSLASH, LETTER_U] + Hex4(s[i])
    else [s[i]]
  }

  function Escaped(s: Text, i: nat): Text
    requires i <= |s|
    decreases |s| - i
  {
    if i == |s| then [] else EscapeAt(s, i) + Escaped(s, i + 1)
  }

  function Quote(s: Text): Text {
    [QUOTE] + Escaped(s, 0) + [QUOTE]
  }

  function PrintItems(items: seq<Json>): Text {
    if items == [] then []
    else if |items| == 1 then Print(items[0])
    else Print(items[0]) + [COMMA] + PrintItems(items[1..])
  }

  function PrintMember(m: Member): Text {
    Quote(m.key) + [COLON] + Print(m.value)
  }

  function PrintMembers(ms: seq<Member>): Text {
    if ms == [] then []
    else if |ms| == 1 then PrintMember(ms[0])
    else PrintMember(ms[0]) + [COMMA] + PrintMembers(ms[1..])
  }

  function Print(v: Json): Text {
    match v
    case Null => NULL_TEXT
    case Bool(b) => if b then TRUE_TEXT else FALSE_TEXT
    case Num(t) => t
    case Str(t) => Quote(t)
    case Arr(items) => [OPEN_ARRAY] + PrintItems(items) + [CLOSE_ARRAY]
    case Obj(ms) => [OPEN_OBJECT] + PrintMembers(ms) + [CLOSE_OBJECT]
  }

  // ---------------------------------------------------------------------------
  // The canonical form
  // ---------------------------------------------------------------------------

  /** The order of the sort: unit by unit. */
  predicate Less(a: Text, b: Text) {
    if b == [] then false
    else if a == [] then true
    else a[0] < b[0] || (a[0] == b[0] && Less(a[1..], b[1..]))
  }

  function Insert(ms: seq<Member>, m: Member): (r: seq<Member>)
    ensures |r| == |ms| + 1
  {
    if ms == [] || !Less(m.key, ms[|ms| - 1].key) then ms + [m]
    else Insert(ms[..|ms| - 1], m) + [ms[|ms| - 1]]
  }

  function SortMembers(ms: seq<Member>): (r: seq<Member>)
    ensures |r| == |ms|
  {
    if ms == [] then [] else Insert(SortMembers(ms[..|ms| - 1]), ms[|ms| - 1])
  }

  function CanonAll(items: seq<Json>): (r: seq<Json>)
    ensures |r| == |items|
  {
    if items == [] then [] else CanonAll(items[..|items| - 1]) + [Canon(items[|items| - 1])]
  }

  function CanonMembers(ms: seq<Member>): (r: seq<Member>)
    ensures |r| == |ms| && forall i :: 0 <= i < |ms| ==> r[i].key == ms[i].key
  {
    if ms == [] then [] else
      var last := ms[|ms| - 1];
      CanonMembers(ms[..|ms| - 1]) + [Member(last.key, Canon(last.value))]
  }

  /** Members sorted by key at every depth. */
  function Canon(v: Json): Json {
    match v
    case Arr(items) => Arr(CanonAll(items))
    case Obj(ms) => Obj(SortMembers(CanonMembers(ms)))
    case _ => v
  }

  function CanonicalJson(v: Json): Text {
    Print(Canon(v))
  }

  function WithoutAnalysis(ms: seq<Member>): seq<Member> {
    if ms == [] then [] else
      WithoutAnalysis(ms[..|ms| - 1]) + (if ms[|ms| - 1].key == ANALYSIS then [] else [ms[|ms| - 1]])
  }

  /** What identifies the call: absent arguments are an empty object, and the prefill's `analysis` is dropped. */
  function Identity(args: Option<Json>): Json {
    if args.None? || args.value.Null? then Obj([])
    else if args.value.Obj? then Obj(WithoutAnalysis(args.value.members))
    else args.value
  }

  function KeyOf(name: Text, args: Option<Json>): Text {
    name + [NUL] + CanonicalJson(Identity(args))
  }

  // ---------------------------------------------------------------------------
  // The printer is unambiguous
  // ---------------------------------------------------------------------------

  lemma SplitAt(a: Text, b: Text, p: Text, q: Text)
    requires a + p == b + q && |a| == |b|
    ensures a == b && p == q
  {
    assert a == (a + p)[..|a|] && b == (b + q)[..|b|];
    assert p == (a + p)[|a|..] && q == (b + q)[|b|..];
  }

  lemma HexParts(u: CodeUnit)
    ensures u == u / 4096 * 4096 + u / 256 % 16 * 256 + u / 16 % 16 * 16 + u % 16
  {
    assert u / 256 == u / 4096 * 16 + u / 256 % 16;
    assert u / 16 == u / 256 * 16 + u / 16 % 16;
  }

  lemma DigitIsInjective(a: nat, b: nat)
    requires a < 16 && b < 16 && HexDigit(a) == HexDigit(b)
    ensures a == b
  {
  }

  lemma HexIsInjective(a: CodeUnit, b: CodeUnit)
    requires Hex4(a) == Hex4(b)
    ensures a == b
  {
    hide HexDigit;
    var x, y := Hex4(a), Hex4(b);
    assert x[0] == y[0] && x[1] == y[1] && x[2] == y[2] && x[3] == y[3];
    DigitIsInjective(a / 4096, b / 4096);
    DigitIsInjective(a / 256 % 16, b / 256 % 16);
    DigitIsInjective(a / 16 % 16, b / 16 % 16);
    DigitIsInjective(a % 16, b % 16);
    HexParts(a);
    HexParts(b);
  }

  /** The first escape of a text gives its unit away, whatever stands around it. */
  lemma EscapeIsInjective(s: Text, i: nat, t: Text, j: nat, p: Text, q: Text)
    requires i < |s| && j < |t| && EscapeAt(s, i) + p == EscapeAt(t, j) + q
    ensures s[i] == t[j] && p == q
  {
    var a, b := EscapeAt(s, i), EscapeAt(t, j);
    assert a[0] == (a + p)[0] && b[0] == (b + q)[0];
    if a[0] == BACKSLASH {
      assert |a| > 1 && |b| > 1;
      assert a[1] == (a + p)[1] && b[1] == (b + q)[1];
      assert |a| == |b|;
      SplitAt(a, b, p, q);
      if a[1] == LETTER_U {
        assert a[2..] == Hex4(s[i]) && b[2..] == Hex4(t[j]);
        HexIsInjective(s[i], t[j]);
      }
    } else {
      SplitAt(a, b, p, q);
    }
  }

  /** A text's escapes, the closing quote, and what follows it. */
  function Tail(s: Text, i: nat, p: Text): Text
    requires i <= |s|
  {
    Escaped(s, i) + ([QUOTE] + p)
  }

  lemma TailStep(s: Text, i: nat, p: Text)
    requires i <= |s|
    ensures i == |s| ==> Tail(s, i, p) == [QUOTE] + p
    ensures i < |s| ==> Tail(s, i, p) == EscapeAt(s, i) + Tail(s, i + 1, p) && Tail(s, i, p)[0] == EscapeAt(s, i)[0]
  {
    if i == |s| {
      assert Escaped(s, i) == [];
    } else {
      assert Escaped(s, i) == EscapeAt(s, i) + Escaped(s, i + 1);
    }
  }

  lemma {:induction false} EscapedIsInjective(s: Text, i: nat, t: Text, j: nat, p: Text, q: Text)
    requires i <= |s| && j <= |t| && Tail(s, i, p) == Tail(t, j, q)
    ensures s[i..] == t[j..] && p == q
    decreases |s| - i
  {
    hide Tail, EscapeAt, Escaped;
    TailStep(s, i, p);
    TailStep(t, j, q);
    if i == |s| {
      SplitAt([QUOTE], [QUOTE], p, q);
    } else {
      EscapeIsInjective(s, i, t, j, Tail(s, i + 1, p), Tail(t, j + 1, q));
      EscapedIsInjective(s, i + 1, t, j + 1, p, q);
      assert s[i..] == [s[i]] + s[i + 1..] && t[j..] == [t[j]] + t[j + 1..];
    }
  }

  lemma QuoteIsInjective(s: Text, t: Text, p: Text, q: Text)
    requires Quote(s) + p == Quote(t) + q
    ensures s == t && p == q
  {
    assert Quote(s) + p == [QUOTE] + Tail(s, 0, p);
    assert Quote(t) + q == [QUOTE] + Tail(t, 0, q);
    SplitAt([QUOTE], [QUOTE], Tail(s, 0, p), Tail(t, 0, q));
    EscapedIsInjective(s, 0, t, 0, p, q);
    assert s[0..] == s && t[0..] == t;
  }

  /** Nothing a number could go on with. */
  predicate Stops(p: Text) {
    p == [] || p[0] == COMMA || p[0] == CLOSE_ARRAY || p[0] == CLOSE_OBJECT
  }

  lemma NumberIsInjective(a: Text, b: Text, p: Text, q: Text)
    requires NumberText(a) && NumberText(b) && Stops(p) && Stops(q) && a + p == b + q
    ensures a == b && p == q
  {
    NextUnit(a, b, p, q);
    NextUnit(b, a, q, p);
    SplitAt(a, b, p, q);
  }

  lemma NextUnit(a: Text, b: Text, p: Text, q: Text)
    requires a + p == b + q
    ensures |b| < |a| ==> q != [] && q[0] == a[|b|]
  {
    if |b| < |a| {
      assert (a + p)[|b|] == a[|b|] && (b + q)[|b|] == q[0];
    }
  }

  predicate Opens(u: CodeUnit) {
    u == 110 || u == 116 || u == 102 || Digit(u) || u == MINUS || u == QUOTE || u == OPEN_ARRAY || u == OPEN_OBJECT
  }

  lemma PrintOpens(v: Json)
    requires Valid(v)
    ensures Print(v) != [] && Opens(Print(v)[0])
    ensures match Print(v)[0]
            case 110 => v.Null?
            case 116 => v == Bool(true)
            case 102 => v == Bool(false)
            case 34 => v.Str?
            case 91 => v.Arr?
            case 123 => v.Obj?
            case _ => v.Num?
  {
  }

  /** The items of a list, its closing bracket, and what follows it. */
  function ItemsThen(xs: seq<Json>, p: Text): Text {
    PrintItems(xs) + ([CLOSE_ARRAY] + p)
  }

  function MembersThen(xs: seq<Member>, p: Text): Text {
    PrintMembers(xs) + ([CLOSE_OBJECT] + p)
  }

  lemma PrintThen(v: Json, p: Text)
    ensures v.Arr? ==> Print(v) + p == [OPEN_ARRAY] + ItemsThen(v.items, p)
    ensures v.Obj? ==> Print(v) + p == [OPEN_OBJECT] + MembersThen(v.members, p)
  {
    match v
    case Arr(items) =>
      assert [OPEN_ARRAY] + PrintItems(items) + [CLOSE_ARRAY] + p == [OPEN_ARRAY] + ItemsThen(items, p);
    case Obj(ms) => assert [OPEN_OBJECT] + PrintMembers(ms) + [CLOSE_OBJECT] + p == [OPEN_OBJECT] + MembersThen(ms, p);
    case _ =>
  }

  lemma SameKind(a: Json, b: Json, p: Text, q: Text)
    requires Valid(a) && Valid(b) && Print(a) + p == Print(b) + q
    ensures match a
            case Null => b.Null?
            case Bool(x) => b == Bool(x)
            case Num(_) => b.Num?
            case Str(_) => b.Str?
            case Arr(_) => b.Arr?
            case Obj(_) => b.Obj?
  {
    PrintOpens(a);
    PrintOpens(b);
    hide Print, Valid;
    assert Print(a)[0] == (Print(a) + p)[0] && Print(b)[0] == (Print(b) + q)[0];
  }

  /** A printed value is a text no other value prints, and it ends where it ends. */
  lemma {:induction false} PrintIsInjective(a: Json, b: Json, p: Text, q: Text)
    requires Valid(a) && Valid(b) && Stops(p) && Stops(q) && Print(a) + p == Print(b) + q
    ensures a == b && p == q
    decreases a
  {
    hide PrintItems, PrintMembers, ItemsThen, MembersThen, Quote, NumberText, DistinctKeys;
    SameKind(a, b, p, q);
    match a
    case Null => SplitAt(Print(a), Print(b), p, q);
    case Bool(_) => SplitAt(Print(a), Print(b), p, q);
    case Num(t) => NumberIsInjective(t, b.digits, p, q);
    case Str(t) => QuoteIsInjective(t, b.text, p, q);
    case Arr(items) =>
      PrintThen(a, p);
      PrintThen(b, q);
      SplitAt([OPEN_ARRAY], [OPEN_ARRAY], ItemsThen(items, p), ItemsThen(b.items, q));
      ItemsAreInjective(items, b.items, p, q);
    case Obj(ms) =>
      PrintThen(a, p);
      PrintThen(b, q);
      SplitAt([OPEN_OBJECT], [OPEN_OBJECT], MembersThen(ms, p), MembersThen(b.members, q));
      MembersAreInjective(ms, b.members, p, q);
  }

  /** What follows the first item of a list. */
  function AfterItem(items: seq<Json>, p: Text): (r: Text)
    requires items != []
    ensures Stops(r)
  {
    if |items| == 1 then [CLOSE_ARRAY] + p else [COMMA] + ItemsThen(items[1..], p)
  }

  lemma Regroup(a: Text, b: Text, c: Text, d: Text)
    ensures (a + b + c) + d == a + (b + (c + d))
  {
  }

  lemma ItemsStep(xs: seq<Json>, p: Text)
    ensures xs == [] ==> ItemsThen(xs, p) == [CLOSE_ARRAY] + p
    ensures xs != [] ==> ItemsThen(xs, p) == Print(xs[0]) + AfterItem(xs, p)
  {
    hide Print;
    if |xs| == 0 {
      assert PrintItems(xs) == [];
    } else if |xs| == 1 {
      assert PrintItems(xs) == Print(xs[0]);
    } else {
      Regroup(Print(xs[0]), [COMMA], PrintItems(xs[1..]), [CLOSE_ARRAY] + p);
    }
  }

  lemma ItemsOpen(xs: seq<Json>, p: Text)
    requires forall i | 0 <= i < |xs| :: Valid(xs[i])
    ensures ItemsThen(xs, p) != [] && (xs == [] <==> ItemsThen(xs, p)[0] == CLOSE_ARRAY)
  {
    ItemsStep(xs, p);
    if xs != [] { PrintOpens(xs[0]); }
    hide Print, Valid, ItemsThen, AfterItem;
  }

  lemma {:induction false} ItemsAreInjective(xs: seq<Json>, ys: seq<Json>, p: Text, q: Text)
    requires forall i | 0 <= i < |xs| :: Valid(xs[i])
    requires forall i | 0 <= i < |ys| :: Valid(ys[i])
    requires ItemsThen(xs, p) == ItemsThen(ys, q)
    ensures xs == ys && p == q
    decreases xs
  {
    hide Print, Valid, ItemsThen, Stops;
    ItemsOpen(xs, p);
    ItemsOpen(ys, q);
    ItemsStep(xs, p);
    ItemsStep(ys, q);
    if xs == [] {
      SplitAt([CLOSE_ARRAY], [CLOSE_ARRAY], p, q);
    } else {
      PrintIsInjective(xs[0], ys[0], AfterItem(xs, p), AfterItem(ys, q));
      assert AfterItem(xs, p)[0] == AfterItem(ys, q)[0];
      if |xs| == 1 {
        SplitAt([CLOSE_ARRAY], [CLOSE_ARRAY], p, q);
        assert xs == [xs[0]] && ys == [ys[0]];
      } else {
        SplitAt([COMMA], [COMMA], ItemsThen(xs[1..], p), ItemsThen(ys[1..], q));
        ItemsAreInjective(xs[1..], ys[1..], p, q);
        assert xs == [xs[0]] + xs[1..] && ys == [ys[0]] + ys[1..];
      }
    }
  }

  function AfterMember(ms: seq<Member>, p: Text): (r: Text)
    requires ms != []
    ensures Stops(r)
  {
    if |ms| == 1 then [CLOSE_OBJECT] + p else [COMMA] + MembersThen(ms[1..], p)
  }

  lemma MembersStep(xs: seq<Member>, p: Text)
    ensures xs == [] ==> MembersThen(xs, p) == [CLOSE_OBJECT] + p
    ensures xs != [] ==> MembersThen(xs, p) == PrintMember(xs[0]) + AfterMember(xs, p)
  {
    hide PrintMember;
    if |xs| == 0 {
      assert PrintMembers(xs) == [];
    } else if |xs| == 1 {
      assert PrintMembers(xs) == PrintMember(xs[0]);
    } else {
      Regroup(PrintMember(xs[0]), [COMMA], PrintMembers(xs[1..]), [CLOSE_OBJECT] + p);
    }
  }

  lemma MembersOpen(xs: seq<Member>, p: Text)
    ensures MembersThen(xs, p) != [] && (xs == [] <==> MembersThen(xs, p)[0] == CLOSE_OBJECT)
  {
    MembersStep(xs, p);
    if xs != [] { assert PrintMember(xs[0])[0] == QUOTE; }
    hide PrintMember, MembersThen, AfterMember;
  }

  lemma {:induction false} MembersAreInjective(xs: seq<Member>, ys: seq<Member>, p: Text, q: Text)
    requires forall i | 0 <= i < |xs| :: Valid(xs[i].value)
    requires forall i | 0 <= i < |ys| :: Valid(ys[i].value)
    requires MembersThen(xs, p) == MembersThen(ys, q)
    ensures xs == ys && p == q
    decreases xs
  {
    hide PrintMember, Valid, MembersThen, Stops;
    MembersOpen(xs, p);
    MembersOpen(ys, q);
    MembersStep(xs, p);
    MembersStep(ys, q);
    if xs == [] {
      SplitAt([CLOSE_OBJECT], [CLOSE_OBJECT], p, q);
    } else {
      MemberIsInjective(xs[0], ys[0], AfterMember(xs, p), AfterMember(ys, q));
      assert AfterMember(xs, p)[0] == AfterMember(ys, q)[0];
      if |xs| == 1 {
        SplitAt([CLOSE_OBJECT], [CLOSE_OBJECT], p, q);
        assert xs == [xs[0]] && ys == [ys[0]];
      } else {
        SplitAt([COMMA], [COMMA], MembersThen(xs[1..], p), MembersThen(ys[1..], q));
        MembersAreInjective(xs[1..], ys[1..], p, q);
        assert xs == [xs[0]] + xs[1..] && ys == [ys[0]] + ys[1..];
      }
    }
  }

  lemma {:induction false} MemberIsInjective(x: Member, y: Member, p: Text, q: Text)
    requires Valid(x.value) && Valid(y.value) && Stops(p) && Stops(q) && PrintMember(x) + p == PrintMember(y) + q
    ensures x == y && p == q
    decreases x
  {
    hide Print, Quote, Valid, Stops;
    var a, b := Print(x.value) + p, Print(y.value) + q;
    assert PrintMember(x) + p == Quote(x.key) + ([COLON] + a);
    assert PrintMember(y) + q == Quote(y.key) + ([COLON] + b);
    QuoteIsInjective(x.key, y.key, [COLON] + a, [COLON] + b);
    SplitAt([COLON], [COLON], a, b);
    PrintIsInjective(x.value, y.value, p, q);
  }

  // ---------------------------------------------------------------------------
  // The canonical form is the meaning
  // ---------------------------------------------------------------------------

  lemma {:induction false} LessIsTotal(a: Text, b: Text)
    ensures !Less(a, a)
    ensures a != b ==> (Less(a, b) <==> !Less(b, a))
  {
    if a != [] && b != [] {
      LessIsTotal(a[1..], b[1..]);
      assert a == [a[0]] + a[1..] && b == [b[0]] + b[1..];
    } else if a != [] {
      LessIsTotal(a[1..], a[1..]);
    }
  }

  lemma {:induction false} LessIsTransitive(a: Text, b: Text, c: Text)
    requires Less(a, b) && Less(b, c)
    ensures Less(a, c)
  {
    if a != [] && a[0] == b[0] == c[0] { LessIsTransitive(a[1..], b[1..], c[1..]); }
  }

  ghost predicate Sorted(ms: seq<Member>) {
    forall i, j :: 0 <= i < j < |ms| ==> Less(ms[i].key, ms[j].key)
  }

  function KeysOf(ms: seq<Member>): set<Text> {
    set i | 0 <= i < |ms| :: ms[i].key
  }

  lemma KeysSplit(ms: seq<Member>, m: Member)
    ensures KeysOf(ms + [m]) == KeysOf(ms) + {m.key}
  {
    var all := ms + [m];
    assert all[|ms|] == m;
    assert forall i | 0 <= i < |ms| :: all[i] == ms[i];
    assert forall k | k in KeysOf(ms) :: k in KeysOf(all) by {
      forall k | k in KeysOf(ms) ensures k in KeysOf(all) {
        var i :| 0 <= i < |ms| && ms[i].key == k;
        assert all[i].key == k;
      }
    }
  }

  lemma {:induction false} MeaningKeys(ms: seq<Member>)
    ensures MeaningMap(ms).Keys == KeysOf(ms)
  {
    if ms != [] {
      var init, last := ms[..|ms| - 1], ms[|ms| - 1];
      MeaningKeys(init);
      KeysSplit(init, last);
      assert ms == init + [last];
    }
  }

  lemma MeaningAppend(ms: seq<Member>, m: Member)
    ensures MeaningMap(ms + [m]) == MeaningMap(ms)[m.key := Meaning(m.value)]
  {
    assert (ms + [m])[..|ms|] == ms;
  }

  /** Inserting a new key keeps the order, and adds its member to what the object means. */
  lemma {:induction false} InsertIsRight(ms: seq<Member>, m: Member)
    requires Sorted(ms) && m.key !in KeysOf(ms)
    ensures Sorted(Insert(ms, m))
    ensures KeysOf(Insert(ms, m)) == KeysOf(ms) + {m.key}
    ensures MeaningMap(Insert(ms, m)) == MeaningMap(ms)[m.key := Meaning(m.value)]
  {
    hide Less, Meaning, MeaningMap, KeysOf;
    if ms == [] || !Less(m.key, ms[|ms| - 1].key) {
      MeaningAppend(ms, m);
      KeysSplit(ms, m);
      SortedAppend(ms, m);
    } else {
      var init, last := ms[..|ms| - 1], ms[|ms| - 1];
      var r := Insert(init, m);
      assert ms == init + [last];
      KeysSplit(init, last);
      assert Sorted(init);
      InsertIsRight(init, m);
      KeysSplit(r, last);
      MeaningAppend(r, last);
      MeaningAppend(init, last);
      LargestKey(init, last);
      AppendLargest(r, last);
    }
  }

  lemma LargestKey(ms: seq<Member>, m: Member)
    requires Sorted(ms + [m])
    ensures forall k | k in KeysOf(ms) :: Less(k, m.key)
  {
    hide Less;
    forall k | k in KeysOf(ms) ensures Less(k, m.key) {
      var i :| 0 <= i < |ms| && ms[i].key == k;
      assert (ms + [m])[i] == ms[i] && (ms + [m])[|ms|] == m;
    }
  }

  lemma AppendLargest(ms: seq<Member>, m: Member)
    requires Sorted(ms) && forall k | k in KeysOf(ms) :: Less(k, m.key)
    ensures Sorted(ms + [m])
  {
    var all := ms + [m];
    forall i, j | 0 <= i < j < |all| ensures Less(all[i].key, all[j].key) {
      assert all[i] == ms[i] && ms[i].key in KeysOf(ms);
    }
  }

  lemma SortedAppend(ms: seq<Member>, m: Member)
    requires Sorted(ms) && m.key !in KeysOf(ms) && (ms == [] || !Less(m.key, ms[|ms| - 1].key))
    ensures Sorted(ms + [m])
  {
    forall k | k in KeysOf(ms) ensures Less(k, m.key) {
      var n := |ms| - 1;
      var i :| 0 <= i < |ms| && ms[i].key == k;
      LessIsTotal(ms[n].key, m.key);
      assert ms[n].key in KeysOf(ms);
      if i < n { LessIsTransitive(k, ms[n].key, m.key); }
    }
    AppendLargest(ms, m);
  }

  lemma {:induction false} SortIsRight(ms: seq<Member>)
    requires DistinctKeys(ms)
    ensures Sorted(SortMembers(ms)) && KeysOf(SortMembers(ms)) == KeysOf(ms)
    ensures MeaningMap(SortMembers(ms)) == MeaningMap(ms)
  {
    hide Sorted, Less, MeaningMap, Meaning, Insert;
    if ms != [] {
      var init, last := ms[..|ms| - 1], ms[|ms| - 1];
      SortIsRight(init);
      assert ms == init + [last];
      KeysSplit(init, last);
      DistinctAppend(init, last);
      InsertIsRight(SortMembers(init), last);
      MeaningAppend(init, last);
    } else {
      EmptyMeaning();
    }
  }

  lemma {:induction false} SortKeepsMembers(ms: seq<Member>)
    ensures forall m :: m in SortMembers(ms) <==> m in ms
  {
    if ms != [] {
      SortKeepsMembers(ms[..|ms| - 1]);
      InsertKeepsMembers(SortMembers(ms[..|ms| - 1]), ms[|ms| - 1]);
      assert ms == ms[..|ms| - 1] + [ms[|ms| - 1]];
    }
  }

  lemma {:induction false} InsertKeepsMembers(ms: seq<Member>, m: Member)
    ensures forall x :: x in Insert(ms, m) <==> x in ms || x == m
  {
    if !(ms == [] || !Less(m.key, ms[|ms| - 1].key)) {
      InsertKeepsMembers(ms[..|ms| - 1], m);
      assert ms == ms[..|ms| - 1] + [ms[|ms| - 1]];
    }
  }

  /** Members sorted at every depth. */
  ghost predicate IsCanon(v: Json) {
    match v
    case Arr(items) => forall i | 0 <= i < |items| :: IsCanon(items[i])
    case Obj(ms) => Sorted(ms) && forall i | 0 <= i < |ms| :: IsCanon(ms[i].value)
    case _ => true
  }

  /** Canonicalizing changes the order of members, never what the value means. */
  lemma {:induction false} CanonIsRight(v: Json)
    requires Valid(v)
    ensures Valid(Canon(v)) && IsCanon(Canon(v)) && Meaning(Canon(v)) == Meaning(v)
    decreases v
  {
    match v
    case Arr(items) => CanonAllIsRight(items);
    case Obj(ms) => CanonMembersAreRight(ms); CanonObject(ms);
    case _ =>
  }

  lemma CanonObject(ms: seq<Member>)
    requires DistinctKeys(ms) && GoodMembers(CanonMembers(ms)) && MeaningMap(CanonMembers(ms)) == MeaningMap(ms)
    ensures var c := Obj(SortMembers(CanonMembers(ms)));
      Valid(c) && IsCanon(c) && Meaning(c) == VObj(MeaningMap(ms))
  {
    hide Valid, IsCanon, MeaningMap, SortMembers, CanonMembers, DistinctKeys, Sorted, KeysOf;
    var plain := CanonMembers(ms);
    SameKeys(ms, plain);
    var sorted := SortMembers(plain);
    SortIsRight(plain);
    SortKeepsMembers(plain);
    GoodAgain(plain, sorted);
    SortedIsDistinct(sorted);
    ObjectOf(sorted);
  }

  lemma SameKeys(ms: seq<Member>, plain: seq<Member>)
    requires DistinctKeys(ms) && |plain| == |ms| && forall i :: 0 <= i < |ms| ==> plain[i].key == ms[i].key
    ensures DistinctKeys(plain)
  {
  }

  lemma GoodAgain(plain: seq<Member>, sorted: seq<Member>)
    requires GoodMembers(plain) && forall m :: m in sorted ==> m in plain
    ensures GoodMembers(sorted)
  {
    hide Valid, IsCanon;
    forall i | 0 <= i < |sorted| ensures Valid(sorted[i].value) && IsCanon(sorted[i].value) {
      assert sorted[i] in plain;
      var j :| 0 <= j < |plain| && plain[j] == sorted[i];
    }
  }

  lemma SortedIsDistinct(ms: seq<Member>)
    requires Sorted(ms)
    ensures DistinctKeys(ms)
  {
    forall i, j | 0 <= i < j < |ms| ensures ms[i].key != ms[j].key {
      LessIsTotal(ms[i].key, ms[i].key);
    }
  }

  lemma ObjectOf(ms: seq<Member>)
    requires Sorted(ms) && DistinctKeys(ms) && GoodMembers(ms)
    ensures Valid(Obj(ms)) && IsCanon(Obj(ms)) && Meaning(Obj(ms)) == VObj(MeaningMap(ms))
  {
  }

  ghost predicate GoodMembers(ms: seq<Member>) {
    forall i | 0 <= i < |ms| :: Valid(ms[i].value) && IsCanon(ms[i].value)
  }

  lemma {:induction false} CanonAllIsRight(items: seq<Json>)
    requires forall i | 0 <= i < |items| :: Valid(items[i])
    ensures forall i | 0 <= i < |items| :: Valid(CanonAll(items)[i]) && IsCanon(CanonAll(items)[i])
    ensures MeaningAll(CanonAll(items)) == MeaningAll(items)
    decreases items
  {
    hide Valid, IsCanon, Canon, Meaning;
    if items != [] {
      var init := items[..|items| - 1];
      CanonAllIsRight(init);
      CanonIsRight(items[|items| - 1]);
      assert CanonAll(items)[..|init|] == CanonAll(init);
    }
  }

  lemma {:induction false} CanonMembersAreRight(ms: seq<Member>)
    requires forall i | 0 <= i < |ms| :: Valid(ms[i].value)
    ensures GoodMembers(CanonMembers(ms)) && MeaningMap(CanonMembers(ms)) == MeaningMap(ms)
    decreases ms
  {
    hide Valid, IsCanon, Canon, Meaning;
    if ms != [] {
      var init := ms[..|ms| - 1];
      CanonMembersAreRight(init);
      CanonIsRight(ms[|ms| - 1].value);
      assert CanonMembers(ms)[..|init|] == CanonMembers(init);
    }
  }

  lemma {:induction false} MeaningAllAt(items: seq<Json>, i: nat)
    requires i < |items|
    ensures |MeaningAll(items)| == |items| && MeaningAll(items)[i] == Meaning(items[i])
  {
    if |items| > 1 { MeaningAllAt(items[..|items| - 1], if i < |items| - 1 then i else 0); }
  }

  /** Two canonical values that mean the same are the same. */
  lemma {:induction false} CanonIsUnique(a: Json, b: Json)
    requires IsCanon(a) && IsCanon(b) && Meaning(a) == Meaning(b)
    ensures a == b
    decreases a
  {
    match a
    case Arr(items) => ItemsAreUnique(items, b.items);
    case Obj(ms) => MembersAreUnique(ms, b.members);
    case _ =>
  }

  lemma {:induction false} ItemsAreUnique(xs: seq<Json>, ys: seq<Json>)
    requires forall i | 0 <= i < |xs| :: IsCanon(xs[i])
    requires forall i | 0 <= i < |ys| :: IsCanon(ys[i])
    requires MeaningAll(xs) == MeaningAll(ys)
    ensures xs == ys
    decreases xs
  {
    if xs != [] { MeaningAllAt(xs, 0); }
    if ys != [] { MeaningAllAt(ys, 0); }
    forall i | 0 <= i < |xs| ensures xs[i] == ys[i] {
      MeaningAllAt(xs, i);
      MeaningAllAt(ys, i);
      CanonIsUnique(xs[i], ys[i]);
    }
  }

  /** Without its last member, a sorted object means the same without that key. */
  lemma LastMember(ms: seq<Member>)
    requires Sorted(ms) && ms != []
    ensures var last := ms[|ms| - 1];
      && last.key in MeaningMap(ms) && MeaningMap(ms)[last.key] == Meaning(last.value)
      && MeaningMap(ms[..|ms| - 1]) == MeaningMap(ms) - {last.key}
      && forall k | k in MeaningMap(ms) :: k == last.key || Less(k, last.key)
  {
    hide Less, Meaning, MeaningMap;
    var init, last := ms[..|ms| - 1], ms[|ms| - 1];
    assert ms == init + [last];
    MeaningKeys(init);
    MeaningKeys(ms);
    MeaningAppend(init, last);
    LessIsTotal(last.key, last.key);
    forall k | k in KeysOf(ms) ensures k == last.key || Less(k, last.key) {
      var i :| 0 <= i < |ms| && ms[i].key == k;
    }
    assert last.key !in KeysOf(init);
    DropKey(MeaningMap(init), last.key, Meaning(last.value), last.key);
  }

  lemma SameLastKey(p: seq<Member>, q: seq<Member>)
    requires Sorted(p) && Sorted(q) && p != [] && q != [] && MeaningMap(p) == MeaningMap(q)
    ensures p[|p| - 1].key == q[|q| - 1].key
  {
    LastMember(p);
    LastMember(q);
    LessIsTotal(p[|p| - 1].key, q[|q| - 1].key);
  }

  lemma {:induction false} MembersAreUnique(p: seq<Member>, q: seq<Member>)
    requires Sorted(p) && Sorted(q) && MeaningMap(p) == MeaningMap(q)
    requires forall i | 0 <= i < |p| :: IsCanon(p[i].value)
    requires forall i | 0 <= i < |q| :: IsCanon(q[i].value)
    ensures p == q
    decreases p
  {
    hide Less, IsCanon, MeaningMap;
    MeaningKeys(p);
    MeaningKeys(q);
    EmptyKeys(p);
    EmptyKeys(q);
    if p != [] {
      var a, b := p[..|p| - 1], q[..|q| - 1];
      SameLastKey(p, q);
      LastMember(p);
      LastMember(q);
      CanonIsUnique(p[|p| - 1].value, q[|q| - 1].value);
      MembersAreUnique(a, b);
      assert p == a + [p[|p| - 1]] && q == b + [q[|q| - 1]];
    }
  }

  lemma EmptyKeys(ms: seq<Member>)
    ensures KeysOf(ms) == {} <==> ms == []
  {
    if ms != [] { assert ms[0].key in KeysOf(ms); }
  }

  /** The canonical text of a value is its meaning: no less, no more. */
  lemma CanonicalIsMeaning(a: Json, b: Json)
    requires Valid(a) && Valid(b)
    ensures CanonicalJson(a) == CanonicalJson(b) <==> Meaning(a) == Meaning(b)
  {
    hide Valid, IsCanon, Meaning, Canon, Print;
    CanonIsRight(a);
    CanonIsRight(b);
    if CanonicalJson(a) == CanonicalJson(b) {
      assert Print(Canon(a)) + [] == Print(Canon(b)) + [];
      PrintIsInjective(Canon(a), Canon(b), [], []);
    }
    if Meaning(a) == Meaning(b) {
      CanonIsUnique(Canon(a), Canon(b));
    }
  }

  // ---------------------------------------------------------------------------
  // Call keys
  // ---------------------------------------------------------------------------

  lemma {:induction false} WithoutAnalysisHolds(ms: seq<Member>)
    ensures forall m :: m in WithoutAnalysis(ms) <==> m in ms && m.key != ANALYSIS
  {
    if ms != [] {
      WithoutAnalysisHolds(ms[..|ms| - 1]);
      assert ms == ms[..|ms| - 1] + [ms[|ms| - 1]];
    }
  }

  lemma KeysHold(ms: seq<Member>, rest: seq<Member>)
    requires forall m :: m in rest ==> m in ms
    ensures KeysOf(rest) <= KeysOf(ms)
  {
    forall k | k in KeysOf(rest) ensures k in KeysOf(ms) {
      var i :| 0 <= i < |rest| && rest[i].key == k;
      assert rest[i] in ms;
    }
  }

  lemma DistinctAppend(ms: seq<Member>, m: Member)
    ensures DistinctKeys(ms + [m]) <==> DistinctKeys(ms) && m.key !in KeysOf(ms)
  {
    var all := ms + [m];
    assert forall i | 0 <= i < |ms| :: all[i] == ms[i];
    if DistinctKeys(all) {
      forall i | 0 <= i < |ms| ensures ms[i].key != m.key {
        assert all[i].key != all[|ms|].key;
      }
    }
  }

  lemma DropKey(a: map<Text, Value>, k: Text, v: Value, x: Text)
    ensures x == k ==> a[k := v] - {x} == a - {x}
    ensures x == k && k !in a ==> a[k := v] - {x} == a
    ensures x != k ==> a[k := v] - {x} == (a - {x})[k := v]
  {
  }

  lemma EmptyMeaning()
    ensures MeaningMap([]) == map[] && DistinctKeys([]) && Sorted([])
  {
  }

  lemma {:induction false} WithoutAnalysisIsRight(ms: seq<Member>)
    requires DistinctKeys(ms)
    ensures DistinctKeys(WithoutAnalysis(ms)) && MeaningMap(WithoutAnalysis(ms)) == MeaningMap(ms) - {ANALYSIS}
  {
    hide Meaning, MeaningMap, DistinctKeys, KeysOf;
    if ms == [] {
      EmptyMeaning();
    } else {
      var init, last := ms[..|ms| - 1], ms[|ms| - 1];
      var r := WithoutAnalysis(init);
      assert ms == init + [last];
      DistinctAppend(init, last);
      WithoutAnalysisIsRight(init);
      MeaningAppend(init, last);
      DropKey(MeaningMap(init), last.key, Meaning(last.value), ANALYSIS);
      if last.key == ANALYSIS {
        assert r + [] == r;
      } else {
        MeaningAppend(r, last);
        WithoutAnalysisHolds(init);
        KeysHold(init, r);
        DistinctAppend(r, last);
      }
    }
  }

  ghost predicate ValidArgs(args: Option<Json>) {
    args.Some? ==> Valid(args.value)
  }

  /** What arguments mean to a call's identity: nothing and `null` are `{}`, and a top-level `analysis` is nothing. */
  function ArgsMeaning(args: Option<Json>): Value {
    if args.None? || args.value.Null? then VObj(map[])
    else
      match Meaning(args.value)
      case VObj(members) => VObj(members - {ANALYSIS})
      case v => v
  }

  lemma IdentityIsRight(args: Option<Json>)
    requires ValidArgs(args)
    ensures Valid(Identity(args)) && Meaning(Identity(args)) == ArgsMeaning(args)
  {
    hide MeaningMap, WithoutAnalysis, DistinctKeys;
    EmptyMeaning();
    if args.Some? && args.value.Obj? {
      var ms := args.value.members;
      WithoutAnalysisIsRight(ms);
      WithoutAnalysisHolds(ms);
      var r := WithoutAnalysis(ms);
      forall i | 0 <= i < |r| ensures Valid(r[i].value) {
        assert r[i] in r;
        var j :| 0 <= j < |ms| && ms[j] == r[i];
      }
    }
  }

  lemma {:induction false} NamesEnd(n: Text, m: Text, p: Text, q: Text)
    requires NUL !in n && NUL !in m && n + ([NUL] + p) == m + ([NUL] + q)
    ensures n == m && p == q
  {
    NextUnit(n, m, [NUL] + p, [NUL] + q);
    NextUnit(m, n, [NUL] + q, [NUL] + p);
    SplitAt(n, m, [NUL] + p, [NUL] + q);
    SplitAt([NUL], [NUL], p, q);
  }

  /**
   * Two calls have the same key exactly when their names are equal and their arguments mean the same, member
   * order and a top-level `analysis` aside.
   */
  lemma KeyIsIdentity(n: Text, a: Option<Json>, m: Text, b: Option<Json>)
    requires NUL !in n && NUL !in m && ValidArgs(a) && ValidArgs(b)
    ensures KeyOf(n, a) == KeyOf(m, b) <==> n == m && ArgsMeaning(a) == ArgsMeaning(b)
  {
    hide CanonicalJson, Identity, ArgsMeaning, Valid;
    IdentityIsRight(a);
    IdentityIsRight(b);
    var p, q := CanonicalJson(Identity(a)), CanonicalJson(Identity(b));
    CanonicalIsMeaning(Identity(a), Identity(b));
    assert KeyOf(n, a) == n + ([NUL] + p) && KeyOf(m, b) == m + ([NUL] + q);
    if KeyOf(n, a) == KeyOf(m, b) { NamesEnd(n, m, p, q); }
  }
}
