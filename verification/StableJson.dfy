/**
  The canonical text behind a confirmation's payload hash. Strings are UTF-16 code units, as in
  JavaScript; a finite number is represented by the text `JSON.stringify` prints for it; object
  keys are sorted under an arbitrary collation `le`, because `localeCompare` is one.
*/
module StableJson {
  type Unit = u: int | 0 <= u < 0x1_0000
  type Text = seq<Unit>
  type Order = (Text, Text) -> bool

  datatype Entry = Entry(key: Text, value: Json)
  datatype Json =
    | Null
    | Bool(value: bool)
    | Num(text: Text)
    | Str(text: Text)
    | Arr(items: seq<Json>)
    | Obj(entries: seq<Entry>)

  const QUOTE: Unit := 34
  const COMMA: Unit := 44
  const COLON: Unit := 58
  const BACKSLASH: Unit := 92
  const OPEN_ARRAY: Unit := 91
  const CLOSE_ARRAY: Unit := 93
  const OPEN_OBJECT: Unit := 123
  const CLOSE_OBJECT: Unit := 125

  // ---------- strings ----------

  predicate High(u: Unit) {
    0xD800 <= u < 0xDC00
  }

  predicate Low(u: Unit) {
    0xDC00 <= u < 0xE000
  }

  /** Half of a surrogate pair without the other half. */
  predicate Lone(s: Text, i: nat)
    requires i < |s|
  {
    || (High(s[i]) && !(i + 1 < |s| && Low(s[i + 1])))
    || (Low(s[i]) && !(0 < i && High(s[i - 1])))
  }

  function Hex(d: int): Unit
    requires 0 <= d < 16
  {
    if d < 10 then 48 + d else 87 + d
  }

  function Hex4(u: Unit): Text {
    [Hex(u / 4096), Hex(u / 256 % 16), Hex(u / 16 % 16), Hex(u % 16)]
  }

  /** The letter of a two-unit escape. */
  function Short(u: Unit): Unit {
    match u
    case 8 => 98
    case 9 => 116
    case 10 => 110
    case 12 => 102
    case 13 => 114
    case 34 => 34
    case 92 => 92
    case _ => 0
  }

  function Token(s: Text, i: nat): Text
    requires i < |s|
  {
    if Short(s[i]) != 0 then [BACKSLASH, Short(s[i])]
    else if s[i] < 32 || Lone(s, i) then [BACKSLASH, 117] + Hex4(s[i])
    else [s[i]]
  }

  function Tokens(s: Text, i: nat): Text
    requires i <= |s|
    decreases |s| - i
  {
    if i == |s| then [] else Token(s, i) + Tokens(s, i + 1)
  }

  function Quote(s: Text): Text {
    [QUOTE] + Tokens(s, 0) + [QUOTE]
  }

  // ---------- values ----------

  function Join(ts: seq<Text>): Text {
    if ts == [] then [] else if |ts| == 1 then ts[0] else ts[0] + [COMMA] + Join(ts[1..])
  }

  /** Insert before the first entry whose key is not smaller: equal keys keep the order they had. */
  function Insert(e: Entry, s: seq<Entry>, le: Order): seq<Entry> {
    if s == [] then [e]
    else if le(e.key, s[0].key) then [e] + s
    else [s[0]] + Insert(e, s[1..], le)
  }

  /** The result of a stable sort by key. */
  function Sort(es: seq<Entry>, le: Order): (r: seq<Entry>)
  {
    if es == [] then [] else Insert(es[0], Sort(es[1..], le), le)
  }

  lemma {:induction false} InsertKeeps(e: Entry, s: seq<Entry>, le: Order)
    ensures multiset(Insert(e, s, le)) == multiset([e] + s)
  {
    if s != [] {
      assert s == [s[0]] + s[1..];
      InsertKeeps(e, s[1..], le);
    }
  }

  lemma {:induction false} SortKeeps(es: seq<Entry>, le: Order)
    ensures multiset(Sort(es, le)) == multiset(es) && |Sort(es, le)| == |es|
  {
    if es != [] {
      assert es == [es[0]] + es[1..];
      SortKeeps(es[1..], le);
      InsertKeeps(es[0], Sort(es[1..], le), le);
    }
    assert |multiset(Sort(es, le))| == |multiset(es)|;
  }

  lemma SortedFrom(es: seq<Entry>, le: Order, e: Entry)
    ensures e in Sort(es, le) <==> e in es
  {
    SortKeeps(es, le);
    assert e in Sort(es, le) <==> e in multiset(Sort(es, le));
    assert e in es <==> e in multiset(es);
  }

  lemma SortedSmaller(es: seq<Entry>, le: Order, i: nat)
    requires i < |Sort(es, le)|
    ensures |Sort(es, le)| == |es| && Sort(es, le)[i] in es
    ensures Sort(es, le)[i].value < Obj(es)
  {
    SortKeeps(es, le);
    SortedFrom(es, le, Sort(es, le)[i]);
    var k :| 0 <= k < |es| && es[k] == Sort(es, le)[i];
    assert es[k] < Obj(es);
  }

  function Stable(v: Json, le: Order): Text {
    match v
    case Null => [110, 117, 108, 108]
    case Bool(b) => if b then [116, 114, 117, 101] else [102, 97, 108, 115, 101]
    case Num(text) => text
    case Str(s) => Quote(s)
    case Arr(items) => [OPEN_ARRAY] + Join(seq(|items|, i requires 0 <= i < |items| => Stable(items[i], le))) + [CLOSE_ARRAY]
    case Obj(es) =>
      var sorted := Sort(es, le);
      [OPEN_OBJECT]
      + Join(seq(|sorted|, i requires 0 <= i < |sorted| =>
          SortedSmaller(es, le, i);
          Quote(sorted[i].key) + [COLON] + Stable(sorted[i].value, le)))
      + [CLOSE_OBJECT]
  }

  // ---------- what values there are, and when two are the same ----------

  predicate NumUnit(u: Unit) {
    48 <= u < 58 || u == 43 || u == 45 || u == 46 || u == 101
  }

  function Value(digits: Text): int {
    if digits == [] then 0 else 10 * Value(digits[..|digits| - 1]) + digits[|digits| - 1] - 48
  }

  /** A key that is an array index: a number below 2^32 - 1 as it is printed. */
  predicate ArrayIndex(key: Text) {
    && key != [] && (forall i :: 0 <= i < |key| ==> 48 <= key[i] < 58)
    && (key[0] == 48 ==> |key| == 1)
    && Value(key) < 0xFFFF_FFFF
  }

  /** Every object lists the one key before the other. */
  predicate Fixed(a: Text, b: Text) {
    ArrayIndex(a) && (ArrayIndex(b) ==> Value(a) < Value(b))
  }

  predicate Enumerated(es: seq<Entry>) {
    forall i, j :: 0 <= i < j < |es| && ArrayIndex(es[j].key) ==> Fixed(es[i].key, es[j].key)
  }

  predicate Distinct(es: seq<Entry>) {
    forall i, j :: 0 <= i < j < |es| ==> es[i].key != es[j].key
  }

  /** Numbers print in number characters, and an object has every key once, in the order of enumeration. */
  ghost predicate Wf(v: Json) {
    match v
    case Num(text) => text != [] && forall i :: 0 <= i < |text| ==> NumUnit(text[i])
    case Arr(items) => forall i :: 0 <= i < |items| ==> Wf(items[i])
    case Obj(es) =>
      && (forall i :: 0 <= i < |es| ==> Wf(es[i].value))
      && Distinct(es) && Enumerated(es)
    case _ => true
  }

  function Keys(es: seq<Entry>): set<Text> {
    set e | e in es :: e.key
  }

  /** Equal up to the order of object keys, at any depth. */
  ghost predicate Same(v: Json, w: Json)
    decreases v
  {
    match (v, w)
    case (Arr(a), Arr(b)) => |a| == |b| && forall i :: 0 <= i < |a| ==> Same(a[i], b[i])
    case (Obj(a), Obj(b)) =>
      && |a| == |b| && Keys(a) == Keys(b)
      && (forall i, j :: 0 <= i < |a| && 0 <= j < |b| && a[i].key == b[j].key ==> Same(a[i].value, b[j].value))
    case _ => v == w
  }

  /** A collation: total and transitive, but possibly with ties between different keys. */
  ghost predicate Collation(le: Order) {
    && (forall a, b :: le(a, b) || le(b, a))
    && (forall a, b, c :: le(a, b) && le(b, c) ==> le(a, c))
  }

  /** Two keys the collation takes for equal, in an order that is not fixed. */
  predicate Tie(a: Text, b: Text, le: Order) {
    a != b && le(a, b) && le(b, a) && !ArrayIndex(a) && !ArrayIndex(b)
  }

  ghost predicate NoKeyTies(es: seq<Entry>, le: Order) {
    forall a, b :: a in Keys(es) && b in Keys(es) ==> !Tie(a, b, le)
  }

  /** No object in the value has two keys that tie. */
  ghost predicate NoTies(v: Json, le: Order) {
    match v
    case Arr(items) => forall i :: 0 <= i < |items| ==> NoTies(items[i], le)
    case Obj(es) =>
      && (forall i :: 0 <= i < |es| ==> NoTies(es[i].value, le))
      && NoKeyTies(es, le)
    case _ => true
  }

  // ---------- equal text gives the same value ----------

  lemma Cancel(a: Text, b: Text, x: Text, y: Text)
    requires a + x == b + y && |a| == |b|
    ensures a == b && x == y
  {
    assert a == (a + x)[..|a|] && b == (b + y)[..|b|];
    assert x == (a + x)[|a|..] && y == (b + y)[|b|..];
  }

  lemma Digits(u: Unit)
    ensures u == 4096 * (u / 4096) + 256 * (u / 256 % 16) + 16 * (u / 16 % 16) + u % 16
  {
    var a, b, c := u / 16, u / 256, u / 4096;
    assert u == 16 * a + u % 16 && a == 16 * b + a % 16 && b == 16 * c + b % 16;
  }

  lemma HexInjective(d: int, e: int)
    requires 0 <= d < 16 && 0 <= e < 16 && Hex(d) == Hex(e)
    ensures d == e
  {
  }

  lemma Hex4Injective(u: Unit, v: Unit)
    requires Hex4(u) == Hex4(v)
    ensures u == v
  {
    HexInjective(u / 4096, v / 4096) by { assert Hex4(u)[0] == Hex4(v)[0]; }
    HexInjective(u / 256 % 16, v / 256 % 16) by { assert Hex4(u)[1] == Hex4(v)[1]; }
    HexInjective(u / 16 % 16, v / 16 % 16) by { assert Hex4(u)[2] == Hex4(v)[2]; }
    HexInjective(u % 16, v % 16) by { assert Hex4(u)[3] == Hex4(v)[3]; }
    Digits(u);
    Digits(v);
  }

  /** A token says which unit it stands for, whatever follows it. */
  lemma TokenSplits(s: Text, i: nat, t: Text, j: nat, x: Text, y: Text)
    requires i < |s| && j < |t| && Token(s, i) + x == Token(t, j) + y
    ensures s[i] == t[j] && x == y && Token(s, i) == Token(t, j)
  {
    var a, b := Token(s, i), Token(t, j);
    assert a[0] == (a + x)[0] == (b + y)[0] == b[0];
    if a[0] == BACKSLASH {
      assert a[1] == (a + x)[1] == (b + y)[1] == b[1];
    }
    Cancel(a, b, x, y);
    if |a| == 6 {
      assert a[2..] == Hex4(s[i]) && b[2..] == Hex4(t[j]);
      Hex4Injective(s[i], t[j]);
    }
  }

  /** The rest of a quoted string from unit `i`, and what follows it. */
  function Rest(s: Text, i: nat, x: Text): Text
    requires i <= |s|
  {
    Tokens(s, i) + [QUOTE] + x
  }

  lemma RestOpens(s: Text, i: nat, x: Text)
    requires i <= |s|
    ensures i < |s| ==> Rest(s, i, x) == Token(s, i) + Rest(s, i + 1, x) && Rest(s, i, x)[0] != QUOTE
    ensures i == |s| ==> Rest(s, i, x) == [QUOTE] + x && Rest(s, i, x)[0] == QUOTE
  {
  }

  lemma {:induction false} TokensSplit(s: Text, i: nat, t: Text, j: nat, x: Text, y: Text)
    requires i <= |s| && j <= |t| && Rest(s, i, x) == Rest(t, j, y)
    ensures s[i..] == t[j..] && x == y
    decreases |s| - i
  {
    RestOpens(s, i, x);
    RestOpens(t, j, y);
    if i < |s| {
      TokenSplits(s, i, t, j, Rest(s, i + 1, x), Rest(t, j + 1, y));
      TokensSplit(s, i + 1, t, j + 1, x, y);
      assert s[i..] == [s[i]] + s[i + 1..] && t[j..] == [t[j]] + t[j + 1..];
    } else {
      Cancel([QUOTE], [QUOTE], x, y);
    }
  }

  lemma QuoteSplits(s: Text, t: Text, x: Text, y: Text)
    requires Quote(s) + x == Quote(t) + y
    ensures s == t && x == y
  {
    assert Quote(s) + x == [QUOTE] + Rest(s, 0, x) && Quote(t) + y == [QUOTE] + Rest(t, 0, y);
    Cancel([QUOTE], [QUOTE], Rest(s, 0, x), Rest(t, 0, y));
    TokensSplit(s, 0, t, 0, x, y);
    assert s[0..] == s && t[0..] == t;
  }

  predicate Closing(u: Unit) {
    u == CLOSE_ARRAY || u == CLOSE_OBJECT
  }

  /** What may follow a value inside a text. */
  predicate Ends(x: Text) {
    x == [] || x[0] == COMMA || Closing(x[0])
  }

  /** Wherever the two texts stand before such an end, they are told apart by themselves. */
  ghost predicate Apart(t: Text, u: Text) {
    forall x, y :: Ends(x) && Ends(y) && t + x == u + y ==> t == u && x == y
  }

  predicate Starts(t: Text) {
    t != [] && t[0] != COMMA && !Closing(t[0])
  }

  /** What follows the first element of a list, up to and with what closes it. */
  function After(ts: seq<Text>, x: Text): Text
    requires ts != []
  {
    if |ts| == 1 then x else [COMMA] + (Join(ts[1..]) + x)
  }

  lemma Assoc(a: Text, b: Text, c: Text, x: Text)
    ensures a + b + c + x == a + (b + (c + x))
  {
  }

  lemma JoinOpens(ts: seq<Text>, x: Text)
    requires x != [] && Closing(x[0]) && forall i :: 0 <= i < |ts| ==> Starts(ts[i])
    ensures ts == [] ==> Join(ts) + x == x
    ensures ts != [] ==> Join(ts) + x == ts[0] + After(ts, x) && Ends(After(ts, x)) && !Closing((Join(ts) + x)[0])
  {
    if |ts| == 0 {
      assert Join(ts) + x == x;
    } else {
      if |ts| > 1 {
        Assoc(ts[0], [COMMA], Join(ts[1..]), x);
      }
      assert (ts[0] + After(ts, x))[0] == ts[0][0];
    }
  }

  lemma {:induction false} JoinSplits(ts: seq<Text>, us: seq<Text>, x: Text, y: Text)
    requires forall i, j :: 0 <= i < |ts| && 0 <= j < |us| ==> Apart(ts[i], us[j])
    requires (forall i :: 0 <= i < |ts| ==> Starts(ts[i])) && (forall i :: 0 <= i < |us| ==> Starts(us[i]))
    requires x != [] && Closing(x[0]) && y != [] && Closing(y[0])
    requires Join(ts) + x == Join(us) + y
    ensures ts == us && x == y
    decreases |ts|
  {
    JoinOpens(ts, x);
    JoinOpens(us, y);
    if ts != [] {
      FirstSplits(ts[0], us[0], After(ts, x), After(us, y));
      AfterSplits(ts, us, x, y);
      if |ts| > 1 {
        TailsApart(ts, us);
        JoinSplits(ts[1..], us[1..], x, y);
        assert ts == [ts[0]] + ts[1..] && us == [us[0]] + us[1..];
      }
    }
  }

  lemma FirstSplits(t: Text, u: Text, x: Text, y: Text)
    requires Apart(t, u) && Ends(x) && Ends(y) && t + x == u + y
    ensures t == u && x == y
  {
  }

  lemma TailsApart(ts: seq<Text>, us: seq<Text>)
    requires ts != [] && us != [] && forall i, j :: 0 <= i < |ts| && 0 <= j < |us| ==> Apart(ts[i], us[j])
    ensures forall i, j :: 0 <= i < |ts[1..]| && 0 <= j < |us[1..]| ==> Apart(ts[1..][i], us[1..][j])
  {
    forall i, j | 0 <= i < |ts[1..]| && 0 <= j < |us[1..]| ensures Apart(ts[1..][i], us[1..][j]) {
      assert Apart(ts[i + 1], us[j + 1]);
    }
  }

  lemma AfterSplits(ts: seq<Text>, us: seq<Text>, x: Text, y: Text)
    requires ts != [] && us != [] && x != [] && Closing(x[0]) && y != [] && Closing(y[0]) && After(ts, x) == After(us, y)
    ensures |ts| == 1 <==> |us| == 1
    ensures if |ts| == 1 then x == y else Join(ts[1..]) + x == Join(us[1..]) + y
  {
    assert After(ts, x)[0] == After(us, y)[0];
    if |ts| > 1 { Cancel([COMMA], [COMMA], Join(ts[1..]) + x, Join(us[1..]) + y); }
  }

  function Member(e: Entry, le: Order): Text {
    Quote(e.key) + [COLON] + Stable(e.value, le)
  }

  function Items(vs: seq<Json>, le: Order): (ts: seq<Text>)
    ensures |ts| == |vs| && forall i :: 0 <= i < |vs| ==> ts[i] == Stable(vs[i], le)
  {
    seq(|vs|, i requires 0 <= i < |vs| => Stable(vs[i], le))
  }

  function Members(es: seq<Entry>, le: Order): (ts: seq<Text>)
    ensures |ts| == |es| && forall i :: 0 <= i < |es| ==> ts[i] == Member(es[i], le)
  {
    seq(|es|, i requires 0 <= i < |es| => Member(es[i], le))
  }

  lemma StableArr(vs: seq<Json>, le: Order)
    ensures Stable(Arr(vs), le) == [OPEN_ARRAY] + Join(Items(vs, le)) + [CLOSE_ARRAY]
  {
  }

  lemma StableObj(es: seq<Entry>, le: Order)
    ensures Stable(Obj(es), le) == [OPEN_OBJECT] + Join(Members(Sort(es, le), le)) + [CLOSE_OBJECT]
  {
    var sorted := Sort(es, le);
    var ts := seq(|sorted|, i requires 0 <= i < |sorted| =>
          SortedSmaller(es, le, i);
          Quote(sorted[i].key) + [COLON] + Stable(sorted[i].value, le));
    assert ts == Members(sorted, le);
  }

  /** The first unit tells the kind of value. */
  function Kind(u: Unit): nat {
    match u
    case 110 => 0
    case 116 => 1
    case 102 => 1
    case 34 => 3
    case 91 => 4
    case 123 => 5
    case _ => 2
  }

  function KindOf(v: Json): nat {
    match v
    case Null => 0
    case Bool(_) => 1
    case Num(_) => 2
    case Str(_) => 3
    case Arr(_) => 4
    case Obj(_) => 5
  }

  lemma StableStarts(v: Json, le: Order)
    requires Wf(v)
    ensures Starts(Stable(v, le)) && Kind(Stable(v, le)[0]) == KindOf(v)
  {
  }

  lemma NumbersSplit(a: Text, b: Text, x: Text, y: Text)
    requires (forall i :: 0 <= i < |a| ==> NumUnit(a[i])) && (forall i :: 0 <= i < |b| ==> NumUnit(b[i]))
    requires Ends(x) && Ends(y) && a + x == b + y
    ensures a == b && x == y
  {
    var i := if |a| < |b| then |a| else |b|;
    if i < |a + x| {
      assert (a + x)[i] == (b + y)[i];
    }
    Cancel(a, b, x, y);
  }

  /** No text of a value runs into what follows it: equal continuations have equal values' texts. */
  lemma {:induction false} TextsApart(v: Json, w: Json, le: Order)
    requires Wf(v) && Wf(w)
    ensures Apart(Stable(v, le), Stable(w, le))
    decreases v
  {
    forall x, y | Ends(x) && Ends(y) && Stable(v, le) + x == Stable(w, le) + y
      ensures Stable(v, le) == Stable(w, le) && x == y
    {
      TextsSplit(v, w, x, y, le);
    }
  }

  lemma ArraysSplit(vs: seq<Json>, ws: seq<Json>, x: Text, y: Text, le: Order)
    requires Wf(Arr(vs)) && Wf(Arr(ws)) && Ends(x) && Ends(y) && Stable(Arr(vs), le) + x == Stable(Arr(ws), le) + y
    requires forall i, j :: 0 <= i < |vs| && 0 <= j < |ws| ==> Apart(Stable(vs[i], le), Stable(ws[j], le))
    ensures Stable(Arr(vs), le) == Stable(Arr(ws), le) && x == y
  {
    StableArr(vs, le);
    StableArr(ws, le);
    forall i | 0 <= i < |vs| ensures Starts(Stable(vs[i], le)) { StableStarts(vs[i], le); }
    forall i | 0 <= i < |ws| ensures Starts(Stable(ws[i], le)) { StableStarts(ws[i], le); }
    ListsSplit(OPEN_ARRAY, Items(vs, le), Items(ws, le), CLOSE_ARRAY, x, y);
  }

  lemma ObjectsSplit(es: seq<Entry>, fs: seq<Entry>, x: Text, y: Text, le: Order)
    requires Wf(Obj(es)) && Wf(Obj(fs)) && Ends(x) && Ends(y) && Stable(Obj(es), le) + x == Stable(Obj(fs), le) + y
    requires var s, t := Sort(es, le), Sort(fs, le);
             forall i, j :: 0 <= i < |s| && 0 <= j < |t| ==> Apart(Member(s[i], le), Member(t[j], le))
    ensures Stable(Obj(es), le) == Stable(Obj(fs), le) && x == y
  {
    StableObj(es, le);
    StableObj(fs, le);
    ListsSplit(OPEN_OBJECT, Members(Sort(es, le), le), Members(Sort(fs, le), le), CLOSE_OBJECT, x, y);
  }

  lemma {:induction false} TextsSplit(v: Json, w: Json, x: Text, y: Text, le: Order)
    requires Wf(v) && Wf(w) && Ends(x) && Ends(y) && Stable(v, le) + x == Stable(w, le) + y
    ensures Stable(v, le) == Stable(w, le) && x == y
    decreases v, 0
  {
    StableStarts(v, le);
    StableStarts(w, le);
    assert (Stable(v, le) + x)[0] == Stable(v, le)[0] && (Stable(w, le) + y)[0] == Stable(w, le)[0];
    match (v, w)
    case (Null, Null) => Cancel(Stable(v, le), Stable(w, le), x, y);
    case (Bool(_), Bool(_)) => Cancel(Stable(v, le), Stable(w, le), x, y);
    case (Num(a), Num(b)) => NumbersSplit(a, b, x, y);
    case (Str(a), Str(b)) => QuoteSplits(a, b, x, y);
    case (Arr(vs), Arr(ws)) =>
      forall i, j | 0 <= i < |vs| && 0 <= j < |ws| ensures Apart(Stable(vs[i], le), Stable(ws[j], le)) { TextsApart(vs[i], ws[j], le); }
      ArraysSplit(vs, ws, x, y, le);
    case (Obj(es), Obj(fs)) =>
      forall i, j | 0 <= i < |Sort(es, le)| && 0 <= j < |Sort(fs, le)|
        ensures Apart(Member(Sort(es, le)[i], le), Member(Sort(fs, le)[j], le))
      {
        SortedSmaller(es, le, i);
        SortedSmaller(fs, le, j);
        TextsApart(Sort(es, le)[i].value, Sort(fs, le)[j].value, le);
        MembersApart(Sort(es, le)[i], Sort(fs, le)[j], le);
      }
      ObjectsSplit(es, fs, x, y, le);
    case _ => assert false;
  }

  lemma MembersApart(e: Entry, f: Entry, le: Order)
    requires Apart(Stable(e.value, le), Stable(f.value, le))
    ensures Apart(Member(e, le), Member(f, le))
    ensures Member(e, le) == Member(f, le) ==> e.key == f.key && Stable(e.value, le) == Stable(f.value, le)
  {
    forall x, y | Ends(x) && Ends(y) && Member(e, le) + x == Member(f, le) + y
      ensures e.key == f.key && Stable(e.value, le) == Stable(f.value, le) && x == y
    {
      var p, q := Stable(e.value, le) + x, Stable(f.value, le) + y;
      Assoc(Quote(e.key), [COLON], Stable(e.value, le), x);
      Assoc(Quote(f.key), [COLON], Stable(f.value, le), y);
      QuoteSplits(e.key, f.key, [COLON] + p, [COLON] + q);
      Cancel([COLON], [COLON], p, q);
    }
    if Member(e, le) == Member(f, le) {
      assert Member(e, le) + [] == Member(f, le) + [];
    }
  }

  lemma ListsSplit(open: Unit, ts: seq<Text>, us: seq<Text>, close: Unit, x: Text, y: Text)
    requires forall i, j :: 0 <= i < |ts| && 0 <= j < |us| ==> Apart(ts[i], us[j])
    requires (forall i :: 0 <= i < |ts| ==> Starts(ts[i])) && (forall i :: 0 <= i < |us| ==> Starts(us[i]))
    requires Closing(close) && [open] + Join(ts) + [close] + x == [open] + Join(us) + [close] + y
    ensures ts == us && x == y
  {
    Assoc([open], Join(ts), [close], x);
    Assoc([open], Join(us), [close], y);
    Cancel([open], [open], Join(ts) + ([close] + x), Join(us) + ([close] + y));
    JoinSplits(ts, us, [close] + x, [close] + y);
    Cancel([close], [close], x, y);
  }

  lemma {:induction false} TextDetermines(v: Json, w: Json, le: Order)
    requires Wf(v) && Wf(w) && Stable(v, le) == Stable(w, le)
    ensures Same(v, w)
    decreases v
  {
    StableStarts(v, le);
    StableStarts(w, le);
    match (v, w)
    case (Str(a), Str(b)) => QuoteSplits(a, b, [], []);
    case (Arr(vs), Arr(ws)) =>
      ArrayTexts(vs, ws, le);
      forall i | 0 <= i < |vs| ensures Same(vs[i], ws[i]) { TextDetermines(vs[i], ws[i], le); }
    case (Obj(es), Obj(fs)) =>
      ObjectTexts(es, fs, le);
      var s, t := Sort(es, le), Sort(fs, le);
      forall i | 0 <= i < |s| ensures Same(s[i].value, t[i].value) {
        SortedSmaller(es, le, i);
        SortedSmaller(fs, le, i);
        TextDetermines(s[i].value, t[i].value, le);
      }
      SortedSame(es, fs, s, t, le);
    case _ =>
  }

  lemma ArrayTexts(vs: seq<Json>, ws: seq<Json>, le: Order)
    requires Wf(Arr(vs)) && Wf(Arr(ws)) && Stable(Arr(vs), le) == Stable(Arr(ws), le)
    ensures |vs| == |ws| && forall i :: 0 <= i < |vs| ==> Stable(vs[i], le) == Stable(ws[i], le)
  {
    StableArr(vs, le);
    StableArr(ws, le);
    forall i, j | 0 <= i < |vs| && 0 <= j < |ws| ensures Apart(Stable(vs[i], le), Stable(ws[j], le)) { TextsApart(vs[i], ws[j], le); }
    forall i | 0 <= i < |vs| ensures Starts(Stable(vs[i], le)) { StableStarts(vs[i], le); }
    forall i | 0 <= i < |ws| ensures Starts(Stable(ws[i], le)) { StableStarts(ws[i], le); }
    ListsSplit(OPEN_ARRAY, Items(vs, le), Items(ws, le), CLOSE_ARRAY, [], []);
    forall i | 0 <= i < |vs| ensures Stable(vs[i], le) == Stable(ws[i], le) {
      assert Items(vs, le)[i] == Items(ws, le)[i];
    }
  }

  lemma MembersDetermine(es: seq<Entry>, fs: seq<Entry>, i: nat, j: nat, le: Order)
    requires Wf(Obj(es)) && Wf(Obj(fs)) && i < |Sort(es, le)| && j < |Sort(fs, le)|
    ensures var e, f := Sort(es, le)[i], Sort(fs, le)[j];
            && Apart(Member(e, le), Member(f, le))
            && (Member(e, le) == Member(f, le) ==> e.key == f.key && Stable(e.value, le) == Stable(f.value, le))
  {
    var e, f := Sort(es, le)[i], Sort(fs, le)[j];
    SortedSmaller(es, le, i);
    SortedSmaller(fs, le, j);
    var k :| 0 <= k < |es| && es[k] == e;
    var l :| 0 <= l < |fs| && fs[l] == f;
    TextsApart(e.value, f.value, le);
    MembersApart(e, f, le);
  }

  lemma ObjectTexts(es: seq<Entry>, fs: seq<Entry>, le: Order)
    requires Wf(Obj(es)) && Wf(Obj(fs)) && Stable(Obj(es), le) == Stable(Obj(fs), le)
    ensures var s, t := Sort(es, le), Sort(fs, le);
            |s| == |t| && forall i :: 0 <= i < |s| ==> s[i].key == t[i].key && Stable(s[i].value, le) == Stable(t[i].value, le)
  {
    StableObj(es, le);
    StableObj(fs, le);
    var s, t := Sort(es, le), Sort(fs, le);
    forall i, j | 0 <= i < |s| && 0 <= j < |t| ensures Apart(Member(s[i], le), Member(t[j], le)) {
      MembersDetermine(es, fs, i, j, le);
    }
    SameMembers(s, t, le);
    forall i | 0 <= i < |s| ensures s[i].key == t[i].key && Stable(s[i].value, le) == Stable(t[i].value, le) {
      MembersDetermine(es, fs, i, i, le);
    }
  }

  lemma SameMembers(s: seq<Entry>, t: seq<Entry>, le: Order)
    requires [OPEN_OBJECT] + Join(Members(s, le)) + [CLOSE_OBJECT] == [OPEN_OBJECT] + Join(Members(t, le)) + [CLOSE_OBJECT]
    requires forall i, j :: 0 <= i < |s| && 0 <= j < |t| ==> Apart(Member(s[i], le), Member(t[j], le))
    ensures |s| == |t| && forall i :: 0 <= i < |s| ==> Member(s[i], le) == Member(t[i], le)
  {
    ListsSplit(OPEN_OBJECT, Members(s, le), Members(t, le), CLOSE_OBJECT, [], []);
    forall i | 0 <= i < |s| ensures Member(s[i], le) == Member(t[i], le) {
      assert Members(s, le)[i] == Members(t, le)[i];
    }
  }

  lemma KeysSorted(es: seq<Entry>, le: Order)
    ensures Keys(Sort(es, le)) == Keys(es)
  {
    forall e ensures e in Sort(es, le) <==> e in es { SortedFrom(es, le, e); }
  }

  lemma KeysPointwise(s: seq<Entry>, t: seq<Entry>)
    requires |s| == |t| && forall i :: 0 <= i < |s| ==> s[i].key == t[i].key
    ensures Keys(s) == Keys(t)
  {
  }

  /** Two entries with one key sit at the same place of the two sorted lists. */
  lemma SamePlace(es: seq<Entry>, fs: seq<Entry>, s: seq<Entry>, t: seq<Entry>, i: nat, j: nat, le: Order) returns (k: nat)
    requires s == Sort(es, le) && t == Sort(fs, le) && |s| == |t| && Wf(Obj(fs))
    requires forall k :: 0 <= k < |s| ==> s[k].key == t[k].key
    requires i < |es| && j < |fs| && es[i].key == fs[j].key
    ensures k < |s| && s[k] == es[i] && t[k] == fs[j]
  {
    SortedFrom(es, le, es[i]);
    k :| 0 <= k < |s| && s[k] == es[i];
    SortedFrom(fs, le, t[k]);
    var l :| 0 <= l < |fs| && fs[l] == t[k];
  }

  /** Sorted entry by entry the same, so the same up to order. */
  lemma SortedSame(es: seq<Entry>, fs: seq<Entry>, s: seq<Entry>, t: seq<Entry>, le: Order)
    requires s == Sort(es, le) && t == Sort(fs, le) && |s| == |t| && Wf(Obj(fs))
    requires forall i :: 0 <= i < |s| ==> s[i].key == t[i].key && Same(s[i].value, t[i].value)
    ensures Same(Obj(es), Obj(fs))
  {
    SortKeeps(es, le);
    SortKeeps(fs, le);
    KeysSorted(es, le);
    KeysSorted(fs, le);
    KeysPointwise(s, t);
    forall i, j | 0 <= i < |es| && 0 <= j < |fs| && es[i].key == fs[j].key ensures Same(es[i].value, fs[j].value) {
      var k := SamePlace(es, fs, s, t, i, j, le);
    }
  }

  // ---------- the same value gives equal text ----------

  ghost predicate InOrder(s: seq<Entry>, le: Order) {
    forall i, j :: 0 <= i < j < |s| ==> le(s[i].key, s[j].key)
  }

  lemma {:induction false} InsertOrders(e: Entry, s: seq<Entry>, le: Order)
    requires Collation(le) && InOrder(s, le)
    ensures InOrder(Insert(e, s, le), le)
  {
    if s != [] && !le(e.key, s[0].key) {
      InsertOrders(e, s[1..], le);
      var r := Insert(e, s[1..], le);
      InsertKeeps(e, s[1..], le);
      forall i | 0 <= i < |r| ensures le(s[0].key, r[i].key) {
        assert r[i] in multiset(r);
        assert r[i] in multiset([e] + s[1..]);
      }
    }
  }

  lemma {:induction false} SortOrders(es: seq<Entry>, le: Order)
    requires Collation(le)
    ensures InOrder(Sort(es, le), le)
  {
    if es != [] {
      SortOrders(es[1..], le);
      InsertOrders(es[0], Sort(es[1..], le), le);
    }
  }

  /** Strictly smaller: by the collation, or tied and in fixed order. */
  predicate Less(a: Text, b: Text, le: Order) {
    le(a, b) && (le(b, a) ==> Fixed(a, b))
  }

  ghost predicate Strict(s: seq<Entry>, le: Order) {
    forall i, j :: 0 <= i < j < |s| ==> s[i].key != s[j].key && Less(s[i].key, s[j].key, le)
  }

  lemma HeadIsLeast(s: seq<Entry>, key: Text, le: Order)
    requires Strict(s, le) && key in Keys(s)
    ensures s != [] && (key == s[0].key || Less(s[0].key, key, le))
  {
  }

  lemma TailKeys(s: seq<Entry>, le: Order)
    requires s != [] && Strict(s, le)
    ensures Keys(s[1..]) == Keys(s) - {s[0].key} && Strict(s[1..], le)
  {
  }

  /** Two strictly sorted lists with the same keys have them in the same places. */
  lemma {:induction false} SameKeysSamePlaces(s: seq<Entry>, t: seq<Entry>, le: Order)
    requires Strict(s, le) && Strict(t, le) && Keys(s) == Keys(t)
    ensures |s| == |t| && forall i :: 0 <= i < |s| ==> s[i].key == t[i].key
    decreases |s|
  {
    assert t != [] ==> t[0].key in Keys(t);
    if s != [] {
      assert s[0] in s && s[0].key in Keys(s);
      HeadIsLeast(t, s[0].key, le);
      assert t[0] in t && t[0].key in Keys(t);
      HeadIsLeast(s, t[0].key, le);
      TailKeys(s, le);
      TailKeys(t, le);
      SameKeysSamePlaces(s[1..], t[1..], le);
      forall i | 0 < i < |s| ensures s[i].key == t[i].key {
        assert s[i] == s[1..][i - 1] && t[i] == t[1..][i - 1];
      }
    }
  }

  lemma DistinctTail(es: seq<Entry>)
    requires es != [] && Distinct(es)
    ensures Distinct(es[1..]) && forall e :: e in es[1..] ==> e.key != es[0].key
  {
    var rest := es[1..];
    forall i, j | 0 <= i < j < |rest| ensures rest[i].key != rest[j].key {
      assert rest[i] == es[i + 1] && rest[j] == es[j + 1];
    }
    forall e | e in rest ensures e.key != es[0].key {
      var i :| 0 <= i < |rest| && rest[i] == e;
      assert e == es[i + 1];
    }
  }

  lemma DistinctHead(e: Entry, s: seq<Entry>)
    requires Distinct(s) && forall f :: f in s ==> f.key != e.key
    ensures Distinct([e] + s)
  {
    var all := [e] + s;
    forall i, j | 0 <= i < j < |all| ensures all[i].key != all[j].key {
      assert all[j] == s[j - 1] && all[j] in s;
      assert i > 0 ==> all[i] == s[i - 1];
    }
  }

  lemma InsertedFrom(e: Entry, s: seq<Entry>, le: Order, f: Entry)
    ensures f in Insert(e, s, le) <==> f == e || f in s
  {
    InsertKeeps(e, s, le);
    assert f in Insert(e, s, le) <==> f in multiset(Insert(e, s, le));
    assert f in [e] + s <==> f in multiset([e] + s);
  }

  lemma {:induction false} DistinctInserted(e: Entry, s: seq<Entry>, le: Order)
    requires Distinct(s) && forall f :: f in s ==> f.key != e.key
    ensures Distinct(Insert(e, s, le))
  {
    if s == [] || le(e.key, s[0].key) {
      DistinctHead(e, s);
    } else {
      DistinctTail(s);
      DistinctInserted(e, s[1..], le);
      forall f | f in Insert(e, s[1..], le) ensures f.key != s[0].key { InsertedFrom(e, s[1..], le, f); }
      DistinctHead(s[0], Insert(e, s[1..], le));
    }
  }

  lemma {:induction false} DistinctSorted(es: seq<Entry>, le: Order)
    requires Distinct(es)
    ensures Distinct(Sort(es, le))
  {
    if es != [] {
      DistinctTail(es);
      DistinctSorted(es[1..], le);
      forall f | f in Sort(es[1..], le) ensures f.key != es[0].key { SortedFrom(es[1..], le, f); }
      DistinctInserted(es[0], Sort(es[1..], le), le);
    }
  }

  /** Tied entries come out of the sort as they went in. */
  lemma TiedStay(es: seq<Entry>, p: nat, q: nat, i: nat, j: nat, le: Order)
    requires Distinct(es) && p < |es| && q < |es| && i < j < |Sort(es, le)|
    requires Sort(es, le)[i] == es[p] && Sort(es, le)[j] == es[q] && le(es[q].key, es[p].key)
    ensures p < q
  {
    DistinctSorted(es, le);
    if q < p {
      SortKeepsBefore(es, q, p, le);
    }
  }

  lemma StrictPair(es: seq<Entry>, i: nat, j: nat, le: Order)
    requires Collation(le) && Distinct(es) && Enumerated(es) && NoKeyTies(es, le) && i < j < |Sort(es, le)|
    ensures var s := Sort(es, le); s[i].key != s[j].key && Less(s[i].key, s[j].key, le)
  {
    var s := Sort(es, le);
    SortOrders(es, le);
    DistinctSorted(es, le);
    SortedFrom(es, le, s[i]);
    SortedFrom(es, le, s[j]);
    var p :| 0 <= p < |es| && es[p] == s[i];
    var q :| 0 <= q < |es| && es[q] == s[j];
    if le(s[j].key, s[i].key) {
      TiedStay(es, p, q, i, j, le);
      assert es[p].key in Keys(es) && es[q].key in Keys(es);
      assert !Tie(es[p].key, es[q].key, le);
    }
  }

  lemma StrictlySorted(es: seq<Entry>, le: Order)
    requires Collation(le) && Wf(Obj(es)) && NoKeyTies(es, le)
    ensures Strict(Sort(es, le), le)
  {
    forall i, j | 0 <= i < j < |Sort(es, le)|
      ensures Sort(es, le)[i].key != Sort(es, le)[j].key && Less(Sort(es, le)[i].key, Sort(es, le)[j].key, le)
    {
      StrictPair(es, i, j, le);
    }
  }

  lemma {:induction false} ValueDetermines(v: Json, w: Json, le: Order)
    requires Collation(le) && Wf(v) && Wf(w) && NoTies(v, le) && Same(v, w)
    ensures Stable(v, le) == Stable(w, le)
    decreases v
  {
    match (v, w)
    case (Arr(vs), Arr(ws)) =>
      forall i | 0 <= i < |vs| ensures Stable(vs[i], le) == Stable(ws[i], le) { ValueDetermines(vs[i], ws[i], le); }
      StableArr(vs, le);
      StableArr(ws, le);
      assert Items(vs, le) == Items(ws, le);
    case (Obj(es), Obj(fs)) =>
      var s, t := Sort(es, le), Sort(fs, le);
      KeysSorted(es, le);
      KeysSorted(fs, le);
      StrictlySorted(es, le);
      StrictlySorted(fs, le);
      SameKeysSamePlaces(s, t, le);
      forall i | 0 <= i < |s| ensures Member(s[i], le) == Member(t[i], le) {
        SortedSmaller(es, le, i);
        SortedSmaller(fs, le, i);
        ValueDetermines(s[i].value, t[i].value, le);
      }
      StableObj(es, le);
      StableObj(fs, le);
      assert Members(s, le) == Members(t, le);
    case _ =>
  }

  /** For values whose keys the collation tells apart, equal text means the same value up to key order, and only that. */
  lemma TextIsValue(v: Json, w: Json, le: Order)
    requires Collation(le) && Wf(v) && Wf(w) && NoTies(v, le)
    ensures Stable(v, le) == Stable(w, le) <==> Same(v, w)
  {
    if Stable(v, le) == Stable(w, le) {
      TextDetermines(v, w, le);
    }
    if Same(v, w) {
      ValueDetermines(v, w, le);
    }
  }

  // ---------- with a tie, key order shows ----------

  lemma {:induction false} SameAsItself(v: Json)
    requires Wf(v)
    ensures Same(v, v)
    decreases v
  {
    match v
    case Arr(vs) => forall i | 0 <= i < |vs| ensures Same(vs[i], vs[i]) { SameAsItself(vs[i]); }
    case Obj(es) => forall i | 0 <= i < |es| ensures Same(es[i].value, es[i].value) { SameAsItself(es[i].value); }
    case _ =>
  }

  ghost predicate Before(s: seq<Entry>, e: Entry, f: Entry) {
    exists a, b :: 0 <= a < b < |s| && s[a] == e && s[b] == f
  }

  lemma {:induction false} InsertBefore(e: Entry, s: seq<Entry>, f: Entry, le: Order)
    requires f in s && le(e.key, f.key)
    ensures Before(Insert(e, s, le), e, f)
  {
    var r := Insert(e, s, le);
    if le(e.key, s[0].key) {
      var k :| 0 <= k < |s| && s[k] == f;
      assert r[0] == e && r[k + 1] == f;
    } else {
      InsertBefore(e, s[1..], f, le);
      var a, b :| 0 <= a < b < |r[1..]| && r[1..][a] == e && r[1..][b] == f;
      assert r[a + 1] == e && r[b + 1] == f;
    }
  }

  lemma {:induction false} InsertSplits(x: Entry, s: seq<Entry>, le: Order) returns (k: nat)
    ensures k <= |s| && Insert(x, s, le) == s[..k] + [x] + s[k..]
  {
    if s == [] || le(x.key, s[0].key) {
      k := 0;
    } else {
      var l := InsertSplits(x, s[1..], le);
      k := l + 1;
      assert s[..k] == [s[0]] + s[1..][..l] && s[k..] == s[1..][l..];
    }
  }

  lemma InsertLeavesBefore(x: Entry, s: seq<Entry>, e: Entry, f: Entry, le: Order)
    requires Before(s, e, f)
    ensures Before(Insert(x, s, le), e, f)
  {
    var r := Insert(x, s, le);
    var a, b :| 0 <= a < b < |s| && s[a] == e && s[b] == f;
    var k := InsertSplits(x, s, le);
    var c, d := if a < k then a else a + 1, if b < k then b else b + 1;
    assert 0 <= c < d < |r| && r[c] == e && r[d] == f;
  }

  /** A stable sort keeps the order of entries that may stand in it. */
  lemma {:induction false} SortKeepsBefore(es: seq<Entry>, p: nat, q: nat, le: Order)
    requires p < q < |es| && le(es[p].key, es[q].key)
    ensures Before(Sort(es, le), es[p], es[q])
  {
    if p == 0 {
      SortedFrom(es[1..], le, es[q]);
      assert es[1..][q - 1] == es[q];
      InsertBefore(es[0], Sort(es[1..], le), es[q], le);
    } else {
      SortKeepsBefore(es[1..], p - 1, q - 1, le);
      InsertLeavesBefore(es[0], Sort(es[1..], le), es[p], es[q], le);
    }
  }

  /** The entry at `q` moved up to `p`. */
  function Advanced(es: seq<Entry>, p: nat, q: nat): (fs: seq<Entry>)
    requires p < q < |es|
    ensures |fs| == |es| && fs[p] == es[q] && fs[p + 1] == es[p]
    ensures forall i :: 0 <= i < |es| ==> fs[i] == if i < p then es[i] else if i == p then es[q] else if i <= q then es[i - 1] else es[i]
  {
    es[..p] + [es[q]] + es[p..q] + es[q + 1..]
  }

  lemma AdvancedHas(es: seq<Entry>, p: nat, q: nat)
    requires p < q < |es|
    ensures forall e :: e in Advanced(es, p, q) <==> e in es
  {
    var fs := Advanced(es, p, q);
    forall e | e in es ensures e in fs {
      var i :| 0 <= i < |es| && es[i] == e;
      assert fs[if i == q then p else if p <= i < q then i + 1 else i] == e;
    }
  }

  lemma AdvancedDistinct(es: seq<Entry>, p: nat, q: nat)
    requires Distinct(es) && p < q < |es|
    ensures Distinct(Advanced(es, p, q))
  {
  }

  lemma AdvancedEnumerated(es: seq<Entry>, p: nat, q: nat)
    requires Enumerated(es) && p < q < |es| && !ArrayIndex(es[p].key) && !ArrayIndex(es[q].key)
    ensures Enumerated(Advanced(es, p, q))
  {
    var fs := Advanced(es, p, q);
    assert forall j :: p <= j < |es| ==> !ArrayIndex(es[j].key);
    assert forall j :: p <= j < |fs| ==> !ArrayIndex(fs[j].key);
    assert forall j :: 0 <= j < p ==> fs[j] == es[j];
  }

  lemma AdvancedWf(es: seq<Entry>, p: nat, q: nat)
    requires Wf(Obj(es)) && p < q < |es| && !ArrayIndex(es[p].key) && !ArrayIndex(es[q].key)
    ensures Wf(Obj(Advanced(es, p, q)))
  {
    AdvancedDistinct(es, p, q);
    AdvancedEnumerated(es, p, q);
  }

  lemma AdvancedSame(es: seq<Entry>, p: nat, q: nat)
    requires Wf(Obj(es)) && p < q < |es|
    ensures Same(Obj(es), Obj(Advanced(es, p, q)))
  {
    AdvancedHas(es, p, q);
    SameEntries(es, Advanced(es, p, q));
  }

  /** The same entries in another order are the same object. */
  lemma SameEntries(es: seq<Entry>, fs: seq<Entry>)
    requires Wf(Obj(es)) && |es| == |fs| && forall e :: e in fs <==> e in es
    ensures Same(Obj(es), Obj(fs))
  {
    forall i, j | 0 <= i < |es| && 0 <= j < |fs| && es[i].key == fs[j].key ensures Same(es[i].value, fs[j].value) {
      assert fs[j] in es;
      var k :| 0 <= k < |es| && es[k] == fs[j];
      assert k == i;
      SameAsItself(es[i].value);
    }
    SameKeySets(es, fs);
  }

  lemma SameKeySets(es: seq<Entry>, fs: seq<Entry>)
    requires forall e :: e in fs <==> e in es
    ensures Keys(es) == Keys(fs)
  {
    assert forall e :: e in es ==> e.key in Keys(es);
    assert forall e :: e in fs ==> e.key in Keys(fs);
  }

  /** Two entries come out of two sorts in opposite order. */
  lemma OppositeOrder(es: seq<Entry>, fs: seq<Entry>, e: Entry, f: Entry, le: Order)
    requires Distinct(es) && e.key != f.key && Before(Sort(es, le), e, f) && Before(Sort(fs, le), f, e)
    requires |Sort(es, le)| == |Sort(fs, le)|
    ensures exists i :: 0 <= i < |Sort(es, le)| && Sort(es, le)[i].key != Sort(fs, le)[i].key
  {
    var s, t := Sort(es, le), Sort(fs, le);
    DistinctSorted(es, le);
    var a, b :| 0 <= a < b < |s| && s[a] == e && s[b] == f;
    var c, d :| 0 <= c < d < |t| && t[c] == f && t[d] == e;
    assert s[c].key != t[c].key || s[d].key != t[d].key;
  }

  lemma TiedKeysShow(es: seq<Entry>, p: nat, q: nat, le: Order)
    requires Wf(Obj(es)) && p < q < |es| && Tie(es[p].key, es[q].key, le)
    ensures Stable(Obj(es), le) != Stable(Obj(Advanced(es, p, q)), le)
  {
    var fs := Advanced(es, p, q);
    AdvancedWf(es, p, q);
    if Stable(Obj(es), le) == Stable(Obj(fs), le) {
      ObjectTexts(es, fs, le);
      SortKeepsBefore(es, p, q, le);
      SortKeepsBefore(fs, p, p + 1, le);
      OppositeOrder(es, fs, es[p], es[q], le);
    }
  }

  lemma EntryReplaced(es: seq<Entry>, i: nat, w: Json)
    requires Wf(Obj(es)) && i < |es| && Wf(w) && Same(es[i].value, w)
    ensures var fs := es[i := Entry(es[i].key, w)]; Wf(Obj(fs)) && Same(Obj(es), Obj(fs))
  {
    var fs := es[i := Entry(es[i].key, w)];
    KeysPointwise(es, fs);
    forall k, l | 0 <= k < |es| && 0 <= l < |fs| && es[k].key == fs[l].key ensures Same(es[k].value, fs[l].value) {
      SameAsItself(es[k].value);
    }
  }

  lemma EntryShows(es: seq<Entry>, i: nat, w: Json, le: Order)
    requires Wf(Obj(es)) && i < |es| && Wf(w) && Same(es[i].value, w) && Stable(es[i].value, le) != Stable(w, le)
    ensures Stable(Obj(es), le) != Stable(Obj(es[i := Entry(es[i].key, w)]), le)
  {
    var fs := es[i := Entry(es[i].key, w)];
    EntryReplaced(es, i, w);
    if Stable(Obj(es), le) == Stable(Obj(fs), le) {
      ObjectTexts(es, fs, le);
      var k := SamePlace(es, fs, Sort(es, le), Sort(fs, le), i, i, le);
    }
  }

  lemma ItemShows(vs: seq<Json>, i: nat, w: Json, le: Order)
    requires Wf(Arr(vs)) && i < |vs| && Wf(w) && Same(vs[i], w) && Stable(vs[i], le) != Stable(w, le)
    ensures Wf(Arr(vs[i := w])) && Same(Arr(vs), Arr(vs[i := w])) && Stable(Arr(vs), le) != Stable(Arr(vs[i := w]), le)
  {
    forall k | 0 <= k < |vs| ensures Same(vs[k], vs[i := w][k]) { SameAsItself(vs[k]); }
    if Stable(Arr(vs), le) == Stable(Arr(vs[i := w]), le) {
      ArrayTexts(vs, vs[i := w], le);
    }
  }

  /** A value with a tie has a reordering, one that `Object.entries` can give, that prints differently. */
  lemma {:induction false} TiesShow(v: Json, le: Order) returns (w: Json)
    requires Wf(v) && !NoTies(v, le)
    ensures Wf(w) && Same(v, w) && Stable(v, le) != Stable(w, le)
    decreases v
  {
    match v
    case Arr(vs) =>
      var i :| 0 <= i < |vs| && !NoTies(vs[i], le);
      var x := TiesShow(vs[i], le);
      ItemShows(vs, i, x, le);
      w := Arr(vs[i := x]);
    case Obj(es) =>
      if i :| 0 <= i < |es| && !NoTies(es[i].value, le) {
        var x := TiesShow(es[i].value, le);
        EntryReplaced(es, i, x);
        EntryShows(es, i, x, le);
        w := Obj(es[i := Entry(es[i].key, x)]);
      } else {
        var p, q := TiedPair(es, le);
        AdvancedWf(es, p, q);
        AdvancedSame(es, p, q);
        TiedKeysShow(es, p, q, le);
        w := Obj(Advanced(es, p, q));
      }
  }

  lemma TiedPair(es: seq<Entry>, le: Order) returns (p: nat, q: nat)
    requires !NoKeyTies(es, le)
    ensures p < q < |es| && Tie(es[p].key, es[q].key, le)
  {
    var a, b :| a in Keys(es) && b in Keys(es) && Tie(a, b, le);
    var e :| e in es && e.key == a;
    var f :| f in es && f.key == b;
    var i :| 0 <= i < |es| && es[i] == e;
    var j :| 0 <= j < |es| && es[j] == f;
    p, q := if i < j then i else j, if i < j then j else i;
  }

  /** The text of a value is independent of the order its keys were set in exactly when no two keys of one of its objects tie. */
  lemma OrderIndependentIffNoTies(v: Json, le: Order)
    requires Collation(le) && Wf(v)
    ensures (forall w :: Wf(w) && Same(v, w) ==> Stable(v, le) == Stable(w, le)) <==> NoTies(v, le)
  {
    if NoTies(v, le) {
      forall w | Wf(w) && Same(v, w) ensures Stable(v, le) == Stable(w, le) { ValueDetermines(v, w, le); }
    } else {
      var w := TiesShow(v, le);
    }
  }
}
