/**
  The canonical text read back: strings as section 7 of RFC 8259 has them, and what arrays and
  objects look like, their members in the order of the collation.
*/
module JsonText {
  import opened Common
  import opened StableJson

  // ---------- strings ----------

  /** The unit a two-unit escape stands for, by the table of the standard. */
  function Escaped(u: Unit): Option<Unit> {
    match u
    case 34 => Some(34)
    case 92 => Some(92)
    case 47 => Some(47)
    case 98 => Some(8)
    case 102 => Some(12)
    case 110 => Some(10)
    case 114 => Some(13)
    case 116 => Some(9)
    case _ => None
  }

  function Digit(u: Unit): Option<int> {
    if 48 <= u < 58 then Some(u - 48)
    else if 97 <= u < 103 then Some(u - 87)
    else if 65 <= u < 71 then Some(u - 55)
    else None
  }

  function Four(a: Unit, b: Unit, c: Unit, d: Unit): Option<Unit> {
    if Digit(a).None? || Digit(b).None? || Digit(c).None? || Digit(d).None? then None
    else Some(((Digit(a).value * 16 + Digit(b).value) * 16 + Digit(c).value) * 16 + Digit(d).value)
  }

  /** One unit of a string and what follows it. */
  function ReadUnit(x: Text): Option<(Unit, Text)> {
    if x == [] || x[0] < 32 || x[0] == 34 then None
    else if x[0] != 92 then Some((x[0], x[1..]))
    else if |x| >= 6 && x[1] == 117 then
      var u := Four(x[2], x[3], x[4], x[5]);
      if u.None? then None else Some((u.value, x[6..]))
    else if |x| >= 2 && Escaped(x[1]).Some? then Some((Escaped(x[1]).value, x[2..]))
    else None
  }

  /** The units of a string up to its closing quote, and what follows that. */
  function ReadUnits(x: Text): Option<(Text, Text)>
    decreases |x|
  {
    if x == [] then None
    else if x[0] == 34 then Some(([], x[1..]))
    else
      var one := ReadUnit(x);
      if one.None? || |one.value.1| >= |x| then None
      else
        var rest := ReadUnits(one.value.1);
        if rest.None? then None else Some(([one.value.0] + rest.value.0, rest.value.1))
  }

  lemma HexReads(d: int)
    requires 0 <= d < 16
    ensures Digit(Hex(d)) == Some(d)
  {
  }

  lemma HexDigits(u: Unit)
    ensures u == ((u / 4096 * 16 + u / 256 % 16) * 16 + u / 16 % 16) * 16 + u % 16
  {
  }

  lemma FourReads(a: int, b: int, c: int, d: int, u: Unit)
    requires 0 <= a < 16 && 0 <= b < 16 && 0 <= c < 16 && 0 <= d < 16 && u == ((a * 16 + b) * 16 + c) * 16 + d
    ensures Four(Hex(a), Hex(b), Hex(c), Hex(d)) == Some(u)
  {
    HexReads(a);
    HexReads(b);
    HexReads(c);
    HexReads(d);
  }

  lemma Hex4Reads(u: Unit)
    ensures var h := Hex4(u); |h| == 4 && Four(h[0], h[1], h[2], h[3]) == Some(u)
  {
    HexDigits(u);
    FourReads(u / 4096, u / 256 % 16, u / 16 % 16, u % 16, u);
  }

  lemma ShortReads(u: Unit)
    requires Short(u) != 0
    ensures Escaped(Short(u)) == Some(u) && Short(u) != 117
  {
  }

  /** A token reads back as the unit it stands for. */
  lemma TokenReads(s: Text, i: nat, rest: Text)
    requires i < |s|
    ensures var x := Token(s, i) + rest;
            x != [] && x[0] != 34 && ReadUnit(x) == Some((s[i], rest)) && |rest| < |x|
  {
    var t := Token(s, i);
    var x := t + rest;
    assert x[|t|..] == rest && forall k :: 0 <= k < |t| ==> x[k] == t[k];
    if Short(s[i]) != 0 {
      ShortReads(s[i]);
    } else if s[i] < 32 || Lone(s, i) {
      Hex4Reads(s[i]);
      assert t[2..] == Hex4(s[i]);
    }
  }

  lemma {:induction false} TokensRead(s: Text, i: nat, rest: Text)
    requires i <= |s|
    ensures ReadUnits(Tokens(s, i) + [34] + rest) == Some((s[i..], rest))
    decreases |s| - i
  {
    if i == |s| {
      assert Tokens(s, i) + [34] + rest == [34] + rest && ([34] + rest)[1..] == rest;
    } else {
      var more := Tokens(s, i + 1) + [34] + rest;
      assert Tokens(s, i) + [34] + rest == Token(s, i) + more;
      TokenReads(s, i, more);
      TokensRead(s, i + 1, rest);
      assert [s[i]] + s[i + 1..] == s[i..];
    }
  }

  /** Every string is printed as a JSON reader reads it: behind the opening quote stand its units, up to the closing one. */
  lemma StringReadsBack(s: Text, le: Order, rest: Text)
    ensures var x := Stable(Str(s), le) + rest; x[0] == 34 && ReadUnits(x[1..]) == Some((s, rest))
  {
    TokensRead(s, 0, rest);
    var x := Stable(Str(s), le) + rest;
    assert x[1..] == Tokens(s, 0) + [34] + rest;
  }

  /** A unit that needs no escape: neither control, quote nor backslash, nor half of a surrogate pair. */
  predicate Plain(u: Unit) {
    u >= 32 && u != 34 && u != 92 && !(0xD800 <= u < 0xE000)
  }

  lemma {:induction false} PlainTokens(s: Text, i: nat)
    requires i <= |s| && forall k :: 0 <= k < |s| ==> Plain(s[k])
    ensures Tokens(s, i) == s[i..]
    decreases |s| - i
  {
    if i < |s| {
      PlainTokens(s, i + 1);
      assert Token(s, i) == [s[i]] && s[i..] == [s[i]] + s[i + 1..];
    }
  }

  /** Plain strings print as they are, between quotes. */
  lemma PlainPrints(s: Text, le: Order)
    requires forall k :: 0 <= k < |s| ==> Plain(s[k])
    ensures Stable(Str(s), le) == [34] + s + [34]
  {
    PlainTokens(s, 0);
    assert s[0..] == s;
  }

  /** Pairs of surrogates print as they are; halves, and controls without a letter of their own, print as four digits. */
  lemma SurrogatesPrint(a: Unit, b: Unit, u: Unit, le: Order)
    requires 0xD800 <= a < 0xDC00 <= b < 0xE000 && (0xD800 <= u < 0xE000 || u == 11 || u < 8 || 14 <= u < 32)
    ensures Stable(Str([a, b]), le) == [34, a, b, 34]
    ensures |Stable(Str([u]), le)| == 8 && Stable(Str([u]), le)[1..3] == [92, 117]
  {
    TokensTwo(a, b);
    assert Tokens([u], 0) == Token([u], 0) + Tokens([u], 1) && Tokens([u], 1) == [];
    assert Token([u], 0) == [92, 117] + Hex4(u);
  }

  lemma TokensTwo(a: Unit, b: Unit)
    requires 0xD800 <= a < 0xDC00 <= b < 0xE000
    ensures Tokens([a, b], 0) == [a, b]
  {
    var s := [a, b];
    assert Tokens(s, 2) == [] && Token(s, 0) == [a] && Token(s, 1) == [b];
    assert Tokens(s, 1) == [b] + Tokens(s, 2);
    assert Tokens(s, 0) == [a] + Tokens(s, 1);
  }

  /** Quotes, backslashes and the controls with a letter of their own print as that letter behind a backslash. */
  lemma LettersPrint(u: Unit, le: Order)
    requires u == 34 || u == 92 || u == 8 || u == 9 || u == 10 || u == 12 || u == 13
    ensures |Stable(Str([u]), le)| == 4 && Stable(Str([u]), le)[1] == 92
  {
    assert Tokens([u], 0) == Token([u], 0) + Tokens([u], 1) && Tokens([u], 1) == [];
  }

  // ---------- values ----------

  /** The texts one after the other with commas between them. */
  function Listed(ts: seq<Text>): Text {
    if ts == [] then [] else ts[0] + Tail(ts[1..])
  }

  function Tail(ts: seq<Text>): Text {
    if ts == [] then [] else [44] + ts[0] + Tail(ts[1..])
  }

  lemma {:induction false} ListedIsJoin(ts: seq<Text>)
    ensures Listed(ts) == Join(ts)
  {
    if |ts| > 1 {
      ListedIsJoin(ts[1..]);
      assert Tail(ts[1..]) == [44] + Listed(ts[1..]);
    }
  }

  /** The words, and numbers as they are printed. */
  lemma WordsPrint(le: Order, number: Text)
    ensures Stable(Null, le) == [110, 117, 108, 108] && Stable(Num(number), le) == number
    ensures Stable(Bool(true), le) == [116, 114, 117, 101] && Stable(Bool(false), le) == [102, 97, 108, 115, 101]
  {
  }

  /** An array prints its items in their order, between brackets. */
  lemma ArrayPrints(vs: seq<Json>, le: Order) returns (texts: seq<Text>)
    ensures |texts| == |vs| && forall i :: 0 <= i < |vs| ==> texts[i] == Stable(vs[i], le)
    ensures Stable(Arr(vs), le) == [91] + Listed(texts) + [93]
  {
    texts := Items(vs, le);
    StableArr(vs, le);
    ListedIsJoin(texts);
  }

  /** An object prints its members, each a key, a colon and a value, between braces and in the order of the collation. */
  lemma ObjectPrints(es: seq<Entry>, le: Order) returns (sorted: seq<Entry>, texts: seq<Text>)
    requires Collation(le)
    ensures multiset(sorted) == multiset(es) && forall i, j :: 0 <= i < j < |sorted| ==> le(sorted[i].key, sorted[j].key)
    ensures |texts| == |sorted| && forall i :: 0 <= i < |sorted| ==> texts[i] == Stable(Str(sorted[i].key), le) + [58] + Stable(sorted[i].value, le)
    ensures Stable(Obj(es), le) == [123] + Listed(texts) + [125]
  {
    sorted := Sort(es, le);
    texts := Members(sorted, le);
    SortKeeps(es, le);
    SortOrders(es, le);
    StableObj(es, le);
    ListedIsJoin(texts);
  }
}
