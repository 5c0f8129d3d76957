/**
  The two independent validators of a domain name: the panel splits at the dots and matches every
  label, the agent scans the text once. Names are labels of 1 to 63 letters, digits and inner
  hyphens, as section 2.3.4 of RFC 1035 and section 2.1 of RFC 1123 have them, in lower case.
*/
module Domains {
  import opened Text

  predicate Letter(c: char) {
    'a' <= c <= 'z'
  }

  predicate HasLetter(s: string) {
    exists i :: 0 <= i < |s| && Letter(s[i])
  }

  // ---------- the panel ----------

  predicate LabelShape(name: string) {
    && 1 <= |name| <= 63
    && (Letter(name[0]) || Digit(name[0])) && (Letter(name[|name| - 1]) || Digit(name[|name| - 1]))
    && forall i :: 0 <= i < |name| ==> Letter(name[i]) || Digit(name[i]) || name[i] == '-'
  }

  predicate AllShaped(labels: seq<string>) {
    labels == [] || (LabelShape(labels[0]) && AllShaped(labels[1..]))
  }

  function Number(digits: string): nat
    requires forall i :: 0 <= i < |digits| ==> Digit(digits[i])
  {
    if digits == [] then 0
    else
      assert Digit(digits[|digits| - 1]);
      10 * Number(digits[..|digits| - 1]) + (digits[|digits| - 1] as int - '0' as int)
  }

  predicate PanelByte(part: string) {
    1 <= |part| <= 3 && (forall i :: 0 <= i < |part| ==> Digit(part[i])) && Number(part) <= 255
  }

  predicate PanelValidIPv4(value: string) {
    var parts := Split(value, '.');
    |parts| == 4 && forall i :: 0 <= i < 4 ==> PanelByte(parts[i])
  }

  predicate PanelValidDomain(value: string) {
    if '.' !in value || value[|value| - 1] == '.' || PanelValidIPv4(value) then false
    else
      var labels := Split(value, '.');
      HasLetter(labels[|labels| - 1]) && AllShaped(labels)
  }

  // ---------- the agent ----------

  /** What the decimal parser takes: digits, and a sign before them if need be. */
  function Unsigned(part: string): string {
    if part != [] && (part[0] == '+' || part[0] == '-') then part[1..] else part
  }

  predicate AgentByte(part: string) {
    && 1 <= |part| <= 3
    && (var digits := Unsigned(part);
        && digits != [] && (forall i :: 0 <= i < |digits| ==> Digit(digits[i]))
        && Number(digits) <= 255 && (part[0] == '-' ==> Number(digits) == 0))
  }

  method AgentValidIPv4(value: string) returns (ok: bool)
    ensures ok <==> var parts := Split(value, '.'); |parts| == 4 && forall i :: 0 <= i < 4 ==> AgentByte(parts[i])
  {
    var parts := Split(value, '.');
    if |parts| != 4 { return false; }
    for i := 0 to |parts|
      invariant forall k :: 0 <= k < i ==> AgentByte(parts[k])
    {
      if !AgentByte(parts[i]) { return false; }
    }
    return true;
  }

  function LastIndex(s: string, c: char): (i: int)
    ensures -1 <= i < |s| && (i >= 0 ==> s[i] == c)
    ensures forall k :: i < k < |s| ==> s[k] != c
  {
    if s == [] then -1 else if s[|s| - 1] == c then |s| - 1 else LastIndex(s[..|s| - 1], c)
  }

  // ---------- lemmas ----------

  /** What stands before the first separator grows at the front. */
  lemma {:induction false} HeadGrows(head: string, rest: string, sep: char)
    requires Lacks(head, sep)
    ensures Split(head + rest, sep) == [head + Split(rest, sep)[0]] + Split(rest, sep)[1..]
  {
    if head == [] {
      assert head + rest == rest && head + Split(rest, sep)[0] == Split(rest, sep)[0];
    } else {
      var s, parts, tail := head + rest, Split(rest, sep), head[1..];
      assert s[1..] == tail + rest && s[0] == head[0] && head[0] != sep;
      HeadGrows(tail, rest, sep);
      var inner := Split(tail + rest, sep);
      assert inner[0] == tail + parts[0] && inner[1..] == parts[1..];
      assert Split(s, sep) == [[head[0]] + inner[0]] + inner[1..];
      assert [head[0]] + (tail + parts[0]) == head + parts[0];
    }
  }

  function Last(parts: seq<string>): string
    requires parts != []
  {
    parts[|parts| - 1]
  }

  lemma NoLetterInBytes(value: string)
    ensures PanelByte(value) || AgentByte(value) ==> !HasLetter(value)
  {
  }

  /** The address test changes nothing: the last label of an address has no letter. */
  lemma AddressesAreNoDomains(value: string)
    ensures PanelValidDomain(value)
        <==> '.' in value && value[|value| - 1] != '.' && HasLetter(Last(Split(value, '.'))) && AllShaped(Split(value, '.'))
  {
  }

  /** The agent takes signs where the panel does not; else both take the same addresses. */
  lemma BytesAgreeIff(part: string)
    ensures PanelByte(part) <==> AgentByte(part) && Lacks(part, '+') && Lacks(part, '-')
  {
  }

  // ---------- the scan ----------

  predicate LabelChar(c: char) {
    Letter(c) || Digit(c) || c == '-'
  }

  /** What the scan knows of a label it is in the middle of. */
  predicate Begun(name: string) {
    && |name| <= 63 && (name != [] ==> name[0] != '-')
    && forall i :: 0 <= i < |name| ==> LabelChar(name[i])
  }

  lemma ShapedIsBegun(name: string)
    ensures LabelShape(name) <==> name != [] && Begun(name) && name[|name| - 1] != '-'
    ensures Begun(name) ==> Lacks(name, '.')
  {
  }

  /** A label that has gone wrong stays wrong however it goes on. */
  lemma WrongStaysWrong(name: string, rest: string)
    requires Lacks(name, '.') && !Begun(name)
    ensures !AllShaped(Split(name + rest, '.'))
  {
    HeadGrows(name, rest, '.');
    var whole := Split(name + rest, '.')[0];
    assert forall i :: 0 <= i < |name| ==> whole[i] == name[i];
    ShapedIsBegun(whole);
  }

  lemma FirstAndRest(name: string, labels: seq<string>)
    requires labels != []
    ensures AllShaped([name] + labels) <==> LabelShape(name) && AllShaped(labels)
    ensures Last([name] + labels) == Last(labels)
  {
  }

  lemma BegunWith(name: string, c: char)
    requires Begun(name)
    ensures Begun(name + [c]) <==> LabelChar(c) && (name == [] ==> c != '-') && |name| < 63
  {
    var more := name + [c];
    assert more[|name|] == c;
  }

  /** The verdict of the scan on what is left, when a label of the given length has begun and `last` came last. */
  predicate Passes(length: nat, last: char, rest: string)
    decreases rest
  {
    if rest == [] then length > 0 && last != '-'
    else if rest[0] == '.' then length > 0 && last != '-' && Passes(0, '.', rest[1..])
    else LabelChar(rest[0]) && (length == 0 ==> rest[0] != '-') && length < 63 && Passes(length + 1, rest[0], rest[1..])
  }

  function LastOf(name: string): char {
    if name == [] then '.' else name[|name| - 1]
  }

  /** Scanning once is splitting and matching every label. */
  lemma {:induction false} PassesIff(name: string, rest: string)
    requires Begun(name)
    ensures Passes(|name|, LastOf(name), rest) <==> AllShaped(Split(name + rest, '.'))
    decreases rest
  {
    ShapedIsBegun(name);
    if rest == [] {
      assert name + rest == name;
      SplitWhole(name, '.');
      FirstAndRest(name, [name]);
    } else if rest[0] == '.' {
      assert name + rest == name + ['.'] + rest[1..] && [] + rest[1..] == rest[1..];
      SplitHead(name, rest[1..], '.');
      FirstAndRest(name, Split(rest[1..], '.'));
      PassesIff([], rest[1..]);
    } else {
      assert name + rest == name + [rest[0]] + rest[1..];
      BegunWith(name, rest[0]);
      if Begun(name + [rest[0]]) {
        PassesIff(name + [rest[0]], rest[1..]);
      } else {
        WrongStaysWrong(name + [rest[0]], rest[1..]);
      }
    }
  }

  /** The last label is what stands after the last dot. */
  lemma {:induction false} LastIsSuffix(value: string, i: int)
    requires -1 <= i < |value| && (i >= 0 ==> value[i] == '.') && forall k :: i < k < |value| ==> value[k] != '.'
    ensures Last(Split(value, '.')) == value[i + 1..]
  {
    if i < 0 {
      SplitWhole(value, '.');
    } else if value[0] == '.' && i == 0 {
      SplitWhole(value[1..], '.');
    } else {
      LastIsSuffix(value[1..], i - 1);
      SplitCounts(value[1..], '.');
      assert value[1..][i - 1] == '.';
    }
  }

  method SuffixHasLetter(suffix: string) returns (hasLetter: bool)
    ensures hasLetter == HasLetter(suffix)
  {
    hasLetter := false;
    for i := 0 to |suffix|
      invariant hasLetter <==> exists k :: 0 <= k < i && Letter(suffix[k])
    {
      hasLetter := hasLetter || Letter(suffix[i]);
    }
  }

  method Scan(value: string) returns (ok: bool)
    requires value != []
    ensures ok <==> '.' in value && HasLetter(value[LastIndex(value, '.') + 1..]) && Passes(0, '.', value)
  {
    var dots, labelLength := 0, 0;
    ghost var last := '.';
    for index := 0 to |value|
      invariant 0 <= labelLength <= index && last == if index == 0 then '.' else value[index - 1]
      invariant Passes(0, '.', value) <==> Passes(labelLength, last, value[index..])
      invariant dots > 0 <==> exists k :: 0 <= k < index && value[k] == '.'
    {
      var c := value[index];
      assert value[index..][0] == c && value[index..][1..] == value[index + 1..];
      last := c;
      if c == '.' {
        if labelLength == 0 || value[index - 1] == '-' { return false; }
        dots := dots + 1;
        labelLength := 0;
        continue;
      }
      if labelLength == 0 && c == '-' { return false; }
      if !Letter(c) && !Digit(c) && c != '-' { return false; }
      labelLength := labelLength + 1;
      if labelLength > 63 { return false; }
    }
    var hasLetter := SuffixHasLetter(value[LastIndex(value, '.') + 1..]);
    return dots > 0 && labelLength > 0 && value[|value| - 1] != '-' && hasLetter;
  }

  lemma ShapedIsScan(value: string)
    ensures Passes(0, '.', value) <==> AllShaped(Split(value, '.'))
  {
    PassesIff([], value);
    assert [] + value == value;
  }

  /** The panel's verdict is that of the scan, unless the text ends with a dot. */
  lemma PanelIsScan(value: string)
    ensures PanelValidDomain(value)
        <==> '.' in value && value[|value| - 1] != '.' && HasLetter(value[LastIndex(value, '.') + 1..]) && Passes(0, '.', value)
  {
    ShapedIsScan(value);
    LastIsSuffix(value, LastIndex(value, '.'));
    AddressesAreNoDomains(value);
  }

  lemma AddressHasNoLetter(value: string)
    requires var parts := Split(value, '.'); |parts| == 4 && forall i :: 0 <= i < 4 ==> AgentByte(parts[i])
    ensures !HasLetter(value[LastIndex(value, '.') + 1..])
  {
    LastIsSuffix(value, LastIndex(value, '.'));
    NoLetterInBytes(Split(value, '.')[3]);
  }

  /** The agent accepts exactly the names of 4 to 253 characters that the panel accepts. */
  method ValidDomain(value: string) returns (ok: bool)
    ensures ok <==> 4 <= |value| <= 253 && PanelValidDomain(value)
  {
    PanelIsScan(value);
    if |value| < 4 || |value| > 253 || value[0] == '.' || value[|value| - 1] == '.' { return false; }
    var address := AgentValidIPv4(value);
    if address {
      AddressHasNoLetter(value);
      return false;
    }
    ok := Scan(value);
  }

  /** The names of three characters that the panel accepts: one letter or digit, a dot, one letter. */
  lemma ThreeCharacters(a: char, dot: char, b: char)
    ensures PanelValidDomain([a, dot, b]) <==> (Letter(a) || Digit(a)) && dot == '.' && Letter(b)
  {
    var value := [a, dot, b];
    PanelIsScan(value);
    assert value[1..] == [dot, b] && [dot, b][1..] == [b] && [b][1..] == [];
    assert value[2] == b;
    if Letter(b) && dot == '.' {
      assert value[1] == '.' && LastIndex(value, '.') == 1;
      assert value[2..] == [b] && Letter([b][0]);
      assert Passes(0, '.', [b]);
      assert Passes(0, '.', value) <==> Letter(a) || Digit(a);
    } else if dot == '.' && b != '.' {
      assert value[1] == '.' && LastIndex(value, '.') == 1;
      assert value[2..] == [b];
    } else if a == '.' {
      assert !Passes(0, '.', value);
    }
  }

  lemma Triple(value: string)
    requires |value| == 3
    ensures value == [value[0], value[1], value[2]]
  {
  }

  /** Of the names the panel accepts, the agent refuses for their length exactly those of one letter or digit, a dot and one letter. */
  lemma AgentRefusesShortest(value: string)
    requires |value| <= 253
    ensures PanelValidDomain(value) && !(4 <= |value| <= 253)
        <==> |value| == 3 && (Letter(value[0]) || Digit(value[0])) && value[1] == '.' && Letter(value[2])
  {
    if PanelValidDomain(value) { AtLeastThree(value); }
    if |value| == 3 {
      Triple(value);
      ThreeCharacters(value[0], value[1], value[2]);
    }
  }

  lemma AtLeastThree(value: string)
    requires PanelValidDomain(value)
    ensures |value| >= 3
  {
    var labels := Split(value, '.');
    JoinSplit(value, '.');
    SplitCounts(value, '.');
    assert LabelShape(labels[0]) && AllShaped(labels[1..]);
    assert |Join(labels[1..], '.')| >= 1;
  }

  /** The shortest name of all. */
  lemma ShortestName()
    ensures PanelValidDomain("a.b") && |"a.b"| == 3
  {
    ThreeCharacters('a', '.', 'b');
    assert "a.b" == ['a', '.', 'b'];
  }

  lemma DigitsOf(c: char)
    requires Digit(c)
    ensures Number([c]) == c as int - '0' as int
  {
    assert [c][..0] == [] && Digit([c][0]);
  }

  /** A part of an address that the two sides read differently. */
  lemma SignedByte(c: char)
    requires Digit(c)
    ensures AgentByte(['+', c]) && !PanelByte(['+', c])
  {
    DigitsOf(c);
    assert ['+', c][1..] == [c];
  }

  lemma Lettered(name: string)
    requires forall i :: 0 <= i < |name| ==> Letter(name[i])
    ensures LabelShape(name) <==> 1 <= |name| <= 63
    ensures Lacks(name, '.')
  {
  }

  /** A label of letters alone may have up to 63 of them. */
  lemma LabelsUpTo63(name: string)
    requires forall i :: 0 <= i < |name| ==> Letter(name[i])
    ensures PanelValidDomain(name + ".a") <==> 1 <= |name| <= 63
  {
    var value, labels := name + ".a", [name, "a"];
    Lettered(name);
    Lettered("a");
    assert value == name + ['.'] + "a";
    SplitHead(name, "a", '.');
    SplitWhole("a", '.');
    assert Split(value, '.') == labels;
    assert value[|name|] == '.' && '.' in value;
    assert labels[1..] == ["a"] && ["a"][1..] == [];
    assert AllShaped(labels) <==> LabelShape(name);
    assert Letter("a"[0]);
    AddressesAreNoDomains(value);
  }

  /** A hyphen may stand inside a label but neither at its start nor at its end. */
  lemma HyphensInside(name: string, i: nat)
    requires i < |name| <= 63 && name[i] == '-' && forall k :: 0 <= k < |name| && k != i ==> Letter(name[k])
    ensures LabelShape(name) <==> 0 < i < |name| - 1
  {
  }
}
