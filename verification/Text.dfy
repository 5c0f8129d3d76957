/** Splitting and joining text, as `split` and `join` do. */
module Text {
  /** The pieces between the separators; one piece more than there are separators. */
  function Split(s: string, sep: char): (parts: seq<string>)
    ensures parts != []
  {
    if s == [] then [[]]
    else
      var rest := Split(s[1..], sep);
      if s[0] == sep then [[]] + rest else [[s[0]] + rest[0]] + rest[1..]
  }

  function Join(parts: seq<string>, sep: char): string
    requires parts != []
  {
    if |parts| == 1 then parts[0] else parts[0] + [sep] + Join(parts[1..], sep)
  }

  predicate Digit(c: char) {
    '0' <= c <= '9'
  }

  predicate Lacks(s: string, c: char) {
    forall i :: 0 <= i < |s| ==> s[i] != c
  }

  lemma {:induction false} JoinSplit(s: string, sep: char)
    ensures Join(Split(s, sep), sep) == s
    ensures forall i :: 0 <= i < |Split(s, sep)| ==> Lacks(Split(s, sep)[i], sep)
  {
    if s != [] {
      JoinSplit(s[1..], sep);
      var rest := Split(s[1..], sep);
      var parts := Split(s, sep);
      if s[0] == sep {
        assert parts[1..] == rest;
        assert s == [sep] + s[1..];
      } else {
        assert parts[1..] == rest[1..];
        assert s == [s[0]] + s[1..];
      }
    }
  }

  /** A text that starts with a piece and a separator splits there. */
  lemma {:induction false} SplitHead(head: string, tail: string, sep: char)
    requires Lacks(head, sep)
    ensures Split(head + [sep] + tail, sep) == [head] + Split(tail, sep)
  {
    var s := head + [sep] + tail;
    if head == [] {
      assert s[1..] == tail;
    } else {
      assert s[1..] == head[1..] + [sep] + tail;
      SplitHead(head[1..], tail, sep);
      assert head == [head[0]] + head[1..];
    }
  }

  lemma {:induction false} SplitWhole(s: string, sep: char)
    requires Lacks(s, sep)
    ensures Split(s, sep) == [s]
  {
    if s != [] {
      SplitWhole(s[1..], sep);
      assert s == [s[0]] + s[1..];
    }
  }

  /** A text with a separator has two pieces or more, and the first of them is what stands before it. */
  lemma {:induction false} SplitCounts(s: string, sep: char)
    ensures |Split(s, sep)| == 1 <==> Lacks(s, sep)
  {
    if s != [] {
      SplitCounts(s[1..], sep);
    }
  }
}
