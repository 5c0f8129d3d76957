/** The line diff shown before an engine configuration is applied: one hunk, between a common start and a common end. */
module LineDiff {
  import opened Common
  import opened Text

  const UNCHANGED := "Без изменений"

  /** The texts differ in one hunk at most: the first `prefix` lines are common, and the last `suffix` lines. */
  predicate Hunk(left: seq<string>, right: seq<string>, prefix: nat, suffix: nat) {
    && prefix + suffix <= |left| && prefix + suffix <= |right|
    && left[..prefix] == right[..prefix] && left[|left| - suffix..] == right[|right| - suffix..]
  }

  /** No hunk leaves out more lines. */
  ghost predicate Least(left: seq<string>, right: seq<string>, prefix: nat, suffix: nat) {
    && Hunk(left, right, prefix, suffix)
    && forall p: nat, s: nat :: Hunk(left, right, p, s) ==> p + s <= prefix + suffix
  }

  function Marked(mark: string, lines: seq<string>): (r: seq<string>)
    ensures |r| == |lines| && forall i :: 0 <= i < |lines| ==> r[i] == mark + lines[i]
  {
    seq(|lines|, i requires 0 <= i < |lines| => mark + lines[i])
  }

  function DiffLines(left: seq<string>, right: seq<string>, prefix: nat, suffix: nat): seq<string>
    requires Hunk(left, right, prefix, suffix)
  {
    Marked("- ", left[prefix..|left| - suffix]) + Marked("+ ", right[prefix..|right| - suffix])
  }

  method Trim(left: seq<string>, right: seq<string>) returns (prefix: nat, suffix: nat)
    ensures Least(left, right, prefix, suffix)
  {
    prefix := 0;
    while prefix < |left| && prefix < |right| && left[prefix] == right[prefix]
      invariant prefix <= |left| && prefix <= |right| && left[..prefix] == right[..prefix]
    {
      prefix := prefix + 1;
    }
    suffix := 0;
    while suffix < |left| - prefix && suffix < |right| - prefix && left[|left| - 1 - suffix] == right[|right| - 1 - suffix]
      invariant suffix <= |left| - prefix && suffix <= |right| - prefix
      invariant left[|left| - suffix..] == right[|right| - suffix..]
    {
      assert left[|left| - suffix - 1..] == [left[|left| - 1 - suffix]] + left[|left| - suffix..];
      assert right[|right| - suffix - 1..] == [right[|right| - 1 - suffix]] + right[|right| - suffix..];
      suffix := suffix + 1;
    }
    forall p: nat, s: nat | Hunk(left, right, p, s) ensures p + s <= prefix + suffix {
      assert forall i :: 0 <= i < p ==> left[i] == left[..p][i] && right[i] == right[..p][i];
    }
  }

  /**
    How to read the lines of a diff: first n lines of the old text, each behind "- ", and then m lines of the
    new one, each behind "+ "; putting the latter in the former's place makes the old text the new one.
  */
  predicate Replaces(lines: seq<string>, left: seq<string>, right: seq<string>, p: nat, n: nat, m: nat) {
    && p + n <= |left| && p + m <= |right| && |lines| == n + m
    && (forall i :: 0 <= i < n ==> lines[i] == "- " + left[p + i])
    && (forall i :: n <= i < n + m ==> lines[i] == "+ " + right[p + i - n])
    && left[..p] + right[p..p + m] + left[p + n..] == right
  }

  /** The text reads as replacing a least hunk. */
  ghost predicate SaysLeast(diff: string, left: seq<string>, right: seq<string>) {
    exists p: nat, s: nat ::
      Least(left, right, p, s) && Replaces(Split(diff, '\n'), left, right, p, |left| - s - p, |right| - s - p)
  }

  predicate Lines(s: seq<string>) {
    forall i :: 0 <= i < |s| ==> Lacks(s[i], '\n')
  }

  method Hunked(left: seq<string>, right: seq<string>) returns (diff: string)
    requires left != right && Lines(left) && Lines(right)
    ensures diff != UNCHANGED && SaysLeast(diff, left, right)
  {
    var prefix, suffix := Trim(left, right);
    OnlyEqualIsEmpty(left, right, prefix, suffix);
    MarkedReadsBack(left[prefix..|left| - suffix], right[prefix..|right| - suffix]);
    var lines := Marked("- ", left[prefix..|left| - suffix]) + Marked("+ ", right[prefix..|right| - suffix]);
    assert lines == DiffLines(left, right, prefix, suffix);
    diff := if lines == [] then [] else Join(lines, '\n');
    DiffReplaces(lines, left, right, prefix, suffix);
    if diff == [] { diff := UNCHANGED; }
  }

  method Diff(before: Option<string>, after: string) returns (diff: string)
    ensures diff == UNCHANGED <==> before == Some(after)
    ensures before.None? ==> Split(diff, '\n') == Marked("+ ", Split(after, '\n'))
    ensures before.Some? && before.value != after ==> SaysLeast(diff, Split(before.value, '\n'), Split(after, '\n'))
  {
    if before == Some(after) { return UNCHANGED; }
    var right := Split(after, '\n');
    JoinSplit(after, '\n');
    if before.None? {
      diff := Join(Marked("+ ", right), '\n');
      MarkedReadsBack([], right);
      assert Marked("- ", []) + Marked("+ ", right) == Marked("+ ", right);
      return;
    }
    var left := Split(before.value, '\n');
    JoinSplit(before.value, '\n');
    diff := Hunked(left, right);
  }

  lemma OnlyEqualIsEmpty(left: seq<string>, right: seq<string>, prefix: nat, suffix: nat)
    requires Hunk(left, right, prefix, suffix) && left != right
    ensures left[prefix..|left| - suffix] + right[prefix..|right| - suffix] != []
  {
  }

  lemma {:induction false} SplitJoin(parts: seq<string>, sep: char)
    requires parts != [] && forall i :: 0 <= i < |parts| ==> Lacks(parts[i], sep)
    ensures Split(Join(parts, sep), sep) == parts
  {
    if |parts| == 1 {
      SplitWhole(parts[0], sep);
    } else {
      SplitJoin(parts[1..], sep);
      SplitHead(parts[0], Join(parts[1..], sep), sep);
      assert parts == [parts[0]] + parts[1..];
    }
  }

  /** The marked lines can be read back from the text, and no such text says "unchanged". */
  lemma MarkedReadsBack(removed: seq<string>, added: seq<string>)
    requires removed + added != []
    requires Lines(removed) && Lines(added)
    ensures var lines := Marked("- ", removed) + Marked("+ ", added);
            lines != [] && Split(Join(lines, '\n'), '\n') == lines && Join(lines, '\n') != UNCHANGED && Join(lines, '\n') != []
  {
    var lines := Marked("- ", removed) + Marked("+ ", added);
    SplitJoin(lines, '\n');
    var first := lines[0];
    assert first[0] == '-' || first[0] == '+';
    assert Join(lines, '\n')[0] == first[0];
  }

  lemma DiffReplaces(lines: seq<string>, left: seq<string>, right: seq<string>, p: nat, s: nat)
    requires Hunk(left, right, p, s) && lines == DiffLines(left, right, p, s)
    ensures Replaces(lines, left, right, p, |left| - s - p, |right| - s - p)
  {
    HunkRestores(left, right, p, s);
    DiffLinesAre(left, right, p, s);
  }

  lemma DiffLinesAre(left: seq<string>, right: seq<string>, p: nat, s: nat)
    requires Hunk(left, right, p, s)
    ensures var n, m := |left| - s - p, |right| - s - p;
            var lines := DiffLines(left, right, p, s);
            && |lines| == n + m
            && (forall i :: 0 <= i < n ==> lines[i] == "- " + left[p + i])
            && forall i :: n <= i < n + m ==> lines[i] == "+ " + right[p + i - n]
  {
  }

  lemma HunkRestores(left: seq<string>, right: seq<string>, p: nat, s: nat)
    requires Hunk(left, right, p, s)
    ensures left[..p] + right[p..|right| - s] + left[|left| - s..] == right
  {
    assert right == right[..p] + right[p..|right| - s] + right[|right| - s..];
  }
}
