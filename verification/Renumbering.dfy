/**
  Renumbering the table of route rules, one row per rule under a UNIQUE index on the position, in
  two phases: first every row is shifted out of the way, then each gets its new position.
*/
module Renumbering {
  import opened Rules
  import opened Drafts

  type Table = map<Id, Rule>

  const SHIFT := 10_000

  /** The UNIQUE index holds. */
  ghost predicate Distinct(t: Table) {
    forall a, b :: a in t && b in t && a != b ==> t[a].position != t[b].position
  }

  /** The table holds exactly the rules of the list, in place. */
  ghost predicate Lists(t: Table, s: seq<Rule>) {
    && (forall i :: 0 <= i < |s| ==> s[i].position == i && s[i].id in t && t[s[i].id] == s[i])
    && (forall id :: id in t ==> t[id].id == id && t[id].position < |s| && s[t[id].position] == t[id])
  }

  function Moved(t: Table, id: Id, position: nat): Table
    requires id in t
  {
    t[id := t[id].(position := position)]
  }

  /** Phase one, after the rows `done` have been shifted. */
  function Shifted(t: Table, done: set<Id>): (r: Table)
    ensures r.Keys == t.Keys
  {
    map id | id in t :: if id in done then t[id].(position := t[id].position + SHIFT) else t[id]
  }

  /** Phase two: the ids get their index as position, in turn. */
  function Placed(t: Table, ids: seq<Id>): Table
    requires forall i :: 0 <= i < |ids| ==> ids[i] in t
    ensures Placed(t, ids).Keys == t.Keys
  {
    if ids == [] then t else Moved(Placed(t, ids[..|ids| - 1]), ids[|ids| - 1], |ids| - 1)
  }

  lemma ListsInPlace(t: Table, s: seq<Rule>)
    requires Lists(t, s)
    ensures InPlace(s) && Distinct(t)
  {
  }

  /**
    Phase one never breaks the index, whatever order the rows are visited in, exactly when the
    draft has at most 10000 rules.
  */
  lemma ShiftSafeIff(t: Table, s: seq<Rule>)
    requires Lists(t, s)
    ensures (forall done :: done <= t.Keys ==> Distinct(Shifted(t, done))) <==> |s| <= 10_000
  {
    ListsInPlace(t, s);
    if |s| > SHIFT {
      var first, clash := s[0].id, s[SHIFT].id;
      var one := Shifted(t, {first});
      assert first in t && clash in t && first != clash;
      assert one[first].position == one[clash].position;
      assert {first} <= t.Keys;
    }
  }

  ghost predicate Below(t: Table) {
    forall id :: id in t ==> t[id].position < SHIFT
  }

  /** The next row of phase one, and why it finds its place free. */
  lemma ShiftOne(t: Table, pending: set<Id>, id: Id)
    requires id in pending && pending <= t.Keys
    ensures var now := Shifted(t, t.Keys - pending);
            && Moved(now, id, now[id].position + SHIFT) == Shifted(t, t.Keys - (pending - {id}))
            && (Distinct(t) && Below(t) ==> forall k :: k in now && k != id ==> now[k].position != now[id].position + SHIFT)
  {
  }

  /** How far a table is in phase two: the first k ids placed, everything else shifted out of the way. */
  ghost predicate Placing(t: Table, k: nat) {
    && Distinct(t) && forall id :: id in t ==> t[id].position < k || t[id].position >= SHIFT
  }

  /** Phase two never breaks the index either, whether or not the ids repeat. */
  lemma {:induction false} PlacingSafe(t: Table, ids: seq<Id>)
    requires Placing(t, 0) && |ids| <= SHIFT && forall i :: 0 <= i < |ids| ==> ids[i] in t
    ensures Placing(Placed(t, ids), |ids|)
  {
    if ids != [] {
      PlacingSafe(t, ids[..|ids| - 1]);
    }
  }

  lemma PlacedMore(t: Table, ids: seq<Id>, n: nat)
    requires n < |ids| && forall i :: 0 <= i < |ids| ==> ids[i] in t
    ensures Placed(t, ids[..n + 1]) == Moved(Placed(t, ids[..n]), ids[n], n)
  {
    assert ids[..n + 1][..n] == ids[..n];
  }

  /** The next row of phase two finds its place free. */
  lemma PlaceFree(t: Table, ids: seq<Id>, n: nat)
    requires n < |ids| <= SHIFT && Placing(t, 0) && forall i :: 0 <= i < |ids| ==> ids[i] in t
    ensures forall k :: k in t && k != ids[n] ==> Placed(t, ids[..n])[k].position != n
  {
    PlacingSafe(t, ids[..n]);
  }

  /** A placed row has the last index its id is given. */
  lemma {:induction false} PlacedAt(t: Table, ids: seq<Id>, i: nat)
    requires forall k :: 0 <= k < |ids| ==> ids[k] in t
    requires i < |ids| && forall k :: i < k < |ids| ==> ids[k] != ids[i]
    ensures Placed(t, ids)[ids[i]] == t[ids[i]].(position := i)
  {
    var n := |ids| - 1;
    if i < n {
      PlacedAt(t, ids[..n], i);
    } else {
      PlacedKeeps(t, ids[..n], ids[n]);
    }
  }

  lemma {:induction false} PlacedKeeps(t: Table, ids: seq<Id>, id: Id)
    requires (forall k :: 0 <= k < |ids| ==> ids[k] in t) && id in t
    ensures Placed(t, ids)[id] == t[id].(position := Placed(t, ids)[id].position)
    ensures (forall k :: 0 <= k < |ids| ==> ids[k] != id) ==> Placed(t, ids)[id] == t[id]
  {
    if ids != [] {
      PlacedKeeps(t, ids[..|ids| - 1], id);
    }
  }

  /** When every row is placed once, the table lists the rules in the order of the ids. */
  lemma PlacedLists(t: Table, ids: seq<Id>, s: seq<Rule>)
    requires NoDup(ids) && |s| == |ids| && (forall k :: 0 <= k < |ids| ==> ids[k] in t && t[ids[k]].id == ids[k])
    requires forall id :: id in t ==> id in ids
    requires forall k :: 0 <= k < |ids| ==> s[k] == t[ids[k]].(position := k)
    ensures Lists(Placed(t, ids), s)
  {
    forall k | 0 <= k < |ids| ensures Placed(t, ids)[ids[k]] == s[k] { PlacedAt(t, ids, k); }
    forall id | id in t ensures Placed(t, ids)[id].position < |s| && s[Placed(t, ids)[id].position] == Placed(t, ids)[id] {
      var k :| 0 <= k < |ids| && ids[k] == id;
    }
  }

  // ---------- reordering by an arbitrary accepted list ----------

  function ToSet(ids: seq<Id>): set<Id> {
    set i | 0 <= i < |ids| :: ids[i]
  }

  lemma NoDupMore(ids: seq<Id>, n: nat)
    requires |ids| == n + 1
    ensures NoDup(ids) <==> NoDup(ids[..n]) && ids[n] !in ToSet(ids[..n])
  {
    if NoDup(ids[..n]) && ids[n] !in ToSet(ids[..n]) {
      forall i, j | 0 <= i < j < |ids| ensures ids[i] != ids[j] {
        assert ids[..n][i] == ids[i];
      }
    }
  }

  lemma {:induction false} SetSize(ids: seq<Id>)
    ensures |ToSet(ids)| <= |ids| && (|ToSet(ids)| == |ids| <==> NoDup(ids))
  {
    if ids != [] {
      var n := |ids| - 1;
      SetSize(ids[..n]);
      NoDupMore(ids, n);
      assert ToSet(ids) == ToSet(ids[..n]) + {ids[n]};
      if ids[n] in ToSet(ids[..n]) {
        assert ToSet(ids) == ToSet(ids[..n]);
      }
    }
  }

  lemma KeysOf(t: Table, s: seq<Rule>)
    requires Lists(t, s)
    ensures t.Keys == ToSet(IdsOf(s)) && |t.Keys| == |s|
  {
    ListsInPlace(t, s);
    SetSize(IdsOf(s));
    forall id | id in t ensures id in ToSet(IdsOf(s)) {
      assert IdsOf(s)[t[id].position] == id;
    }
  }

  lemma {:induction false} Subset(a: set<Id>, b: set<Id>)
    requires a <= b
    ensures |a| <= |b| && (|a| == |b| ==> a == b)
    decreases a
  {
    if a != {} {
      var x :| x in a;
      Subset(a - {x}, b - {x});
    }
  }

  /** A list of as many members as there are rows names them all exactly when it names none twice. */
  lemma NamesAllIff(keys: set<Id>, ids: seq<Id>)
    requires |ids| == |keys| && ToSet(ids) <= keys
    ensures ToSet(ids) == keys <==> NoDup(ids)
  {
    SetSize(ids);
    Subset(ToSet(ids), keys);
  }

  lemma ArrangedLists(t: Table, s: seq<Rule>, ids: seq<Id>)
    requires Lists(t, s) && Members(s, ids) && NoDup(ids)
    ensures Lists(Placed(Shifted(t, t.Keys), ids), Arranged(s, ids))
  {
    KeysOf(t, s);
    NamesAllIff(t.Keys, ids);
    forall id | id in t ensures id in ids { assert id in ToSet(ids); }
    PlacedLists(Shifted(t, t.Keys), ids, Arranged(s, ids));
  }

  lemma ListsBelow(t: Table, s: seq<Rule>, id: Id)
    requires Lists(t, s) && id in t
    ensures t[id].position < |t.Keys|
  {
    KeysOf(t, s);
  }

  lemma ShiftedAbove(t: Table, ids: seq<Id>, id: Id)
    requires id in t && id !in ids && forall k :: 0 <= k < |ids| ==> ids[k] in t
    ensures Placed(Shifted(t, t.Keys), ids)[id].position >= SHIFT
  {
  }

  lemma RepeatedLeavesOut(t: Table, ids: seq<Id>)
    requires |t.Keys| <= SHIFT && |ids| == |t.Keys| && (forall k :: 0 <= k < |ids| ==> ids[k] in t) && !NoDup(ids)
    ensures !Listed(Placed(Shifted(t, t.Keys), ids))
  {
    NamesAllIff(t.Keys, ids);
    var id :| id in t.Keys && id !in ToSet(ids);
    ShiftedAbove(t, ids, id);
    var placed := Placed(Shifted(t, t.Keys), ids);
    if Listed(placed) {
      var r :| Lists(placed, r);
      ListsBelow(placed, r, id);
    }
  }

  ghost predicate Listed(t: Table) {
    exists s :: Lists(t, s)
  }

  /**
    The list of ids is checked for its length and its members only: of the lists that pass, exactly
    those without repetition leave the positions 0..n-1 behind.
  */
  lemma ReorderListsIff(t: Table, s: seq<Rule>, ids: seq<Id>)
    requires Lists(t, s) && |s| <= SHIFT && Members(s, ids)
    ensures Listed(Placed(Shifted(t, t.Keys), ids)) <==> NoDup(ids)
  {
    KeysOf(t, s);
    if NoDup(ids) {
      ArrangedLists(t, s, ids);
      assert Lists(Placed(Shifted(t, t.Keys), ids), Arranged(s, ids));
    } else {
      RepeatedLeavesOut(t, ids);
    }
  }

  /** Naming the first rule again in the place of the fourth passes all checks: the catch-all's and the local networks' too. */
  lemma ReorderAcceptsRepeats(s: seq<Rule>)
    requires Tidy(s) && |s| >= 5
    ensures var ids := IdsOf(s)[3 := s[0].id]; ReorderAccepted(s, ids) && !NoDup(ids)
  {
    var ids := IdsOf(s)[3 := s[0].id];
    TidyFinds(s);
    forall i | 0 <= i < |ids| ensures Has(s, ids[i]) {
      assert s[if i == 3 then 0 else i].id == ids[i];
    }
    assert ids[0] == ids[3];
  }

  /** So every draft with a user rule has an order that is accepted and leaves the table in disorder. */
  lemma AcceptedRepeatBreaks(t: Table, s: seq<Rule>)
    requires Lists(t, s) && Tidy(s) && 5 <= |s| <= SHIFT
    ensures var ids := IdsOf(s)[3 := s[0].id];
            && ReorderAccepted(s, ids) && (forall i :: 0 <= i < |ids| ==> ids[i] in t)
            && !Listed(Placed(Shifted(t, t.Keys), ids))
  {
    ReorderAcceptsRepeats(s);
    ReorderListsIff(t, s, IdsOf(s)[3 := s[0].id]);
  }
}
