/**
  The route service on its tables. Every renumbering runs inside a transaction: when a row write
  meets the UNIQUE index, the draft is as before.
*/
module Routes {
  import opened Common
  import opened Rules
  import opened Drafts
  import opened Renumbering

  datatype Reply = Done | Refused(status: nat) | Conflict

  /** The list is what sorting the rows by position gives. */
  ghost predicate Ordered(t: Table, s: seq<Rule>) {
    && (forall i :: 0 <= i < |s| ==> s[i].id in t && t[s[i].id] == s[i])
    && (forall i, j :: 0 <= i < j < |s| ==> s[i].position < s[j].position)
    && (forall id :: id in t ==> t[id].id == id && t[id] in s)
  }

  lemma ListsOrdered(t: Table, s: seq<Rule>)
    requires Lists(t, s)
    ensures Ordered(t, s)
  {
  }

  /** The row to come next in the order is the least of those left. */
  lemma LeastIsNext(t: Table, s: seq<Rule>, n: nat, id: Id)
    requires Ordered(t, s) && n <= |s| && id in t && t[id] !in s[..n]
    ensures n < |s| && s[n] !in s[..n] && s[n].position <= t[id].position
    ensures t[id].position <= s[n].position ==> t[id] == s[n]
  {
  }

  /** The first n rows of the order have been taken, `pending` are the ids of the others. */
  ghost predicate Taken(t: Table, s: seq<Rule>, n: nat, pending: set<Id>) {
    && n <= |s| && pending <= t.Keys
    && forall id :: id in t ==> (id in pending <==> t[id] !in s[..n])
  }

  lemma NextIsPending(t: Table, s: seq<Rule>, n: nat, pending: set<Id>)
    requires Ordered(t, s) && Taken(t, s, n, pending)
    ensures n < |s| <==> pending != {}
    ensures n < |s| ==> s[n].id in pending && t[s[n].id] == s[n]
    ensures n < |s| ==> forall id :: id in pending ==> s[n].position <= t[id].position
  {
    forall id | id in pending ensures n < |s| && s[n].position <= t[id].position { LeastIsNext(t, s, n, id); }
    if n < |s| { assert s[n] !in s[..n]; }
  }

  lemma TakeNext(t: Table, s: seq<Rule>, n: nat, pending: set<Id>, id: Id)
    requires Ordered(t, s) && Taken(t, s, n, pending)
    requires id in pending && forall k :: k in pending ==> t[id].position <= t[k].position
    ensures n < |s| && s[..n + 1] == s[..n] + [t[id]] && Taken(t, s, n + 1, pending - {id})
  {
    NextIsPending(t, s, n, pending);
    LeastIsNext(t, s, n, id);
    assert s[..n + 1] == s[..n] + [s[n]];
    forall k | k in t ensures k in pending - {id} <==> t[k] !in s[..n + 1] {
      assert t[k] == s[n] <==> k == id;
    }
  }

  lemma OrderedIds(t: Table, s: seq<Rule>)
    requires Ordered(t, s)
    ensures Distinct(t) && NoDup(IdsOf(s)) && forall id :: id in t ==> id in IdsOf(s)
  {
  }

  /** Renumbering rows in their order closes the gaps. */
  lemma RenumberedLists(t: Table, s: seq<Rule>)
    requires Ordered(t, s)
    ensures Lists(Placed(Shifted(t, t.Keys), IdsOf(s)), Numbered(s))
  {
    OrderedIds(t, s);
    PlacedLists(Shifted(t, t.Keys), IdsOf(s), Numbered(s));
  }

  lemma WithoutOrdered(t: Table, s: seq<Rule>, k: nat)
    requires Lists(t, s) && k < |s|
    ensures Ordered(t - {s[k].id}, s[..k] + s[k + 1..])
  {
  }

  // ---------- adding ----------

  ghost predicate Increasing(s: seq<Rule>) {
    forall i, j :: 0 <= i < j < |s| ==> s[i].position < s[j].position
  }

  lemma {:induction false} KeepIs(s: seq<Rule>, local: bool)
    requires Increasing(s)
    ensures Increasing(Keep(s, local))
    ensures forall r :: r in Keep(s, local) <==> r in s && Local(r) == local
  {
    if s != [] {
      KeepIs(s[1..], local);
      assert forall r :: r in s <==> r == s[0] || r in s[1..];
      var rest := Keep(s[1..], local);
      forall i | 0 <= i < |rest| ensures s[0].position < rest[i].position {
        assert rest[i] in s[1..];
      }
    }
  }

  lemma {:induction false} KeepSizes(s: seq<Rule>)
    ensures |Keep(s, true)| + |Keep(s, false)| == |s|
  {
    if s != [] { KeepSizes(s[1..]); }
  }

  function AddList(s: seq<Rule>, rule: Rule): seq<Rule> {
    Keep(s, true) + [rule] + Keep(s, false)
  }

  /** Rules of the draft are told apart by their ids. */
  lemma PartNoDup(t: Table, s: seq<Rule>, part: seq<Rule>)
    requires Lists(t, s) && Increasing(part) && forall r :: r in part ==> r in s
    ensures forall i, j :: 0 <= i < j < |part| ==> part[i].id != part[j].id
  {
    forall i, j | 0 <= i < j < |part| ensures part[i].id != part[j].id {
      assert part[i] in s && part[j] in s;
      assert t[part[i].id] == part[i] && t[part[j].id] == part[j];
    }
  }

  lemma PartsApart(t: Table, s: seq<Rule>)
    requires Lists(t, s)
    ensures forall r, o :: r in s && o in s && r.id == o.id ==> r == o
  {
  }

  lemma AddListNoDup(t: Table, s: seq<Rule>, rule: Rule)
    requires Lists(t, s) && rule.id !in t
    ensures NoDup(IdsOf(AddList(s, rule)))
  {
    KeepIs(s, true);
    KeepIs(s, false);
    var a, b, all := Keep(s, true), Keep(s, false), AddList(s, rule);
    PartNoDup(t, s, a);
    PartNoDup(t, s, b);
    PartsApart(t, s);
    assert forall r :: r in s ==> r.id in t;
    JoinedNoDup(a, rule, b);
  }

  lemma JoinedNoDup(a: seq<Rule>, rule: Rule, b: seq<Rule>)
    requires forall i, j :: 0 <= i < j < |a| ==> a[i].id != a[j].id
    requires forall i, j :: 0 <= i < j < |b| ==> b[i].id != b[j].id
    requires forall i, j :: 0 <= i < |a| && 0 <= j < |b| ==> a[i].id != b[j].id
    requires (forall i :: 0 <= i < |a| ==> a[i].id != rule.id) && forall j :: 0 <= j < |b| ==> b[j].id != rule.id
    ensures NoDup(IdsOf(a + [rule] + b))
  {
    var all := a + [rule] + b;
    forall i, j | 0 <= i < j < |all| ensures all[i].id != all[j].id {
      assert i > |a| ==> all[i] == b[i - |a| - 1];
      assert j > |a| ==> all[j] == b[j - |a| - 1];
    }
  }

  lemma InIds(s: seq<Rule>, r: Rule)
    requires r in s
    ensures r.id in IdsOf(s)
  {
  }

  lemma AddListHas(s: seq<Rule>, rule: Rule, r: Rule)
    requires Increasing(s)
    ensures r in AddList(s, rule) <==> r in s || r == rule
  {
    KeepIs(s, true);
    KeepIs(s, false);
  }

  lemma AddListCovers(t: Table, s: seq<Rule>, rule: Rule, id: Id)
    requires Lists(t, s) && (id in t || id == rule.id)
    ensures id in IdsOf(AddList(s, rule))
  {
    var r := if id in t then t[id] else rule;
    if id in t { assert s[t[id].position] == r; }
    AddListHas(s, rule, r);
    InIds(AddList(s, rule), r);
  }

  /** A new row parked anywhere ends up after the local rules, and all others keep their order. */
  lemma AddedLists(t: Table, s: seq<Rule>, rule: Rule)
    requires Lists(t, s) && rule.id !in t
    ensures var t' := Shifted(t, t.Keys)[rule.id := rule];
            var all := AddList(s, rule);
            && (forall k :: 0 <= k < |all| ==> all[k].id in t')
            && Lists(Placed(t', IdsOf(all)), Numbered(all))
  {
    var t', all := Shifted(t, t.Keys)[rule.id := rule], AddList(s, rule);
    AddListNoDup(t, s, rule);
    forall id | id in t' ensures id in IdsOf(all) { AddListCovers(t, s, rule, id); }
    forall k | 0 <= k < |all| ensures all[k].id in t' && Numbered(all)[k] == t'[all[k].id].(position := k) {
      AddListHas(s, rule, all[k]);
    }
    PlacedLists(t', IdsOf(all), Numbered(all));
  }

  /** The parking place is behind every shifted row. */
  lemma ParkedBehind(t: Table, s: seq<Rule>, position: nat)
    requires Lists(t, s) && position == |s| + 20_000
    ensures |s| < SHIFT ==> Below(t) && forall id :: id in t ==> Shifted(t, t.Keys)[id].position < position
  {
  }

  lemma ParkedPlacing(t: Table, rule: Rule)
    requires Distinct(t) && rule.id !in t && rule.position >= SHIFT
    requires forall id :: id in t ==> Shifted(t, t.Keys)[id].position != rule.position
    ensures Placing(Shifted(t, t.Keys)[rule.id := rule], 0)
  {
  }

  lemma AddOrderIs(s: seq<Rule>, id: Id, action: Action, matcher: Matcher, value: string, enabled: bool)
    ensures AddOrder(s, id, action, matcher, value, enabled)
         == Numbered(AddList(s, Rule(id, |s| + 20_000, action, matcher, value, User, false, enabled)))
  {
  }

  // ---------- updating in place ----------

  lemma ReplacedLists(t: Table, s: seq<Rule>, k: nat, r: Rule)
    requires Lists(t, s) && k < |s| && r.id == s[k].id && r.position == k
    ensures Lists(t[r.id := r], s[k := r])
  {
  }

  /** The table after the local rules at the first n positions have got the action. */
  function Acted(t: Table, action: Action, n: nat): Table {
    map id | id in t :: if Local(t[id]) && t[id].position < n then t[id].(action := action) else t[id]
  }

  lemma ActedNext(t: Table, s: seq<Rule>, action: Action, n: nat)
    requires Lists(t, s) && n < |s|
    ensures s[n].id in t
    ensures Acted(t, action, n + 1)
         == if Local(s[n]) then Acted(t, action, n)[s[n].id := s[n].(action := action)] else Acted(t, action, n)
  {
  }

  lemma ActedNone(t: Table, action: Action)
    ensures Acted(t, action, 0) == t
  {
  }

  lemma ActedAll(t: Table, s: seq<Rule>, action: Action)
    requires Lists(t, s)
    ensures Lists(Acted(t, action, |s|), WithLocalAction(s, action))
  {
    var after, rules := Acted(t, action, |s|), WithLocalAction(s, action);
    forall i | 0 <= i < |rules| ensures rules[i].position == i && rules[i].id in after && after[rules[i].id] == rules[i] {
      assert t[s[i].id] == s[i];
    }
    forall id | id in after ensures after[id].id == id && after[id].position < |rules| && rules[after[id].position] == after[id] {
      assert s[t[id].position] == t[id];
    }
  }

  lemma AtPosition(t: Table, s: seq<Rule>, id: Id)
    requires Lists(t, s)
    ensures id in t <==> Has(s, id)
    ensures id in t ==> At(s, id) == t[id].position && s[At(s, id)] == t[id]
  {
  }

  function Cut(s: seq<Rule>, id: Id): seq<Rule>
    requires Has(s, id)
  {
    s[..At(s, id)] + s[At(s, id) + 1..]
  }

  /** The rows after a removal, before they are numbered again. */
  lemma RemovedOrdered(t: Table, s: seq<Rule>, id: Id)
    requires Lists(t, s) && id in t && !t[id].locked
    ensures Has(s, id) && Ordered(t - {id}, Cut(s, id)) && RemoveOrder(s, id) == Numbered(Cut(s, id))
    ensures |s| <= SHIFT ==> Below(t - {id}) && |Cut(s, id)| <= SHIFT
  {
    AtPosition(t, s, id);
    WithoutOrdered(t, s, At(s, id));
  }

  lemma MembersListed(t: Table, s: seq<Rule>, ids: seq<Id>)
    requires Lists(t, s) && Members(s, ids)
    ensures forall i :: 0 <= i < |ids| ==> ids[i] in t
    ensures Distinct(t) && (|s| <= SHIFT ==> Below(t))
  {
  }

  lemma WrittenLists(t: Table, s: seq<Rule>, n: nat)
    requires n < |s| && NoDup(IdsOf(s)) && s[n].position == n && Lists(t, s[..n])
    ensures s[n].id !in t && Lists(t[s[n].id := s[n]], s[..n + 1])
  {
  }

  lemma VersionsAre(revisions: map<nat, seq<Rule>>, active: nat)
    requires forall v :: v in revisions <==> 1 <= v <= active
    ensures revisions.Keys == {} <==> active == 0
    ensures active > 0 ==> active in revisions
  {
  }

  function Complaint(current: seq<Rule>, ids: seq<Id>): (status: Option<nat>)
    ensures status.None? <==> ReorderAccepted(current, ids)
    ensures status.Some? ==> status.value == if Members(current, ids) then 409 else 400
  {
    if !Members(current, ids) then Some(400)
    else if !EndsAt(ids, CatchAll(current)) || !StartsWith(ids, LocalRules(current)) then Some(409)
    else None
  }

  // ---------- the service ----------

  class RouteService {
    const letter: char -> bool
    var drafts: Table
    var revisions: map<nat, seq<Rule>>
    var active: nat
    ghost var order: seq<Rule>  // the draft in order of position

    ghost function Current(): State
      reads this
    {
      State(order, revisions, active)
    }

    /** Versions are 1..active, and every revision is a well numbered list. */
    ghost predicate Kept()
      reads this`revisions, this`active
    {
      && (forall v :: v in revisions <==> 1 <= v <= active)
      && (forall v :: v in revisions ==> InPlace(revisions[v]))
    }

    ghost predicate Valid()
      reads this
    {
      Lists(drafts, order) && Kept()
    }

    constructor (letter: char -> bool, ids: seq<Id>)
      requires |ids| == 4 && NoDup(ids)
      ensures Valid() && this.letter == letter && Current() == State(Seed(ids), map[], 0)
    {
      this.letter := letter;
      drafts, revisions, active, order := map[], map[], 0, [];
      new;
      WriteDraft(Seed(ids), ids);
      assert Relabelled(Seed(ids), ids) == Seed(ids);
    }

    /** One `UPDATE ... SET position` of one row: refused when another row stands there. */
    method WriteRow(id: Id, position: nat) returns (ok: bool)
      requires id in drafts && Distinct(drafts)
      modifies this`drafts
      ensures Distinct(drafts)
      ensures ok <==> forall k :: k in old(drafts) && k != id ==> old(drafts)[k].position != position
      ensures drafts == if ok then Moved(old(drafts), id, position) else old(drafts)
    {
      if exists k | k in drafts :: k != id && drafts[k].position == position { return false; }
      drafts := drafts[id := drafts[id].(position := position)];
      return true;
    }

    /** `UPDATE route_drafts SET position = position + 10000`, row by row in any order. */
    method ShiftAll() returns (ok: bool)
      requires Distinct(drafts)
      modifies this`drafts
      ensures Distinct(drafts)
      ensures ok ==> drafts == Shifted(old(drafts), old(drafts).Keys)
      ensures Below(old(drafts)) ==> ok
    {
      ghost var t := drafts;
      var pending := drafts.Keys;
      assert Shifted(t, t.Keys - pending) == t;
      while pending != {}
        invariant pending <= t.Keys && Distinct(drafts) && drafts == Shifted(t, t.Keys - pending)
        decreases pending
      {
        var id :| id in pending;
        ShiftOne(t, pending, id);
        ok := WriteRow(id, drafts[id].position + SHIFT);
        if !ok { return; }
        pending := pending - {id};
      }
      assert t.Keys - pending == t.Keys;
      ok := true;
    }

    method PlaceAll(ids: seq<Id>) returns (ok: bool)
      requires Distinct(drafts) && forall i :: 0 <= i < |ids| ==> ids[i] in drafts
      modifies this`drafts
      ensures Distinct(drafts)
      ensures ok ==> drafts == Placed(old(drafts), ids)
      ensures Placing(old(drafts), 0) && |ids| <= SHIFT ==> ok
    {
      ghost var t := drafts;
      for position := 0 to |ids|
        invariant Distinct(drafts) && drafts == Placed(t, ids[..position])
      {
        PlacedMore(t, ids, position);
        if Placing(t, 0) && |ids| <= SHIFT { PlaceFree(t, ids, position); }
        ok := WriteRow(ids[position], position);
        if !ok { return; }
      }
      assert ids[..|ids|] == ids;
      ok := true;
    }

    /** `SELECT * FROM route_drafts ORDER BY position`. */
    method Draft(ghost expected: seq<Rule>) returns (rules: seq<Rule>)
      requires Ordered(drafts, expected)
      ensures rules == expected
    {
      rules := [];
      var pending := drafts.Keys;
      while pending != {}
        invariant Taken(drafts, expected, |rules|, pending) && rules == expected[..|rules|]
        decreases pending
      {
        NextIsPending(drafts, expected, |rules|, pending);
        var id :| id in pending && forall k | k in pending :: drafts[id].position <= drafts[k].position;
        TakeNext(drafts, expected, |rules|, pending, id);
        rules := rules + [drafts[id]];
        pending := pending - {id};
      }
      NextIsPending(drafts, expected, |rules|, pending);
    }

    method Rows() returns (rules: seq<Rule>)
      requires Lists(drafts, order)
      ensures rules == order
    {
      ListsOrdered(drafts, order);
      rules := Draft(order);
    }

    /** Shift everything, then place the ids. */
    method Renumber(ids: seq<Id>) returns (ok: bool)
      requires Distinct(drafts) && forall i :: 0 <= i < |ids| ==> ids[i] in drafts
      modifies this`drafts
      ensures Distinct(drafts)
      ensures ok ==> drafts == Placed(Shifted(old(drafts), old(drafts).Keys), ids)
      ensures |ids| <= SHIFT && Below(old(drafts)) ==> ok
    {
      ok := ShiftAll();
      if ok {
        ok := PlaceAll(ids);
      }
    }

    method Add(id: Id, action: Action, matcher: Matcher, value: string, enabled: bool) returns (reply: Reply)
      requires Lists(drafts, order) && id !in drafts
      modifies this`drafts, this`order
      ensures Lists(drafts, order)
      ensures reply == Refused(400) <==> !ValidValue(matcher, value, letter)
      ensures reply == Refused(409) <==> ValidValue(matcher, value, letter) && matcher == Suffix && value == "*"
      ensures reply.Refused? ==> reply.status == 400 || reply.status == 409
      ensures reply.Conflict? ==> |old(order)| >= SHIFT
      ensures reply.Done? ==> order == AddOrder(old(order), id, action, matcher, value, enabled)
      ensures !reply.Done? ==> order == old(order) && drafts == old(drafts)
    {
      if !ValidValue(matcher, value, letter) { return Refused(400); }
      if Terminal(matcher, value) { return Refused(409); }
      var saved := drafts;
      var ok := AddRule(id, action, matcher, value, enabled);
      if !ok {
        drafts := saved;
        return Conflict;
      }
      return Done;
    }

    method AddRule(id: Id, action: Action, matcher: Matcher, value: string, enabled: bool) returns (ok: bool)
      requires Lists(drafts, order) && id !in drafts
      modifies this`drafts, this`order
      ensures ok ==> Lists(drafts, order) && order == AddOrder(old(order), id, action, matcher, value, enabled)
      ensures !ok ==> order == old(order) && |order| >= SHIFT
    {
      var current := Rows();
      ok := Insert(Rule(id, |current| + 20_000, action, matcher, value, User, false, enabled), current);
      if ok {
        AddOrderIs(order, id, action, matcher, value, enabled);
        order := AddOrder(order, id, action, matcher, value, enabled);
      }
    }

    /** A new row behind all others. */
    method Park(rule: Rule) returns (ok: bool)
      requires Distinct(drafts) && rule.id !in drafts
      modifies this`drafts
      ensures Distinct(drafts)
      ensures ok <==> forall id :: id in old(drafts) ==> old(drafts)[id].position != rule.position
      ensures drafts == if ok then old(drafts)[rule.id := rule] else old(drafts)
    {
      if exists k | k in drafts :: drafts[k].position == rule.position { return false; }
      drafts := drafts[rule.id := rule];
      return true;
    }

    /** The transaction of `add`: shift, park the new row, place. */
    method Insert(rule: Rule, current: seq<Rule>) returns (ok: bool)
      requires Lists(drafts, current) && rule.id !in drafts && rule.position == |current| + 20_000
      modifies this`drafts
      ensures ok ==> Lists(drafts, Numbered(AddList(current, rule)))
      ensures |current| < SHIFT ==> ok
    {
      ghost var t := drafts;
      ListsInPlace(t, current);
      AddedLists(t, current, rule);
      KeepSizes(current);
      ParkedBehind(t, current, rule.position);
      ok := ShiftAll();
      if !ok { return; }
      ok := Park(rule);
      if !ok { return; }
      ParkedPlacing(t, rule);
      ok := PlaceAll(IdsOf(AddList(current, rule)));
    }

    /** The transaction of `reorder`. */
    method Rearrange(ids: seq<Id>) returns (ok: bool)
      requires Lists(drafts, order) && Members(order, ids)
      modifies this`drafts
      ensures ok && NoDup(ids) ==> Lists(drafts, Arranged(order, ids))
      ensures ok && |ids| <= SHIFT ==> (Listed(drafts) <==> NoDup(ids))
      ensures |ids| <= SHIFT ==> ok
    {
      MembersListed(drafts, order, ids);
      if |ids| <= SHIFT { ReorderListsIff(drafts, order, ids); }
      if NoDup(ids) { ArrangedLists(drafts, order, ids); }
      ok := Renumber(ids);
    }

    /** The rows in their order, numbered from 0 again. */
    method Reindex(ghost rules: seq<Rule>) returns (ok: bool)
      requires Ordered(drafts, rules)
      modifies this`drafts
      ensures ok ==> Lists(drafts, Numbered(rules))
      ensures |rules| <= SHIFT && Below(old(drafts)) ==> ok
    {
      var current := Draft(rules);
      OrderedIds(drafts, current);
      RenumberedLists(drafts, current);
      ok := Renumber(IdsOf(current));
    }

    method Reorder(ids: seq<Id>) returns (reply: Reply)
      requires Lists(drafts, order)
      modifies this`drafts, this`order
      ensures reply.Refused? <==> !ReorderAccepted(old(order), ids)
      ensures reply.Refused? ==> reply.status == if Members(old(order), ids) then 409 else 400
      ensures reply.Conflict? ==> |old(order)| > SHIFT
      ensures !reply.Done? ==> order == old(order) && drafts == old(drafts)
      ensures reply.Done? && NoDup(ids) ==> Lists(drafts, order) && Members(old(order), ids) && order == Arranged(old(order), ids)
      ensures reply.Done? && |ids| <= SHIFT ==> (Listed(drafts) <==> NoDup(ids))
    {
      var current := Rows();
      var complaint := Complaint(current, ids);
      if complaint.Some? { return Refused(complaint.value); }
      var saved := drafts;
      var ok := Rearrange(ids);
      if !ok {
        drafts := saved;
        return Conflict;
      }
      if NoDup(ids) { order := Arranged(order, ids); }
      return Done;
    }

    method Remove(id: Id) returns (reply: Reply)
      requires Lists(drafts, order)
      modifies this`drafts, this`order
      ensures Lists(drafts, order)
      ensures reply == Refused(404) <==> id !in old(drafts)
      ensures reply == Refused(409) <==> id in old(drafts) && old(drafts)[id].locked
      ensures reply.Refused? ==> reply.status == 404 || reply.status == 409
      ensures reply.Conflict? ==> |old(order)| > SHIFT
      ensures reply.Done? ==> order == RemoveOrder(old(order), id)
      ensures !reply.Done? ==> order == old(order) && drafts == old(drafts)
    {
      if id !in drafts { return Refused(404); }
      if drafts[id].locked { return Refused(409); }
      var saved := drafts;
      RemovedOrdered(saved, order, id);
      drafts := drafts - {id};
      var ok := Reindex(Cut(order, id));
      if !ok {
        drafts := saved;
        return Conflict;
      }
      order := Numbered(Cut(order, id));
      return Done;
    }

    method Update(id: Id, edit: Edit) returns (reply: Reply)
      requires Lists(drafts, order)
      modifies this`drafts, this`order
      ensures Lists(drafts, order)
      ensures reply == match UpdateRefusal(old(order), id, edit, letter) case None => Done case Some(status) => Refused(status)
      ensures order == UpdateOrder(old(order), id, edit, letter)
      ensures reply.Refused? ==> order == old(order) && drafts == old(drafts)
    {
      AtPosition(drafts, order, id);
      if id !in drafts { return Refused(404); }
      var before := drafts[id];
      if before.locked && Structural(edit) { return Refused(409); }
      if Local(before) && edit.action.Some? {
        UpdateLocal(edit.action.value);
        return Done;
      }
      var after := Edited(before, edit);
      if !ValidValue(after.matcher, after.value, letter) { return Refused(400); }
      if !Terminal(before.matcher, before.value) && Terminal(after.matcher, after.value) { return Refused(409); }
      ReplacedLists(drafts, order, before.position, after);
      drafts := drafts[id := after];
      order := order[before.position := after];
      return Done;
    }

    /** The local networks share one action. */
    method UpdateLocal(action: Action)
      requires Lists(drafts, order)
      modifies this`drafts, this`order
      ensures Lists(drafts, order) && order == WithLocalAction(old(order), action)
    {
      ActedAll(drafts, order, action);
      var rules := Rows();
      SetActions(rules, action);
      order := WithLocalAction(order, action);
    }

    method SetActions(rules: seq<Rule>, action: Action)
      requires Lists(drafts, rules)
      modifies this`drafts
      ensures drafts == Acted(old(drafts), action, |rules|)
    {
      ghost var t := drafts;
      ActedNone(t, action);
      for i := 0 to |rules|
        invariant drafts == Acted(t, action, i)
      {
        ActedNext(t, rules, action, i);
        if Local(rules[i]) { drafts := drafts[rules[i].id := rules[i].(action := action)]; }
      }
    }

    /** The draft becomes the given rules under the given ids: all rows out, then in one by one. */
    method WriteDraft(rules: seq<Rule>, ids: seq<Id>)
      requires NoDup(ids) && |ids| == |rules|
      modifies this`drafts, this`order
      ensures Lists(drafts, order) && order == Relabelled(rules, ids)
    {
      drafts := map[];
      order := Relabelled(rules, ids);
      for position := 0 to |rules|
        invariant order == Relabelled(rules, ids)
        invariant Lists(drafts, order[..position])
      {
        var row := rules[position].(id := ids[position], position := position);
        WrittenLists(drafts, order, position);
        drafts := drafts[row.id := row];
      }
      assert order[..|rules|] == order;
    }

    method Publish() returns (reply: Reply)
      requires Valid()
      modifies this`revisions, this`active
      ensures Valid() && reply == (if order == [] then Refused(409) else Done)
      ensures Current() == old(Next(Current(), Drafts.Publish, letter))
    {
      ListsInPlace(drafts, order);
      var rules := Rows();
      if |rules| == 0 { return Refused(409); }
      AddRevision(rules);
      return Done;
    }

    /** One revision more, which is the active one: its version is the greatest so far plus one. */
    method AddRevision(rules: seq<Rule>)
      requires Kept() && InPlace(rules)
      modifies this`revisions, this`active
      ensures Kept() && active == old(active) + 1 && revisions == old(revisions)[active := rules]
    {
      var version := 1;
      VersionsAre(revisions, active);
      if revisions.Keys != {} {
        var latest :| latest in revisions && forall v | v in revisions :: v <= latest;
        version := latest + 1;
      }
      assert version == active + 1;
      revisions := revisions[version := rules];
      active := version;
    }

    method Discard() returns (reply: Reply)
      requires Valid()
      modifies this`drafts, this`order
      ensures Valid() && reply == (if active == 0 then Refused(409) else Done)
      ensures Current() == old(Next(Current(), Drafts.Discard, letter))
    {
      if active <= 0 { return Refused(409); }
      var rules := revisions[active];
      WriteDraft(rules, IdsOf(rules));
      assert Relabelled(rules, IdsOf(rules)) == Numbered(rules);
      return Done;
    }

    /** A new revision with the rules of an old one; the draft gets them under new ids. */
    method Rollback(version: nat, ids: seq<Id>) returns (reply: Reply)
      requires Valid() && NoDup(ids) && (version in revisions ==> |ids| == |revisions[version]|)
      modifies this
      ensures Valid()
      ensures reply == if version !in old(revisions) then Refused(404) else if ids == [] then Refused(409) else Done
      ensures Current() == old(Next(Current(), Drafts.Rollback(version, ids), letter))
    {
      if version !in revisions { return Refused(404); }
      var rules := revisions[version];
      if |rules| == 0 { return Refused(409); }
      WriteDraft(rules, ids);
      AddRevision(rules);
      return Done;
    }
  }
}
