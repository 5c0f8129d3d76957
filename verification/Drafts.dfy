/**
  The draft of route rules as an ordered list, its immutable revisions, and everything the panel
  does to them, over values. A list is well numbered when every rule's position is its index.
*/
module Drafts {
  import opened Common
  import opened Rules
  import opened Text

  datatype State = State(order: seq<Rule>, revisions: map<nat, seq<Rule>>, active: nat)

  /** What a rule edit may carry; absent fields keep their value. */
  datatype Edit = Edit(action: Option<Action>, matcher: Option<Matcher>, value: Option<string>, enabled: Option<bool>)

  datatype Event =
    | Add(id: Id, action: Action, matcher: Matcher, value: string, enabled: bool)
    | Update(id: Id, edit: Edit)
    | Remove(id: Id)
    | Reorder(ids: seq<Id>)
    | Publish
    | Discard
    | Rollback(version: nat, ids: seq<Id>)

  // ---------- lists ----------

  function Numbered(s: seq<Rule>): (r: seq<Rule>)
    ensures |r| == |s| && forall i :: 0 <= i < |s| ==> r[i] == s[i].(position := i)
  {
    seq(|s|, i requires 0 <= i < |s| => s[i].(position := i))
  }

  predicate InPlace(s: seq<Rule>) {
    && (forall i :: 0 <= i < |s| ==> s[i].position == i)
    && (forall i, j :: 0 <= i < j < |s| ==> s[i].id != s[j].id)
  }

  function Keep(s: seq<Rule>, local: bool): seq<Rule> {
    if s == [] then []
    else (if Local(s[0]) == local then [s[0]] else []) + Keep(s[1..], local)
  }

  function IdsOf(s: seq<Rule>): (ids: seq<Id>)
    ensures |ids| == |s| && forall i :: 0 <= i < |s| ==> ids[i] == s[i].id
  {
    seq(|s|, i requires 0 <= i < |s| => s[i].id)
  }

  predicate Has(s: seq<Rule>, id: Id) {
    exists i :: 0 <= i < |s| && s[i].id == id
  }

  function At(s: seq<Rule>, id: Id): (i: nat)
    requires Has(s, id)
    ensures i < |s| && s[i].id == id
    decreases |s|
  {
    if s[0].id == id then 0 else
      assert Has(s[1..], id) by { var i :| 0 <= i < |s| && s[i].id == id; assert s[1..][i - 1].id == id; }
      1 + At(s[1..], id)
  }

  /** The rules of the draft in the order the ids are given. */
  function Arranged(s: seq<Rule>, ids: seq<Id>): (r: seq<Rule>)
    requires forall i :: 0 <= i < |ids| ==> Has(s, ids[i])
    ensures |r| == |ids| && forall i :: 0 <= i < |ids| ==> r[i] == s[At(s, ids[i])].(position := i)
  {
    seq(|ids|, i requires 0 <= i < |ids| => s[At(s, ids[i])].(position := i))
  }

  /** What survives normalisation: everything but ids (and timestamps, which are not part of this model). */
  function Normal(s: seq<Rule>): (r: seq<Rule>)
    ensures |r| == |s| && forall i :: 0 <= i < |s| ==> r[i] == s[i].(id := 0)
  {
    seq(|s|, i requires 0 <= i < |s| => s[i].(id := 0))
  }

  predicate Dirty(st: State) {
    st.active == 0 || st.active !in st.revisions || Normal(st.order) != Normal(st.revisions[st.active])
  }

  /** The rules the clients get. */
  function Published(st: State): seq<Rule> {
    if st.active > 0 && st.active in st.revisions then st.revisions[st.active] else st.order
  }

  // ---------- operations ----------

  predicate Structural(edit: Edit) {
    edit.matcher.Some? || edit.value.Some? || edit.enabled.Some?
  }

  function Or<T>(carried: Option<T>, kept: T): T {
    if carried.Some? then carried.value else kept
  }

  function Edited(r: Rule, edit: Edit): Rule {
    r.(action := Or(edit.action, r.action), matcher := Or(edit.matcher, r.matcher),
       value := Or(edit.value, r.value), enabled := Or(edit.enabled, r.enabled))
  }

  function WithLocalAction(s: seq<Rule>, action: Action): (r: seq<Rule>)
    ensures |r| == |s| && forall i :: 0 <= i < |s| ==> r[i] == if Local(s[i]) then s[i].(action := action) else s[i]
  {
    seq(|s|, i requires 0 <= i < |s| => if Local(s[i]) then s[i].(action := action) else s[i])
  }

  predicate AddAccepted(e: Event, letter: char -> bool)
    requires e.Add?
  {
    ValidValue(e.matcher, e.value, letter) && !Terminal(e.matcher, e.value)
  }

  function AddOrder(s: seq<Rule>, id: Id, action: Action, matcher: Matcher, value: string, enabled: bool): seq<Rule> {
    Numbered(Keep(s, true) + [Rule(id, 0, action, matcher, value, User, false, enabled)] + Keep(s, false))
  }

  /** The status an update is refused with, in the order of the checks. */
  function UpdateRefusal(s: seq<Rule>, id: Id, edit: Edit, letter: char -> bool): Option<nat> {
    if !Has(s, id) then Some(404)
    else
      var before := s[At(s, id)];
      var after := Edited(before, edit);
      if before.locked && Structural(edit) then Some(409)
      else if Local(before) && edit.action.Some? then None
      else if !ValidValue(after.matcher, after.value, letter) then Some(400)
      else if !Terminal(before.matcher, before.value) && Terminal(after.matcher, after.value) then Some(409)
      else None
  }

  function UpdateOrder(s: seq<Rule>, id: Id, edit: Edit, letter: char -> bool): seq<Rule> {
    if UpdateRefusal(s, id, edit, letter).Some? then s
    else
      var k := At(s, id);
      if Local(s[k]) && edit.action.Some? then WithLocalAction(s, edit.action.value) else s[k := Edited(s[k], edit)]
  }

  function RemoveOrder(s: seq<Rule>, id: Id): seq<Rule> {
    if !Has(s, id) || s[At(s, id)].locked then s else Numbered(s[..At(s, id)] + s[At(s, id) + 1..])
  }

  /** The first rule with the property, as `find` gives it. */
  function Find(s: seq<Rule>, p: Rule -> bool): (r: Option<Rule>)
    ensures r.Some? ==> r.value in s && p(r.value)
    ensures r.None? ==> forall i :: 0 <= i < |s| ==> !p(s[i])
  {
    if s == [] then None else if p(s[0]) then Some(s[0]) else Find(s[1..], p)
  }

  function FindLocal(s: seq<Rule>, network: string): seq<Rule> {
    var found := Find(s, (r: Rule) => Local(r) && r.value == network);
    if found.Some? then [found.value] else []
  }

  /** The rules of the local networks, in the networks' order; a missing one is left out. */
  function LocalRules(s: seq<Rule>): seq<Rule> {
    FindLocal(s, LOCAL_NETWORKS[0]) + FindLocal(s, LOCAL_NETWORKS[1]) + FindLocal(s, LOCAL_NETWORKS[2])
  }

  predicate StartsWith(ids: seq<Id>, rules: seq<Rule>) {
    |rules| <= |ids| && forall k :: 0 <= k < |rules| ==> ids[k] == rules[k].id
  }

  predicate EndsAt(ids: seq<Id>, rule: Option<Rule>) {
    rule.Some? ==> ids != [] && ids[|ids| - 1] == rule.value.id
  }

  predicate Members(s: seq<Rule>, ids: seq<Id>) {
    |ids| == |s| && forall i :: 0 <= i < |ids| ==> Has(s, ids[i])
  }

  function CatchAll(s: seq<Rule>): (r: Option<Rule>) {
    Find(s, (r: Rule) => Terminal(r.matcher, r.value))
  }

  predicate ReorderAccepted(s: seq<Rule>, ids: seq<Id>) {
    Members(s, ids) && EndsAt(ids, CatchAll(s)) && StartsWith(ids, LocalRules(s))
  }

  function Relabelled(s: seq<Rule>, ids: seq<Id>): (r: seq<Rule>)
    requires |ids| == |s|
    ensures |r| == |s| && forall i :: 0 <= i < |s| ==> r[i] == s[i].(id := ids[i], position := i)
  {
    seq(|s|, i requires 0 <= i < |s| => s[i].(id := ids[i], position := i))
  }

  function Revised(st: State, rules: seq<Rule>, order: seq<Rule>): State {
    State(order, st.revisions[st.active + 1 := rules], st.active + 1)
  }

  /** An operation on the draft alone. */
  predicate OnDraft(e: Event) {
    e.Add? || e.Update? || e.Remove? || e.Reorder?
  }

  function OrderAfter(s: seq<Rule>, e: Event, letter: char -> bool): seq<Rule>
    requires OnDraft(e)
  {
    match e
    case Add(id, action, matcher, value, enabled) =>
      if !AddAccepted(e, letter) || Has(s, id) then s else AddOrder(s, id, action, matcher, value, enabled)
    case Update(id, edit) => UpdateOrder(s, id, edit, letter)
    case Remove(id) => RemoveOrder(s, id)
    case Reorder(ids) => if ReorderAccepted(s, ids) then Arranged(s, ids) else s
  }

  function Next(st: State, e: Event, letter: char -> bool): State {
    match e
    case Publish => if st.order == [] then st else Revised(st, st.order, st.order)
    case Discard => if st.active == 0 || st.active !in st.revisions then st else st.(order := Numbered(st.revisions[st.active]))
    case Rollback(version, ids) =>
      if version !in st.revisions || st.revisions[version] == [] || |ids| != |st.revisions[version]| then st
      else Revised(st, st.revisions[version], Relabelled(st.revisions[version], ids))
    case _ => st.(order := OrderAfter(st.order, e, letter))
  }

  /** New ids are new, and a reorder lists every id once. */
  predicate Sound(e: Event) {
    match e
    case Reorder(ids) => NoDup(ids)
    case Rollback(_, ids) => NoDup(ids)
    case _ => true
  }

  predicate NoDup(ids: seq<Id>) {
    forall i, j :: 0 <= i < j < |ids| ==> ids[i] != ids[j]
  }

  function Run(st: State, es: seq<Event>, letter: char -> bool): State
    decreases |es|
  {
    if es == [] then st else Run(Next(st, es[0], letter), es[1..], letter)
  }

  // ---------- the shape every draft keeps ----------

  predicate LocalAt(s: seq<Rule>, i: nat)
    requires i < |s| && i < 3
  {
    Local(s[i]) && s[i].value == LOCAL_NETWORKS[i] && s[i].locked && s[i].enabled && s[i].action == s[0].action
  }

  predicate UserRule(r: Rule) {
    r.source == User && !r.locked && !Terminal(r.matcher, r.value)
  }

  /** The local networks first, in their order, with one action; the only catch-all last, enabled; user rules between. */
  predicate Tidy(s: seq<Rule>) {
    && |s| >= 4 && InPlace(s)
    && LocalAt(s, 0) && LocalAt(s, 1) && LocalAt(s, 2)
    && (var last := s[|s| - 1]; Terminal(last.matcher, last.value) && last.source == System && last.locked && last.enabled)
    && forall i :: 3 <= i < |s| - 1 ==> UserRule(s[i])
  }

  ghost predicate Inv(st: State) {
    && Tidy(st.order)
    && (forall v :: v in st.revisions <==> 1 <= v <= st.active)
    && (forall v :: v in st.revisions ==> Tidy(st.revisions[v]))
  }

  lemma {:induction false} KeepSplits(s: seq<Rule>, k: nat)
    requires k <= |s| && (forall i :: 0 <= i < k ==> Local(s[i])) && (forall i :: k <= i < |s| ==> !Local(s[i]))
    ensures Keep(s, true) == s[..k] && Keep(s, false) == s[k..]
  {
    if s != [] {
      KeepSplits(s[1..], if k > 0 then k - 1 else 0);
      assert s == [s[0]] + s[1..];
    }
  }

  lemma TidySplits(s: seq<Rule>)
    requires Tidy(s)
    ensures Keep(s, true) == s[..3] && Keep(s, false) == s[3..]
  {
    forall i | 3 <= i < |s| ensures !Local(s[i]) {
      assert i < |s| - 1 ==> UserRule(s[i]);
    }
    KeepSplits(s, 3);
  }

  function Inserted(s: seq<Rule>, rule: Rule): (r: seq<Rule>)
    requires |s| >= 3
    ensures |r| == |s| + 1
    ensures forall i :: 0 <= i <= |s| ==> r[i] == if i < 3 then s[i] else if i == 3 then rule else s[i - 1]
  {
    s[..3] + [rule] + s[3..]
  }

  lemma InsertedKeeps(s: seq<Rule>, rule: Rule)
    requires Tidy(s) && UserRule(rule) && !Has(s, rule.id)
    ensures Tidy(Numbered(Inserted(s, rule)))
  {
  }

  lemma AddKeeps(s: seq<Rule>, id: Id, action: Action, matcher: Matcher, value: string, enabled: bool)
    requires Tidy(s) && !Has(s, id) && !Terminal(matcher, value)
    ensures Tidy(AddOrder(s, id, action, matcher, value, enabled))
  {
    var rule := Rule(id, 0, action, matcher, value, User, false, enabled);
    TidySplits(s);
    InsertedKeeps(s, rule);
    assert Inserted(s, rule) == s[..3] + [rule] + s[3..];
  }

  lemma LocalActionKeeps(s: seq<Rule>, action: Action)
    requires Tidy(s)
    ensures Tidy(WithLocalAction(s, action))
  {
  }

  /** Which rules are locked, and which of those are local. */
  lemma TidyAt(s: seq<Rule>, k: nat)
    requires Tidy(s) && k < |s|
    ensures s[k].locked <==> k < 3 || k == |s| - 1
    ensures k < 3 ==> Local(s[k])
    ensures 3 <= k < |s| - 1 ==> UserRule(s[k])
  {
  }

  lemma EditKeeps(s: seq<Rule>, k: nat, r: Rule)
    requires Tidy(s) && k < |s|
    requires r.id == s[k].id && r.position == s[k].position && r.source == s[k].source && r.locked == s[k].locked
    requires s[k].locked ==> r == s[k] || (k == |s| - 1 && r == s[k].(action := r.action))
    requires !s[k].locked ==> !Terminal(r.matcher, r.value)
    ensures Tidy(s[k := r])
  {
  }

  lemma UpdateKeeps(s: seq<Rule>, id: Id, edit: Edit, letter: char -> bool)
    requires Tidy(s)
    ensures Tidy(UpdateOrder(s, id, edit, letter))
  {
    if Has(s, id) {
      var k := At(s, id);
      TidyAt(s, k);
      LocalActionKeeps(s, if edit.action.Some? then edit.action.value else Direct);
      if UpdateOrder(s, id, edit, letter) == s[k := Edited(s[k], edit)] && !(s[k].locked && Structural(edit))
         && !(Local(s[k]) && edit.action.Some?)
         && (Terminal(s[k].matcher, s[k].value) || !Terminal(Edited(s[k], edit).matcher, Edited(s[k], edit).value)) {
        EditKeeps(s, k, Edited(s[k], edit));
      }
    }
  }

  /** An accepted update sets exactly what it carries, on its rule alone; a new action of a local network goes to all three. */
  lemma UpdateSets(s: seq<Rule>, id: Id, edit: Edit, letter: char -> bool, i: nat)
    requires Has(s, id) && i < |s| && UpdateOrder(s, id, edit, letter) != s
    ensures var k := At(s, id);
            var all := UpdateOrder(s, id, edit, letter);
            |all| == |s| &&
            if Local(s[k]) && edit.action.Some? then all[i] == if Local(s[i]) then s[i].(action := edit.action.value) else s[i]
            else if i != k then all[i] == s[i]
            else all[k] == Rule(id, s[k].position, Or(edit.action, s[k].action), Or(edit.matcher, s[k].matcher),
                                Or(edit.value, s[k].value), s[k].source, s[k].locked, Or(edit.enabled, s[k].enabled))
  {
  }

  lemma CutKeeps(s: seq<Rule>, k: nat)
    requires Tidy(s) && 3 <= k < |s| - 1
    ensures Tidy(Numbered(s[..k] + s[k + 1..]))
  {
  }

  lemma RemoveKeeps(s: seq<Rule>, id: Id)
    requires Tidy(s)
    ensures Tidy(RemoveOrder(s, id))
  {
    if Has(s, id) && !s[At(s, id)].locked {
      TidyAt(s, At(s, id));
      CutKeeps(s, At(s, id));
    }
  }

  lemma AtIs(s: seq<Rule>, i: nat)
    requires InPlace(s) && i < |s|
    ensures Has(s, s[i].id) && At(s, s[i].id) == i
  {
  }

  lemma TidyFindsLocal(s: seq<Rule>, k: nat)
    requires Tidy(s) && k < 3
    ensures FindLocal(s, LOCAL_NETWORKS[k]) == [s[k]]
  {
  }

  lemma TidyFindsCatchAll(s: seq<Rule>)
    requires Tidy(s)
    ensures CatchAll(s) == Some(s[|s| - 1])
  {
  }

  lemma TidyFinds(s: seq<Rule>)
    requires Tidy(s)
    ensures CatchAll(s) == Some(s[|s| - 1]) && LocalRules(s) == [s[0], s[1], s[2]]
  {
    TidyFindsCatchAll(s);
    TidyFindsLocal(s, 0);
    TidyFindsLocal(s, 1);
    TidyFindsLocal(s, 2);
  }

  lemma ArrangedAt(s: seq<Rule>, ids: seq<Id>, i: nat)
    requires |s| >= 4 && (forall i :: 3 <= i < |s| - 1 ==> UserRule(s[i]))
    requires |ids| == |s| && NoDup(ids) && 3 <= i < |s| - 1 && Has(s, ids[i])
    requires ids[0] == s[0].id && ids[1] == s[1].id && ids[2] == s[2].id && ids[|s| - 1] == s[|s| - 1].id
    ensures UserRule(s[At(s, ids[i])])
  {
  }

  lemma ArrangedKeeps(s: seq<Rule>, ids: seq<Id>)
    requires Tidy(s) && Members(s, ids) && NoDup(ids)
    requires ids[0] == s[0].id && ids[1] == s[1].id && ids[2] == s[2].id && ids[|s| - 1] == s[|s| - 1].id
    ensures Tidy(Arranged(s, ids))
  {
    var r := Arranged(s, ids);
    AtIs(s, 0);
    AtIs(s, 1);
    AtIs(s, 2);
    AtIs(s, |s| - 1);
    assert r[0] == s[0] && r[1] == s[1] && r[2] == s[2] && r[|s| - 1] == s[|s| - 1];
    forall i | 3 <= i < |s| - 1 ensures UserRule(r[i]) { ArrangedAt(s, ids, i); }
  }

  lemma ReorderKeeps(s: seq<Rule>, ids: seq<Id>)
    requires Tidy(s) && ReorderAccepted(s, ids) && NoDup(ids)
    ensures Tidy(Arranged(s, ids))
  {
    TidyFinds(s);
    var rules := LocalRules(s);
    assert ids[0] == rules[0].id && ids[1] == rules[1].id && ids[2] == rules[2].id;
    ArrangedKeeps(s, ids);
  }

  lemma NumberedIsItself(s: seq<Rule>)
    requires InPlace(s)
    ensures Numbered(s) == s
  {
  }

  lemma RelabelKeeps(s: seq<Rule>, ids: seq<Id>)
    requires Tidy(s) && |ids| == |s| && NoDup(ids)
    ensures Tidy(Relabelled(s, ids)) && Normal(Relabelled(s, ids)) == Normal(s)
  {
    var r := Relabelled(s, ids);
    forall i | 3 <= i < |r| - 1 ensures UserRule(r[i]) {
      assert UserRule(s[i]);
    }
  }

  lemma DraftKeeps(s: seq<Rule>, e: Event, letter: char -> bool)
    requires Tidy(s) && Sound(e) && OnDraft(e)
    ensures Tidy(OrderAfter(s, e, letter))
  {
    match e
    case Add(id, action, matcher, value, enabled) =>
      if AddAccepted(e, letter) && !Has(s, id) { AddKeeps(s, id, action, matcher, value, enabled); }
    case Update(id, edit) => UpdateKeeps(s, id, edit, letter);
    case Remove(id) => RemoveKeeps(s, id);
    case Reorder(ids) => if ReorderAccepted(s, ids) { ReorderKeeps(s, ids); }
  }

  lemma RevisedKeeps(st: State, rules: seq<Rule>, order: seq<Rule>)
    requires Inv(st) && Tidy(rules) && Tidy(order)
    ensures Inv(Revised(st, rules, order))
  {
  }

  lemma RollbackKeeps(st: State, version: nat, ids: seq<Id>)
    requires Inv(st) && NoDup(ids) && version in st.revisions && |ids| == |st.revisions[version]|
    ensures Inv(Revised(st, st.revisions[version], Relabelled(st.revisions[version], ids)))
  {
    RelabelKeeps(st.revisions[version], ids);
    RevisedKeeps(st, st.revisions[version], Relabelled(st.revisions[version], ids));
  }

  lemma DiscardKeeps(st: State)
    requires Inv(st) && st.active in st.revisions
    ensures Inv(st.(order := Numbered(st.revisions[st.active])))
  {
    NumberedIsItself(st.revisions[st.active]);
  }

  lemma EditKeepsInv(st: State, e: Event, letter: char -> bool)
    requires Inv(st) && Sound(e) && OnDraft(e)
    ensures Inv(st.(order := OrderAfter(st.order, e, letter)))
  {
    DraftKeeps(st.order, e, letter);
  }

  lemma NextKeeps(st: State, e: Event, letter: char -> bool)
    requires Inv(st) && Sound(e)
    ensures Inv(Next(st, e, letter))
  {
    if OnDraft(e) {
      EditKeepsInv(st, e, letter);
    } else if e.Publish? {
      RevisedKeeps(st, st.order, st.order);
    } else if Next(st, e, letter) != st {
      if e.Discard? {
        DiscardKeeps(st);
      } else {
        RollbackKeeps(st, e.version, e.ids);
      }
    }
  }

  ghost predicate AllSound(es: seq<Event>) {
    forall i :: 0 <= i < |es| ==> Sound(es[i])
  }

  /** Every run keeps the shape of the draft and of all revisions, and the versions 1..N with N active. */
  lemma {:induction false} RunKeeps(st: State, es: seq<Event>, letter: char -> bool)
    requires Inv(st) && AllSound(es)
    ensures Inv(Run(st, es, letter))
    decreases |es|
  {
    if es != [] {
      NextKeeps(st, es[0], letter);
      RunKeeps(Next(st, es[0], letter), es[1..], letter);
    }
  }

  lemma NextStands(st: State, e: Event, letter: char -> bool, v: nat)
    requires Inv(st) && v in st.revisions
    ensures v in Next(st, e, letter).revisions && Next(st, e, letter).revisions[v] == st.revisions[v]
  {
  }

  /** A revision never changes once it is there. */
  lemma {:induction false} RevisionsStand(st: State, es: seq<Event>, letter: char -> bool, v: nat)
    requires Inv(st) && AllSound(es) && v in st.revisions
    ensures v in Run(st, es, letter).revisions && Run(st, es, letter).revisions[v] == st.revisions[v]
    decreases |es|
  {
    if es != [] {
      NextKeeps(st, es[0], letter);
      NextStands(st, es[0], letter, v);
      RevisionsStand(Next(st, es[0], letter), es[1..], letter, v);
    }
  }

  /** Publishing, rolling back and discarding leave the draft clean. */
  lemma CleanAfterwards(st: State, e: Event, letter: char -> bool)
    requires Inv(st) && Sound(e)
    requires e.Publish? || (e.Discard? && st.active > 0) || (e.Rollback? && e.version in st.revisions && |e.ids| == |st.revisions[e.version]|)
    ensures !Dirty(Next(st, e, letter))
  {
    match e
    case Discard => NumberedIsItself(st.revisions[st.active]);
    case Rollback(version, ids) => RelabelKeeps(st.revisions[version], ids);
    case _ =>
  }

  lemma RollsBack(st: State, version: nat, ids: seq<Id>, letter: char -> bool)
    requires version in st.revisions && st.revisions[version] != [] && |ids| == |st.revisions[version]|
    ensures Next(st, Rollback(version, ids), letter) == Revised(st, st.revisions[version], Relabelled(st.revisions[version], ids))
  {
  }

  /** A rollback makes a new revision of exactly the target's rules, and a draft equal to it but for ids. */
  lemma RollbackRestores(st: State, version: nat, ids: seq<Id>, letter: char -> bool)
    requires Inv(st) && NoDup(ids) && version in st.revisions && |ids| == |st.revisions[version]|
    ensures var after := Next(st, Rollback(version, ids), letter);
            && after.active == st.active + 1 && after.revisions[after.active] == st.revisions[version]
            && Published(after) == st.revisions[version] && Normal(after.order) == Normal(st.revisions[version])
  {
    RollsBack(st, version, ids, letter);
    RelabelKeeps(st.revisions[version], ids);
  }

  /** Discarding restores the active revision, ids and all, and makes no new one. */
  lemma DiscardRestores(st: State, letter: char -> bool)
    requires Inv(st) && st.active > 0
    ensures var after := Next(st, Discard, letter);
            after.order == st.revisions[st.active] && after.revisions == st.revisions && after.active == st.active
  {
    NumberedIsItself(st.revisions[st.active]);
  }

  /** Whatever is done after a revision was active, rolling back to it serves the clients the same rules again. */
  lemma RollbackUndoesChanges(st: State, es: seq<Event>, ids: seq<Id>, letter: char -> bool)
    requires Inv(st) && st.active > 0 && AllSound(es) && NoDup(ids) && |ids| == |Published(st)|
    ensures var after := Next(Run(st, es, letter), Rollback(st.active, ids), letter);
            Published(after) == Published(st) && Normal(after.order) == Normal(Published(st)) && !Dirty(after)
  {
    RunKeeps(st, es, letter);
    RevisionsStand(st, es, letter, st.active);
    var later := Run(st, es, letter);
    RollbackRestores(later, st.active, ids, letter);
    CleanAfterwards(later, Rollback(st.active, ids), letter);
  }

  // ---------- the seeded draft ----------

  function Seed(ids: seq<Id>): seq<Rule>
    requires |ids| == 4
  {
    [Rule(ids[0], 0, Direct, IpCidr, LOCAL_NETWORKS[0], System, true, true),
     Rule(ids[1], 1, Direct, IpCidr, LOCAL_NETWORKS[1], System, true, true),
     Rule(ids[2], 2, Direct, IpCidr, LOCAL_NETWORKS[2], System, true, true),
     Rule(ids[3], 3, Proxy, Suffix, "*", System, true, true)]
  }

  /** From a fresh installation: the shape of the draft, the versions and the revisions, over all runs. */
  lemma DraftsStayTidy(ids: seq<Id>, es: seq<Event>, letter: char -> bool)
    requires |ids| == 4 && NoDup(ids) && AllSound(es)
    ensures var st := Run(State(Seed(ids), map[], 0), es, letter);
            && Tidy(st.order) && Tidy(Published(st))
            && (forall v :: v in st.revisions <==> 1 <= v <= st.active)
  {
    assert LOCAL_NETWORKS[0] in LOCAL_NETWORKS && LOCAL_NETWORKS[1] in LOCAL_NETWORKS && LOCAL_NETWORKS[2] in LOCAL_NETWORKS;
    RunKeeps(State(Seed(ids), map[], 0), es, letter);
  }

  // ---------- the values the clients are given ----------

  ghost predicate Valued(s: seq<Rule>, letter: char -> bool) {
    forall i :: 0 <= i < |s| ==> ValidValue(s[i].matcher, s[i].value, letter)
  }

  ghost predicate AllValued(st: State, letter: char -> bool) {
    Valued(st.order, letter) && forall v :: v in st.revisions ==> Valued(st.revisions[v], letter)
  }

  lemma {:induction false} KeepValued(s: seq<Rule>, local: bool, letter: char -> bool)
    requires Valued(s, letter)
    ensures Valued(Keep(s, local), letter)
  {
    if s != [] {
      assert ValidValue(s[0].matcher, s[0].value, letter);
      KeepValued(s[1..], local, letter);
    }
  }

  lemma OrderValued(s: seq<Rule>, e: Event, letter: char -> bool)
    requires Valued(s, letter) && OnDraft(e)
    ensures Valued(OrderAfter(s, e, letter), letter)
  {
    match e
    case Add(id, action, matcher, value, enabled) =>
      KeepValued(s, true, letter);
      KeepValued(s, false, letter);
    case Update(id, edit) =>
    case Remove(id) =>
    case Reorder(ids) =>
  }

  lemma NextValued(st: State, e: Event, letter: char -> bool)
    requires AllValued(st, letter)
    ensures AllValued(Next(st, e, letter), letter)
  {
    if OnDraft(e) { OrderValued(st.order, e, letter); }
  }

  /** Whatever is edited, published or brought back, the clients only ever get rules whose values were checked. */
  lemma {:induction false} PublishedIsValid(st: State, es: seq<Event>, letter: char -> bool)
    requires AllValued(st, letter)
    ensures AllValued(Run(st, es, letter), letter) && Valued(Published(Run(st, es, letter)), letter)
    decreases |es|
  {
    if es != [] {
      NextValued(st, es[0], letter);
      PublishedIsValid(Next(st, es[0], letter), es[1..], letter);
    }
  }

  lemma {:induction false} CidrIsShaped(address: string, prefix: string)
    requires address != [] && (forall i :: 0 <= i < |address| ==> CidrChar(address[i]))
    requires 1 <= |prefix| <= 3 && forall i :: 0 <= i < |prefix| ==> Digit(prefix[i])
    ensures CidrShape(address + "/" + prefix)
  {
    SplitHead(address, prefix, '/');
    SplitWhole(prefix, '/');
    assert address + "/" + prefix == address + ['/'] + prefix;
  }

  lemma LocalIsShaped(k: nat)
    requires k < 3
    ensures CidrShape(LOCAL_NETWORKS[k])
  {
    var address, prefix := "192.168.0.0", "16";
    if k == 0 {
      address, prefix := "10.0.0.0", "8";
    } else if k == 1 {
      address, prefix := "172.16.0.0", "12";
    }
    CidrIsShaped(address, prefix);
    assert LOCAL_NETWORKS[k] == address + "/" + prefix;
  }

  lemma SeedAt(ids: seq<Id>, k: nat)
    requires |ids| == 4 && k < 4
    ensures k < 3 ==> Seed(ids)[k].matcher == IpCidr && Seed(ids)[k].value == LOCAL_NETWORKS[k]
    ensures k == 3 ==> Seed(ids)[k].matcher == Suffix && Seed(ids)[k].value == "*"
  {
  }

  lemma ValidAt(s: seq<Rule>, k: nat, letter: char -> bool)
    requires k < |s|
    requires (s[k].matcher == IpCidr && CidrShape(s[k].value)) || (s[k].matcher == Suffix && s[k].value == "*")
    ensures ValidValue(s[k].matcher, s[k].value, letter)
  {
  }

  lemma SeedIsValued(s: seq<Rule>, ids: seq<Id>, letter: char -> bool)
    requires |ids| == 4 && s == Seed(ids)
    ensures AllValued(State(s, map[], 0), letter)
  {
    forall k | 0 <= k < |s| ensures ValidValue(s[k].matcher, s[k].value, letter) {
      SeedAt(ids, k);
      if k < 3 { LocalIsShaped(k); }
      ValidAt(s, k, letter);
    }
  }

  lemma PublishedIsTidyAndValued(ids: seq<Id>, es: seq<Event>, letter: char -> bool)
    requires |ids| == 4 && NoDup(ids) && AllSound(es)
    ensures Tidy(Published(Run(State(Seed(ids), map[], 0), es, letter)))
    ensures Valued(Published(Run(State(Seed(ids), map[], 0), es, letter)), letter)
  {
    SeedIsValued(Seed(ids), ids, letter);
    PublishedIsValid(State(Seed(ids), map[], 0), es, letter);
    DraftsStayTidy(ids, es, letter);
  }
}
