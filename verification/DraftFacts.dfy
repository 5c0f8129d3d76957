/**
  What the operations on a tidy draft do, rule by rule: which edits are accepted, where rules go,
  when the draft counts as changed, and what values the panel takes.
*/
module DraftFacts {
  import opened Common
  import opened Text
  import opened Rules
  import opened Drafts
  import opened Clients

  // ---------- adding and removing ----------

  lemma EventsAre(s: seq<Rule>, id: Id, edit: Edit, letter: char -> bool)
    ensures OrderAfter(s, Remove(id), letter) == RemoveOrder(s, id)
    ensures OrderAfter(s, Update(id, edit), letter) == UpdateOrder(s, id, edit, letter)
  {
  }

  const NOTHING := Edit(None, None, None, None)

  lemma AddIs(s: seq<Rule>, id: Id, action: Action, matcher: Matcher, value: string, enabled: bool)
    requires Tidy(s)
    ensures AddOrder(s, id, action, matcher, value, enabled) == Numbered(Inserted(s, Rule(id, 0, action, matcher, value, User, false, enabled)))
  {
    TidySplits(s);
  }

  lemma InsertedAt(s: seq<Rule>, rule: Rule)
    requires |s| >= 4 && InPlace(s)
    ensures var r := Numbered(Inserted(s, rule));
            && |r| == |s| + 1 && r[..3] == s[..3] && r[3] == rule.(position := 3)
            && forall i :: 4 <= i < |r| ==> r[i] == s[i - 1].(position := i)
  {
  }

  /** An accepted rule goes behind the three local networks, enabled or not as asked, and the rules from there on move one down. */
  lemma AddPlaces(s: seq<Rule>, id: Id, action: Action, matcher: Matcher, value: string, enabled: bool, letter: char -> bool)
    requires Tidy(s) && !Has(s, id)
    ensures var r := OrderAfter(s, Add(id, action, matcher, value, enabled), letter);
            if ValidValue(matcher, value, letter) && !(matcher == Suffix && value == "*") then
              && |r| == |s| + 1 && r[..3] == s[..3] && r[3] == Rule(id, 3, action, matcher, value, User, false, enabled)
              && forall i :: 4 <= i < |r| ==> r[i] == s[i - 1].(position := i)
            else r == s
  {
    AddIs(s, id, action, matcher, value, enabled);
    InsertedAt(s, Rule(id, 0, action, matcher, value, User, false, enabled));
  }

  lemma RemoveIs(s: seq<Rule>, k: nat)
    requires Tidy(s) && k < |s|
    ensures RemoveOrder(s, s[k].id) == if 3 <= k < |s| - 1 then Numbered(s[..k] + s[k + 1..]) else s
  {
    assert At(s, s[k].id) == k;
    TidyAt(s, k);
  }

  lemma CutAt(s: seq<Rule>, k: nat)
    requires InPlace(s) && k < |s|
    ensures var r := Numbered(s[..k] + s[k + 1..]);
            |r| == |s| - 1
            && (forall i :: 0 <= i < k ==> r[i] == s[i]) && forall i :: k <= i < |r| ==> r[i] == s[i + 1].(position := i)
  {
  }

  /** Only user rules can be removed, and the rules behind move one up. */
  lemma RemovePlaces(s: seq<Rule>, k: nat, letter: char -> bool)
    requires Tidy(s) && k < |s|
    ensures var r := OrderAfter(s, Remove(s[k].id), letter);
            if 3 <= k < |s| - 1 then
              && |r| == |s| - 1
              && (forall i :: 0 <= i < k ==> r[i] == s[i]) && forall i :: k <= i < |r| ==> r[i] == s[i + 1].(position := i)
            else r == s
  {
    EventsAre(s, s[k].id, NOTHING, letter);
    RemoveIs(s, k);
    if 3 <= k < |s| - 1 { CutAt(s, k); }
  }

  // ---------- editing ----------

  /** What the rule looks like with the edit. */
  function With(r: Rule, edit: Edit): Rule {
    Rule(r.id, r.position,
         if edit.action.Some? then edit.action.value else r.action,
         if edit.matcher.Some? then edit.matcher.value else r.matcher,
         if edit.value.Some? then edit.value.value else r.value,
         r.source, r.locked,
         if edit.enabled.Some? then edit.enabled.value else r.enabled)
  }

  /** A user rule takes any edit that leaves it valid and not a second catch-all. */
  lemma UserRuleEdits(s: seq<Rule>, k: nat, edit: Edit, letter: char -> bool)
    requires Tidy(s) && 3 <= k < |s| - 1
    ensures var after := With(s[k], edit);
            OrderAfter(s, Update(s[k].id, edit), letter)
              == if ValidValue(after.matcher, after.value, letter) && !(after.matcher == Suffix && after.value == "*") then s[k := after] else s
  {
    assert At(s, s[k].id) == k && UserRule(s[k]);
    assert Edited(s[k], edit) == With(s[k], edit);
  }

  lemma CatchAllEdits(s: seq<Rule>, edit: Edit, letter: char -> bool)
    requires Tidy(s)
    ensures var k := |s| - 1;
            UpdateOrder(s, s[k].id, edit, letter) == if Structural(edit) || edit.action.None? then s else s[k := s[k].(action := edit.action.value)]
  {
    var k := |s| - 1;
    assert At(s, s[k].id) == k && s[k].locked && !Local(s[k]);
    assert !Structural(edit) ==> Edited(s[k], edit) == if edit.action.Some? then s[k].(action := edit.action.value) else s[k];
  }

  lemma LocalValid(r: Rule, letter: char -> bool)
    requires Local(r)
    ensures ValidValue(r.matcher, r.value, letter)
  {
    var k :| 0 <= k < 3 && r.value == LOCAL_NETWORKS[k];
    LocalIsShaped(k);
  }

  lemma LocalEdits(s: seq<Rule>, k: nat, edit: Edit, letter: char -> bool)
    requires Tidy(s) && k < 3
    ensures UpdateOrder(s, s[k].id, edit, letter) == if Structural(edit) || edit.action.None? then s else WithLocalAction(s, edit.action.value)
  {
    assert At(s, s[k].id) == k && s[k].locked && Local(s[k]);
    LocalValid(s[k], letter);
    assert edit.action.None? && !Structural(edit) ==> Edited(s[k], edit) == s[k];
  }

  lemma LocalActionSets(s: seq<Rule>, action: Action)
    requires Tidy(s)
    ensures var r := WithLocalAction(s, action);
            |r| == |s| && (forall i :: 0 <= i < 3 ==> r[i] == s[i].(action := action)) && forall i :: 3 <= i < |s| ==> r[i] == s[i]
  {
    forall i | 3 <= i < |s| ensures !Local(s[i]) { if i < |s| - 1 { assert UserRule(s[i]); } }
  }

  /** Of a locked rule only the action can be edited: the catch-all's own, or that of all three local networks together. */
  lemma LockedRuleEdits(s: seq<Rule>, k: nat, edit: Edit, letter: char -> bool)
    requires Tidy(s) && (k < 3 || k == |s| - 1)
    ensures var r := OrderAfter(s, Update(s[k].id, edit), letter);
            if edit.matcher.Some? || edit.value.Some? || edit.enabled.Some? || edit.action.None? then r == s
            else if k == |s| - 1 then r == s[k := s[k].(action := edit.action.value)]
            else
              && |r| == |s| && (forall i :: 0 <= i < 3 ==> r[i] == s[i].(action := edit.action.value))
              && forall i :: 3 <= i < |s| ==> r[i] == s[i]
  {
    EventsAre(s, s[k].id, edit, letter);
    if k < 3 {
      LocalEdits(s, k, edit, letter);
      if edit.action.Some? { LocalActionSets(s, edit.action.value); }
    } else {
      CatchAllEdits(s, edit, letter);
    }
  }

  // ---------- reordering ----------

  /** The ids name rules of the draft, as many as there are, the local networks first and the catch-all last. */
  predicate ProperOrder(s: seq<Rule>, ids: seq<Id>)
    requires |s| >= 4
  {
    && |ids| == |s|
    && (forall i :: 0 <= i < |ids| ==> exists k :: 0 <= k < |s| && s[k].id == ids[i])
    && ids[0] == s[0].id && ids[1] == s[1].id && ids[2] == s[2].id && ids[|s| - 1] == s[|s| - 1].id
  }

  lemma AcceptedIsProper(s: seq<Rule>, ids: seq<Id>)
    requires Tidy(s)
    ensures ReorderAccepted(s, ids) <==> ProperOrder(s, ids)
  {
    TidyFinds(s);
    var locals := LocalRules(s);
    assert |locals| == 3 && locals[0] == s[0] && locals[1] == s[1] && locals[2] == s[2];
    assert Members(s, ids) <==> |ids| == |s| && forall i :: 0 <= i < |ids| ==> exists k :: 0 <= k < |s| && s[k].id == ids[i];
  }

  lemma ArrangedPlaces(s: seq<Rule>, ids: seq<Id>, i: nat, k: nat)
    requires InPlace(s) && |ids| == |s| && (forall i :: 0 <= i < |ids| ==> Has(s, ids[i]))
    requires i < |s| && k < |s| && s[k].id == ids[i]
    ensures Arranged(s, ids)[i] == s[k].(position := i)
  {
    assert At(s, ids[i]) == k;
  }

  /** Exactly the proper orders are accepted, and then the rules stand in that order. */
  lemma ReorderPlaces(s: seq<Rule>, ids: seq<Id>, letter: char -> bool)
    requires Tidy(s)
    ensures var r := OrderAfter(s, Reorder(ids), letter);
            if ProperOrder(s, ids)
            then |r| == |s| && forall i, k :: 0 <= i < |s| && 0 <= k < |s| && s[k].id == ids[i] ==> r[i] == s[k].(position := i)
            else r == s
  {
    AcceptedIsProper(s, ids);
    if ProperOrder(s, ids) {
      forall i, k | 0 <= i < |s| && 0 <= k < |s| && s[k].id == ids[i] ensures Arranged(s, ids)[i] == s[k].(position := i) {
        ArrangedPlaces(s, ids, i, k);
      }
    }
  }

  // ---------- what counts as changed ----------

  /** The draft is clean exactly when a revision is active whose rules it has, in their order, ids aside. */
  lemma DirtyIff(st: State)
    requires Inv(st)
    ensures !Dirty(st) <==>
      st.active > 0 && |st.order| == |st.revisions[st.active]|
      && forall i :: 0 <= i < |st.order| ==> st.order[i] == st.revisions[st.active][i].(id := st.order[i].id)
  {
    if st.active > 0 {
      var a, b := st.order, st.revisions[st.active];
      if |a| == |b| {
        forall i | 0 <= i < |a| ensures Normal(a)[i] == Normal(b)[i] <==> a[i] == b[i].(id := a[i].id) {}
      }
      if Normal(a) == Normal(b) { assert |Normal(a)| == |Normal(b)|; }
    }
  }

  /** Publishing makes the draft the next revision, which is what clients are served from then on; the draft stays. */
  lemma PublishServes(st: State, letter: char -> bool)
    requires Inv(st)
    ensures var after := Next(st, Publish, letter);
            && after.order == st.order && after.active == st.active + 1 && Published(after) == st.order
            && (forall v :: v in after.revisions <==> v in st.revisions || v == st.active + 1)
            && forall v :: v in st.revisions ==> after.revisions[v] == st.revisions[v]
  {
  }

  // ---------- a fresh installation ----------

  /** A fresh installation sends the local networks direct and everything else through the proxy. */
  lemma SeedSays(ids: seq<Id>, d: Destination, a: Action)
    requires |ids| == 4
    ensures Says(Published(State(Seed(ids), map[], 0)), d, a)
        <==> a == if d.block("10.0.0.0/8") || d.block("172.16.0.0/12") || d.block("192.168.0.0/16") then Direct else Proxy
  {
    var s := Seed(ids);
    assert forall i :: 0 <= i < 4 ==> s[i].enabled;
    assert Matches(s[0], d) <==> d.block("10.0.0.0/8");
    assert Matches(s[1], d) <==> d.block("172.16.0.0/12");
    assert Matches(s[2], d) <==> d.block("192.168.0.0/16");
    assert Matches(s[3], d);
    var i := SomeFirst(s, d, 3);
    assert i < 3 ==> s[i].action == Direct;
    forall k: nat | First(s, d, k) ensures k == i { FirstIsOne(s, d, i, k); }
  }

  // ---------- values ----------

  predicate Block(address: string, prefix: string) {
    && address != [] && (forall i :: 0 <= i < |address| ==> CidrChar(address[i]))
    && 1 <= |prefix| <= 3 && forall i :: 0 <= i < |prefix| ==> '0' <= prefix[i] <= '9'
  }

  lemma BlockIsCidr(address: string, prefix: string)
    requires Block(address, prefix)
    ensures CidrShape(address + ['/'] + prefix)
  {
    SplitHead(address, prefix, '/');
    SplitWhole(prefix, '/');
  }

  lemma CidrIsBlock(value: string) returns (address: string, prefix: string)
    requires CidrShape(value)
    ensures value == address + ['/'] + prefix && Block(address, prefix)
  {
    var parts := Split(value, '/');
    JoinSplit(value, '/');
    address, prefix := parts[0], parts[1];
    assert parts[1..] == [prefix] && Join([prefix], '/') == prefix;
  }

  /** An address block is address characters, a slash, and one to three digits. */
  lemma CidrIff(value: string)
    ensures CidrShape(value) <==> exists address: string, prefix: string :: value == address + ['/'] + prefix && Block(address, prefix)
  {
    if CidrShape(value) {
      var address, prefix := CidrIsBlock(value);
    }
    if address: string, prefix: string :| value == address + ['/'] + prefix && Block(address, prefix) {
      BlockIsCidr(address, prefix);
    }
  }

  predicate DomainChar(c: char, letter: char -> bool) {
    letter(c) || '0' <= c <= '9' || c == '-'
  }

  predicate Label(name: string, letter: char -> bool) {
    name != [] && forall k :: 0 <= k < |name| ==> DomainChar(name[k], letter)
  }

  predicate Labels(labels: seq<string>, letter: char -> bool) {
    |labels| >= 2 && forall i :: 0 <= i < |labels| ==> Label(labels[i], letter)
  }

  lemma {:induction false} LabelsSplit(labels: seq<string>, letter: char -> bool)
    requires labels != [] && (forall i :: 0 <= i < |labels| ==> Label(labels[i], letter)) && !letter('.')
    ensures Split(Join(labels, '.'), '.') == labels
  {
    assert Lacks(labels[0], '.') by { assert Label(labels[0], letter); }
    if |labels| == 1 {
      SplitWhole(labels[0], '.');
    } else {
      LabelsSplit(labels[1..], letter);
      SplitHead(labels[0], Join(labels[1..], '.'), '.');
    }
  }

  lemma DomainIsLabels(value: string, letter: char -> bool) returns (labels: seq<string>)
    requires DomainShape(value, letter)
    ensures Labels(labels, letter) && Undotted(value) == Join(labels, '.')
  {
    labels := Split(Undotted(value), '.');
    JoinSplit(Undotted(value), '.');
    forall i | 0 <= i < |labels| ensures Label(labels[i], letter) {}
  }

  lemma LabelsAreDomain(labels: seq<string>, letter: char -> bool)
    requires Labels(labels, letter) && !letter('.')
    ensures DomainShape(Join(labels, '.'), letter) && DomainShape(['.'] + Join(labels, '.'), letter)
  {
    LabelsSplit(labels, letter);
    var name := Join(labels, '.');
    assert Label(labels[0], letter) && name[0] == labels[0][0];
    assert Undotted(name) == name && Undotted(['.'] + name) == name;
  }

  /** A domain is two labels or more with dots between them, perhaps after a leading dot; no letter is a dot. */
  lemma DomainIff(value: string, letter: char -> bool)
    requires !letter('.')
    ensures DomainShape(value, letter)
        <==> exists labels :: Labels(labels, letter) && (value == Join(labels, '.') || value == ['.'] + Join(labels, '.'))
  {
    if DomainShape(value, letter) {
      var labels := DomainIsLabels(value, letter);
      assert value == Join(labels, '.') || value == ['.'] + Join(labels, '.');
    }
    if labels :| Labels(labels, letter) && (value == Join(labels, '.') || value == ['.'] + Join(labels, '.')) {
      LabelsAreDomain(labels, letter);
    }
  }
}
