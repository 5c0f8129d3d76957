/**
  The grouped profile for INCY: one group of entries per action and no order between groups, so a
  destination that is in several groups is decided by whichever the client consults first.
*/
module Incy {
  import opened Common
  import opened Text
  import opened Rules
  import opened Drafts
  import opened Clients

  datatype Group = Group(sites: seq<string>, ips: seq<string>)
  datatype Profile = Profile(globalProxy: bool, direct: Group, proxy: Group, block: Group)

  function SiteEntry(r: Rule): string {
    if r.matcher == GeoSite then "geosite:" + r.value
    else if r.matcher == Domain then "full:" + r.value
    else "domain:" + Undotted(r.value)
  }

  function IpEntry(r: Rule): string {
    if r.matcher == GeoIp then "geoip:" + r.value else r.value
  }

  predicate ByAddress(r: Rule) {
    r.matcher == IpCidr || r.matcher == GeoIp
  }

  function Pushed(g: Group, r: Rule): Group {
    if Terminal(r.matcher, r.value) then g
    else if ByAddress(r) then g.(ips := g.ips + [IpEntry(r)])
    else g.(sites := g.sites + [SiteEntry(r)])
  }

  /** The entries of one action, in the order of its rules. */
  function GroupOf(s: seq<Rule>, a: Action): Group {
    if s == [] then Group([], [])
    else
      var rest, r := GroupOf(s[..|s| - 1], a), s[|s| - 1];
      if r.action == a then Pushed(rest, r) else rest
  }

  function Compiled(s: seq<Rule>): Profile {
    Profile(true, GroupOf(s, Direct), GroupOf(s, Proxy), GroupOf(s, Block))
  }

  method IncyRoutingProfile(rules: seq<Rule>) returns (p: Profile)
    ensures p == Compiled(rules)
  {
    var groups := map[Direct := Group([], []), Proxy := Group([], []), Block := Group([], [])];
    assert forall a: Action :: a in groups by {
      forall a: Action ensures a in groups { assert a.Direct? || a.Proxy? || a.Block?; }
    }
    for i := 0 to |rules|
      invariant forall a :: a in groups && groups[a] == GroupOf(rules[..i], a)
    {
      var rule := rules[i];
      assert rules[..i + 1][..i] == rules[..i];
      if Terminal(rule.matcher, rule.value) { continue; }
      var target := groups[rule.action];
      if rule.matcher == IpCidr {
        target := target.(ips := target.ips + [rule.value]);
      } else if rule.matcher == GeoIp {
        target := target.(ips := target.ips + ["geoip:" + rule.value]);
      } else if rule.matcher == GeoSite {
        target := target.(sites := target.sites + ["geosite:" + rule.value]);
      } else if rule.matcher == Domain {
        target := target.(sites := target.sites + ["full:" + rule.value]);
      } else {
        target := target.(sites := target.sites + ["domain:" + Undotted(rule.value)]);
      }
      groups := groups[rule.action := target];
    }
    assert rules[..|rules|] == rules;
    return Profile(true, groups[Direct], groups[Proxy], groups[Block]);
  }

  /** The entries stand in the order of the rules. */
  lemma {:induction false} GroupJoins(s: seq<Rule>, t: seq<Rule>, a: Action)
    ensures var all, first, second := GroupOf(s + t, a), GroupOf(s, a), GroupOf(t, a);
            all.sites == first.sites + second.sites && all.ips == first.ips + second.ips
    decreases |t|
  {
    if t == [] {
      assert s + t == s;
    } else {
      var n := |t| - 1;
      assert (s + t)[..|s| + n] == s + t[..n] && (s + t)[|s| + n] == t[n];
      GroupJoins(s, t[..n], a);
    }
  }

  /** The entry of one rule in the group of its action; the catch-all has none, and no other group has any. */
  lemma GroupOfOne(r: Rule, a: Action)
    ensures var g := GroupOf([r], a);
            if r.action != a || (r.matcher == Suffix && r.value == "*") then g == Group([], [])
            else match r.matcher
                 case Domain => g == Group(["full:" + r.value], [])
                 case Suffix => g == Group(["domain:" + if r.value != [] && r.value[0] == '.' then r.value[1..] else r.value], [])
                 case GeoSite => g == Group(["geosite:" + r.value], [])
                 case GeoIp => g == Group([], ["geoip:" + r.value])
                 case IpCidr => g == Group([], [r.value])
  {
    assert [r][..0] == [];
  }

  // ---------- what the client makes of it ----------

  predicate SiteMatches(entry: string, d: Destination) {
    if "full:" <= entry then d.host == entry[5..]
    else if "domain:" <= entry then Under(d.host, entry[7..])
    else "geosite:" <= entry && d.site(entry[8..])
  }

  predicate IpMatches(entry: string, d: Destination) {
    if "geoip:" <= entry then d.country(entry[6..]) else d.block(entry)
  }

  predicate GroupMatches(g: Group, d: Destination) {
    (exists e :: e in g.sites && SiteMatches(e, d)) || (exists e :: e in g.ips && IpMatches(e, d))
  }

  function GroupFor(p: Profile, a: Action): Group {
    match a
    case Direct => p.direct
    case Proxy => p.proxy
    case Block => p.block
  }

  /** What the client may do, consulting the groups in any order: without a match, what the profile says for all else. */
  predicate MayDecide(p: Profile, d: Destination, a: Action) {
    if exists b :: GroupMatches(GroupFor(p, b), d) then GroupMatches(GroupFor(p, a), d)
    else a == if p.globalProxy then Proxy else Direct
  }

  // ---------- compared with the rules ----------

  /** A rule other than the catch-all that matches. */
  predicate Hits(r: Rule, d: Destination) {
    !Terminal(r.matcher, r.value) && Matches(r, d)
  }

  lemma CidrIsNoCountry(value: string)
    requires CidrShape(value)
    ensures !("geoip:" <= value)
  {
    var parts := Split(value, '/');
    JoinSplit(value, '/');
    assert value[0] == parts[0][0] && CidrChar(parts[0][0]);
  }

  lemma SiteEntryMatches(r: Rule, d: Destination)
    requires !ByAddress(r) && !Terminal(r.matcher, r.value)
    ensures SiteMatches(SiteEntry(r), d) <==> Hits(r, d)
  {
    var e := SiteEntry(r);
    if r.matcher == GeoSite {
      assert e[0] == 'g' && e[8..] == r.value;
    } else if r.matcher == Domain {
      assert e[5..] == r.value;
    } else {
      assert e[0] == 'd' && e[7..] == Undotted(r.value);
    }
  }

  lemma IpEntryMatches(r: Rule, d: Destination)
    requires ByAddress(r) && (r.matcher == IpCidr ==> CidrShape(r.value))
    ensures IpMatches(IpEntry(r), d) <==> Hits(r, d)
  {
    if r.matcher == GeoIp {
      assert IpEntry(r)[6..] == r.value;
    } else {
      CidrIsNoCountry(r.value);
    }
  }

  lemma PushedMatches(g: Group, r: Rule, d: Destination)
    requires r.matcher == IpCidr ==> CidrShape(r.value)
    ensures GroupMatches(Pushed(g, r), d) <==> GroupMatches(g, d) || Hits(r, d)
  {
    if !Terminal(r.matcher, r.value) {
      if ByAddress(r) {
        IpEntryMatches(r, d);
        assert forall e :: e in g.ips + [IpEntry(r)] <==> e in g.ips || e == IpEntry(r);
      } else {
        SiteEntryMatches(r, d);
        assert forall e :: e in g.sites + [SiteEntry(r)] <==> e in g.sites || e == SiteEntry(r);
      }
    }
  }

  predicate Shaped(s: seq<Rule>) {
    forall r :: r in s && r.matcher == IpCidr ==> CidrShape(r.value)
  }

  predicate SomeHits(s: seq<Rule>, a: Action, d: Destination) {
    exists r :: r in s && r.action == a && Hits(r, d)
  }

  /** A group matches exactly when one of its rules does. */
  lemma {:induction false} GroupMeans(s: seq<Rule>, a: Action, d: Destination)
    requires Shaped(s)
    ensures GroupMatches(GroupOf(s, a), d) <==> SomeHits(s, a, d)
  {
    if s != [] {
      var r := s[|s| - 1];
      assert s == s[..|s| - 1] + [r];
      GroupMeans(s[..|s| - 1], a, d);
      PushedMatches(GroupOf(s[..|s| - 1], a), r, d);
      assert SomeHits(s, a, d) <==> SomeHits(s[..|s| - 1], a, d) || (r.action == a && Hits(r, d));
    }
  }

  /** All rules that match, but for the catch-all, have one action; if there is none, all else goes through the proxy. */
  predicate OneAnswer(s: seq<Rule>, rest: Action, d: Destination) {
    && (forall r, q :: r in s && q in s && Hits(r, d) && Hits(q, d) ==> r.action == q.action)
    && ((forall r :: r in s ==> !Hits(r, d)) ==> rest == Proxy)
  }

  /** The only catch-all is the last rule, and enabled. */
  predicate CatchAllLast(s: seq<Rule>) {
    && s != [] && s[|s| - 1].enabled && Terminal(s[|s| - 1].matcher, s[|s| - 1].value)
    && forall i :: 0 <= i < |s| - 1 ==> !Terminal(s[i].matcher, s[i].value)
  }

  lemma {:induction false} EnabledDecide(s: seq<Rule>, d: Destination)
    requires CatchAllLast(s)
    ensures (forall r :: r in Enabled(s) ==> !Hits(r, d)) ==> Decide(Enabled(s), d) == Some(s[|s| - 1].action)
    ensures (exists r :: r in Enabled(s) && Hits(r, d)) ==> exists r :: r in Enabled(s) && Hits(r, d) && Decide(Enabled(s), d) == Some(r.action)
  {
    if |s| > 1 {
      EnabledDecide(s[1..], d);
      var rest := Enabled(s[1..]);
      assert Enabled(s) == if s[0].enabled then [s[0]] + rest else rest;
      if s[0].enabled {
        assert Enabled(s)[0] == s[0] && Enabled(s)[1..] == rest;
      }
    } else {
      assert Enabled(s) == [s[0]];
    }
  }

  lemma ChoicesAre(s: seq<Rule>, d: Destination, a: Action)
    requires Shaped(s)
    ensures MayDecide(Compiled(s), d, a)
        <==> if exists r :: r in s && Hits(r, d) then SomeHits(s, a, d) else a == Proxy
  {
    forall b: Action ensures GroupMatches(GroupFor(Compiled(s), b), d) <==> SomeHits(s, b, d) {
      GroupMeans(s, b, d);
      assert GroupFor(Compiled(s), b) == GroupOf(s, b);
    }
    if r :| r in s && Hits(r, d) {
      assert SomeHits(s, r.action, d);
    }
  }

  /** The client decides as the first rule says that is enabled and matches, whichever group it consults first. */
  ghost predicate FollowsRules(rules: seq<Rule>, d: Destination) {
    forall a :: MayDecide(Compiled(Enabled(rules)), d, a) ==> Says(rules, d, a)
  }

  /** All enabled rules that match, but for the catch-all, have one action; if there is none, the catch-all says PROXY. */
  predicate Unanimous(rules: seq<Rule>, d: Destination)
    requires rules != []
  {
    && (forall i, j :: 0 <= i < |rules| && 0 <= j < |rules| && rules[i].enabled && rules[j].enabled && Hits(rules[i], d) && Hits(rules[j], d) ==>
          rules[i].action == rules[j].action)
    && ((forall i :: 0 <= i < |rules| && rules[i].enabled ==> !Hits(rules[i], d)) ==> rules[|rules| - 1].action == Proxy)
  }

  lemma UnanimousIs(rules: seq<Rule>, d: Destination)
    requires rules != []
    ensures Unanimous(rules, d) <==> OneAnswer(Enabled(rules), rules[|rules| - 1].action, d)
  {
    if Unanimous(rules, d) {
      forall r, q | r in Enabled(rules) && q in Enabled(rules) && Hits(r, d) && Hits(q, d) ensures r.action == q.action {
        var i :| 0 <= i < |rules| && rules[i] == r;
        var j :| 0 <= j < |rules| && rules[j] == q;
      }
    }
    forall i | 0 <= i < |rules| && rules[i].enabled ensures rules[i] in Enabled(rules) {}
  }

  lemma FirstIsDecided(rules: seq<Rule>, d: Destination, a: Action)
    requires CatchAllLast(rules)
    ensures Says(rules, d, a) <==> Decide(Enabled(rules), d) == Some(a)
  {
    var i := SomeFirst(rules, d, |rules| - 1);
    EnabledDecideFirst(rules, d, i);
    if Says(rules, d, a) {
      var k: nat :| First(rules, d, k) && rules[k].action == a;
      FirstIsOne(rules, d, i, k);
    }
  }

  lemma FollowsIs(rules: seq<Rule>, d: Destination)
    requires CatchAllLast(rules)
    ensures FollowsRules(rules, d) <==> forall a :: MayDecide(Compiled(Enabled(rules)), d, a) ==> Decide(Enabled(rules), d) == Some(a)
  {
    forall a: Action ensures Says(rules, d, a) <==> Decide(Enabled(rules), d) == Some(a) { FirstIsDecided(rules, d, a); }
  }

  /**
    Whatever order the client consults its groups in, it decides a destination as the ordered rules
    do, exactly when the destination has one answer.
  */
  lemma IncyAgreesIff(rules: seq<Rule>, d: Destination)
    requires CatchAllLast(rules) && Shaped(rules)
    ensures FollowsRules(rules, d) <==> Unanimous(rules, d)
  {
    EnabledDecide(rules, d);
    AgreesIff(Enabled(rules), rules[|rules| - 1].action, d);
    UnanimousIs(rules, d);
    FollowsIs(rules, d);
  }

  lemma TidyEnds(s: seq<Rule>)
    requires Tidy(s)
    ensures CatchAllLast(s)
  {
  }

  lemma AgreesIff(s: seq<Rule>, rest: Action, d: Destination)
    requires Shaped(s)
    requires (forall r :: r in s ==> !Hits(r, d)) ==> Decide(s, d) == Some(rest)
    requires (exists r :: r in s && Hits(r, d)) ==> exists r :: r in s && Hits(r, d) && Decide(s, d) == Some(r.action)
    ensures (forall a :: MayDecide(Compiled(s), d, a) ==> Decide(s, d) == Some(a)) <==> OneAnswer(s, rest, d)
  {
    forall a: Action ensures MayDecide(Compiled(s), d, a)
                        <==> if exists r :: r in s && Hits(r, d) then SomeHits(s, a, d) else a == Proxy {
      ChoicesAre(s, d, a);
    }
    forall r | r in s && Hits(r, d) ensures SomeHits(s, r.action, d) {}
    if forall a :: MayDecide(Compiled(s), d, a) ==> Decide(s, d) == Some(a) {
      forall r, q | r in s && q in s && Hits(r, d) && Hits(q, d) ensures r.action == q.action {
        assert MayDecide(Compiled(s), d, r.action) && MayDecide(Compiled(s), d, q.action);
      }
      if forall r :: r in s ==> !Hits(r, d) {
        assert MayDecide(Compiled(s), d, Proxy);
      }
    }
  }

  /** Over every run of the draft, for what is published. */
  lemma IncyFollowsPublishedIff(ids: seq<Id>, es: seq<Event>, letter: char -> bool, rules: seq<Rule>, d: Destination)
    requires |ids| == 4 && NoDup(ids) && AllSound(es) && rules == Published(Run(State(Seed(ids), map[], 0), es, letter))
    ensures rules != [] && (FollowsRules(rules, d) <==> Unanimous(rules, d))
  {
    PublishedIsTidyAndValued(ids, es, letter);
    TidyEnds(rules);
    ValuedShaped(rules, letter);
    IncyAgreesIff(rules, d);
  }

  lemma ValuedShaped(rules: seq<Rule>, letter: char -> bool)
    requires Valued(rules, letter)
    ensures Shaped(rules)
  {
  }

  /** The catch-all of a fresh draft edited to DIRECT, and published. */
  function EditedSeed(ids: seq<Id>): seq<Rule>
    requires |ids| == 4
  {
    Seed(ids)[3 := Seed(ids)[3].(action := Direct)]
  }

  lemma SeedEdits(ids: seq<Id>, letter: char -> bool)
    requires |ids| == 4 && NoDup(ids)
    ensures var edit := Update(ids[3], Edit(Some(Direct), None, None, None));
            Next(State(Seed(ids), map[], 0), edit, letter) == State(EditedSeed(ids), map[], 0)
  {
    var s := Seed(ids);
    assert s[3].id == ids[3] && forall k :: 0 <= k < 3 ==> s[k].id != ids[3];
    assert At(s, ids[3]) == 3;
  }

  lemma EditPublished(ids: seq<Id>, letter: char -> bool) returns (es: seq<Event>)
    requires |ids| == 4 && NoDup(ids)
    ensures AllSound(es) && Published(Run(State(Seed(ids), map[], 0), es, letter)) == EditedSeed(ids)
  {
    var edit := Update(ids[3], Edit(Some(Direct), None, None, None));
    es := [edit, Publish];
    SeedEdits(ids, letter);
    var edited := State(EditedSeed(ids), map[], 0);
    assert es[1..] == [Publish] && [Publish][1..] == [];
    assert Run(edited, [Publish], letter) == Next(edited, Publish, letter);
  }

  lemma NothingHits(ids: seq<Id>, host: string)
    requires |ids| == 4
    ensures forall i :: 0 <= i < 4 ==> !Hits(EditedSeed(ids)[i], Destination(host, _ => false, _ => false, _ => false))
  {
  }

  /** So after one edit and a publication the client sends a destination through the proxy that the rules send directly. */
  lemma DirectCatchAllDisagrees(ids: seq<Id>, letter: char -> bool, host: string) returns (es: seq<Event>, d: Destination)
    requires |ids| == 4 && NoDup(ids)
    ensures d.host == host && AllSound(es) && !FollowsRules(Published(Run(State(Seed(ids), map[], 0), es, letter)), d)
  {
    es := EditPublished(ids, letter);
    d := Destination(host, _ => false, _ => false, _ => false);
    NothingHits(ids, host);
    IncyFollowsPublishedIff(ids, es, letter, EditedSeed(ids), d);
  }
}
