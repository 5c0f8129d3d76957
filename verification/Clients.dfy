/**
  What the clients are given for the routes: an ordered list of lines for Mihomo, three groups of
  entries for INCY. What a rule means is fixed here once, by the destinations it matches.
*/
module Clients {
  import opened Common
  import opened Text
  import opened Rules
  import opened Drafts

  /** A connection: the host asked for, and which address blocks, site lists and countries it is in. */
  datatype Destination = Destination(host: string, block: string -> bool, site: string -> bool, country: string -> bool)

  predicate Under(host: string, domain: string) {
    host == domain || (|domain| < |host| && host[|host| - |domain| - 1..] == "." + domain)
  }

  predicate Matches(r: Rule, d: Destination) {
    match r.matcher
    case Domain => d.host == r.value
    case Suffix => r.value == "*" || Under(d.host, Undotted(r.value))
    case IpCidr => d.block(r.value)
    case GeoSite => d.site(r.value)
    case GeoIp => d.country(r.value)
  }

  function Enabled(s: seq<Rule>): (r: seq<Rule>)
    ensures forall x :: x in r <==> x in s && x.enabled
  {
    if s == [] then [] else (if s[0].enabled then [s[0]] else []) + Enabled(s[1..])
  }

  /** The meaning of a list of rules: the first one that matches decides. */
  function Decide(s: seq<Rule>, d: Destination): Option<Action> {
    if s == [] then None else if Matches(s[0], d) then Some(s[0].action) else Decide(s[1..], d)
  }

  // ---------- Mihomo ----------

  function Target(a: Action): string {
    match a
    case Direct => "DIRECT"
    case Proxy => "PROXY"
    case Block => "REJECT"
  }

  function Kind(m: Matcher): string {
    match m
    case Domain => "DOMAIN"
    case Suffix => "DOMAIN-SUFFIX"
    case IpCidr => "IP-CIDR"
    case GeoSite => "GEOSITE"
    case GeoIp => "GEOIP"
  }

  function Payload(r: Rule): string {
    if r.matcher == Suffix then Undotted(r.value) else r.value
  }

  function MihomoRule(r: Rule): string {
    if Terminal(r.matcher, r.value) then "MATCH," + Target(r.action)
    else Kind(r.matcher) + "," + Payload(r) + "," + Target(r.action)
  }

  function MihomoRules(s: seq<Rule>): (lines: seq<string>)
    ensures |lines| == |s| && forall i :: 0 <= i < |s| ==> lines[i] == MihomoRule(s[i])
  {
    seq(|s|, i requires 0 <= i < |s| => MihomoRule(s[i]))
  }

  /** A line as the client reads it: a kind, a payload but for MATCH, a target, and perhaps parameters. */
  datatype Entry = Entry(kind: string, payload: string, target: string)

  function Read(line: string): Option<Entry> {
    var parts := Split(line, ',');
    if |parts| == 2 then Some(Entry(parts[0], "", parts[1]))
    else if |parts| >= 3 then Some(Entry(parts[0], parts[1], parts[2]))
    else None
  }

  predicate EntryMatches(e: Entry, d: Destination) {
    if e.kind == "MATCH" then true
    else if e.kind == "DOMAIN" then d.host == e.payload
    else if e.kind == "DOMAIN-SUFFIX" then Under(d.host, e.payload)
    else if e.kind == "IP-CIDR" then d.block(e.payload)
    else if e.kind == "GEOSITE" then d.site(e.payload)
    else e.kind == "GEOIP" && d.country(e.payload)
  }

  predicate LineMatches(line: string, d: Destination) {
    Read(line).Some? && EntryMatches(Read(line).value, d)
  }

  /** What the client does with a target. */
  function ActionOf(target: string): Option<Action> {
    if target == "DIRECT" then Some(Direct)
    else if target == "PROXY" then Some(Proxy)
    else if target == "REJECT" then Some(Block)
    else None
  }

  function MihomoDecides(lines: seq<string>, d: Destination): Option<Action> {
    if lines == [] then None
    else if LineMatches(lines[0], d) then ActionOf(Read(lines[0]).value.target)
    else MihomoDecides(lines[1..], d)
  }

  function Meant(r: Rule): Entry {
    if Terminal(r.matcher, r.value) then Entry("MATCH", "", Target(r.action)) else Entry(Kind(r.matcher), Payload(r), Target(r.action))
  }

  lemma WordsLackCommas(m: Matcher, a: Action)
    ensures Lacks(Kind(m), ',') && Lacks(Target(a), ',') && Lacks("MATCH", ',')
  {
  }

  lemma FirstPieceLacks(s: string, sep: char)
    ensures Lacks(Split(s, sep)[0], sep)
  {
  }

  /** A line reads back as its rule exactly when the value has no comma of its own. */
  lemma LineReadsBackIff(r: Rule)
    ensures Read(MihomoRule(r)) == Some(Meant(r)) <==> Terminal(r.matcher, r.value) || Lacks(r.value, ',')
  {
    WordsLackCommas(r.matcher, r.action);
    var target := Target(r.action);
    if Terminal(r.matcher, r.value) {
      SplitHead("MATCH", target, ',');
      SplitWhole(target, ',');
      assert MihomoRule(r) == "MATCH" + [','] + target;
    } else {
      var kind, payload := Kind(r.matcher), Payload(r);
      SplitHead(kind, payload + [','] + target, ',');
      assert MihomoRule(r) == kind + [','] + (payload + [','] + target);
      UndottedLacks(r.value);
      if Lacks(payload, ',') {
        SplitHead(payload, target, ',');
        SplitWhole(target, ',');
      } else {
        FirstPieceLacks(payload + [','] + target, ',');
      }
    }
  }

  lemma UndottedLacks(value: string)
    ensures Lacks(Undotted(value), ',') <==> Lacks(value, ',')
  {
  }

  lemma EntryMeans(r: Rule, d: Destination)
    ensures EntryMatches(Meant(r), d) <==> Matches(r, d)
  {
  }

  predicate CommaFree(r: Rule) {
    Terminal(r.matcher, r.value) || Lacks(r.value, ',')
  }

  lemma TargetMeans(a: Action)
    ensures ActionOf(Target(a)) == Some(a)
  {
    assert "PROXY"[0] != "DIRECT"[0] && "REJECT"[0] != "DIRECT"[0] && "REJECT"[0] != "PROXY"[0];
  }

  /** The rendered list decides every destination as the rules do. */
  lemma {:induction false} LinesDecide(s: seq<Rule>, d: Destination)
    requires forall r :: r in s ==> CommaFree(r)
    ensures MihomoDecides(MihomoRules(s), d) == Decide(s, d)
  {
    if s != [] {
      var lines := MihomoRules(s);
      assert lines[1..] == MihomoRules(s[1..]);
      assert s[0] in s && CommaFree(s[0]);
      LineReadsBackIff(s[0]);
      EntryMeans(s[0], d);
      TargetMeans(s[0].action);
      assert LineMatches(lines[0], d) <==> Matches(s[0], d);
      LinesDecide(s[1..], d);
    }
  }

  lemma {:induction false} JoinLacks(parts: seq<string>, sep: char, c: char)
    requires parts != [] && sep != c && forall i :: 0 <= i < |parts| ==> Lacks(parts[i], c)
    ensures Lacks(Join(parts, sep), c)
  {
    if |parts| > 1 {
      JoinLacks(parts[1..], sep, c);
    }
  }

  /** The values that are checked cannot have a comma; the names of site lists and countries are not checked. */
  lemma CheckedLacksComma(matcher: Matcher, value: string, letter: char -> bool)
    requires ValidValue(matcher, value, letter) && !letter(',') && matcher != GeoSite && matcher != GeoIp
    ensures Lacks(value, ',')
  {
    if matcher == IpCidr {
      var parts := Split(value, '/');
      JoinSplit(value, '/');
      JoinLacks(parts, '/', ',');
    } else if value != "*" {
      var labels := Split(Undotted(value), '.');
      JoinSplit(Undotted(value), '.');
      forall i | 0 <= i < |labels| ensures Lacks(labels[i], ',') {
        forall k | 0 <= k < |labels[i]| ensures labels[i][k] != ',' {}
      }
      JoinLacks(labels, '.', ',');
      UndottedLacks(value);
    }
  }

  predicate PlainNames(s: seq<Rule>) {
    forall r :: r in s && (r.matcher == GeoSite || r.matcher == GeoIp) ==> Lacks(r.value, ',')
  }

  lemma ValuedDecide(rules: seq<Rule>, letter: char -> bool, d: Destination)
    requires Valued(rules, letter) && !letter(',') && PlainNames(rules)
    ensures MihomoDecides(MihomoRules(Enabled(rules)), d) == Decide(Enabled(rules), d)
  {
    forall r | r in Enabled(rules) ensures CommaFree(r) {
      var i :| 0 <= i < |rules| && rules[i] == r;
      if r.matcher != GeoSite && r.matcher != GeoIp { CheckedLacksComma(r.matcher, r.value, letter); }
    }
    LinesDecide(Enabled(rules), d);
  }

  /** The lines a client is served. */
  function Served(rules: seq<Rule>): seq<string> {
    MihomoRules(Enabled(rules))
  }

  /** The first of the rules that is enabled and matches. */
  predicate First(rules: seq<Rule>, d: Destination, i: nat) {
    && i < |rules| && rules[i].enabled && Matches(rules[i], d)
    && forall k :: 0 <= k < i ==> !(rules[k].enabled && Matches(rules[k], d))
  }

  /** What the rules say of a destination: the action of the first. */
  ghost predicate Says(rules: seq<Rule>, d: Destination, a: Action) {
    exists i: nat :: First(rules, d, i) && rules[i].action == a
  }

  lemma FirstIsOne(rules: seq<Rule>, d: Destination, i: nat, k: nat)
    requires First(rules, d, i) && First(rules, d, k)
    ensures i == k
  {
  }

  /** Leaving out the disabled rules leaves the first one that matches in its place. */
  lemma {:induction false} EnabledDecideFirst(rules: seq<Rule>, d: Destination, i: nat)
    requires First(rules, d, i)
    ensures Decide(Enabled(rules), d) == Some(rules[i].action)
  {
    var rest := Enabled(rules[1..]);
    assert Enabled(rules) == if rules[0].enabled then [rules[0]] + rest else rest;
    if rules[0].enabled { assert Enabled(rules)[0] == rules[0] && Enabled(rules)[1..] == rest; }
    if i > 0 {
      assert !(rules[0].enabled && Matches(rules[0], d));
      forall k | 0 <= k < i - 1 ensures !(rules[1..][k].enabled && Matches(rules[1..][k], d)) { assert rules[1..][k] == rules[k + 1]; }
      EnabledDecideFirst(rules[1..], d, i - 1);
    }
  }

  lemma {:induction false} SomeFirst(rules: seq<Rule>, d: Destination, n: nat) returns (i: nat)
    requires n < |rules| && rules[n].enabled && Matches(rules[n], d)
    ensures First(rules, d, i) && i <= n
  {
    i := n;
    if k :| 0 <= k < n && rules[k].enabled && Matches(rules[k], d) { i := SomeFirst(rules, d, k); }
  }

  /**
    Over every run of the draft: Mihomo decides every destination, and as the first of the published
    rules says that is enabled and matches it.
  */
  lemma MihomoFollowsPublished(ids: seq<Id>, es: seq<Event>, letter: char -> bool, rules: seq<Rule>, d: Destination) returns (i: nat)
    requires |ids| == 4 && NoDup(ids) && AllSound(es) && rules == Published(Run(State(Seed(ids), map[], 0), es, letter))
    requires !letter(',') && PlainNames(rules)
    ensures First(rules, d, i) && MihomoDecides(Served(rules), d) == Some(rules[i].action)
    ensures MihomoDecides(Served(rules), d) == Decide(Enabled(rules), d)
  {
    PublishedIsTidyAndValued(ids, es, letter);
    ValuedDecide(rules, letter, d);
    i := TidyFirst(rules, d);
    EnabledDecideFirst(rules, d, i);
  }

  lemma TidyFirst(rules: seq<Rule>, d: Destination) returns (i: nat)
    requires Tidy(rules)
    ensures First(rules, d, i)
  {
    i := SomeFirst(rules, d, |rules| - 1);
  }

  lemma {:induction false} MatchedDecides(s: seq<Rule>, d: Destination)
    ensures Decide(s, d).Some? <==> exists r :: r in s && Matches(r, d)
    ensures Decide(s, d).Some? ==> exists r :: r in s && Matches(r, d) && r.action == Decide(s, d).value
  {
    if s != [] { MatchedDecides(s[1..], d); }
  }

  lemma AlwaysDecided(s: seq<Rule>, d: Destination)
    requires Tidy(s)
    ensures Decide(Enabled(s), d).Some?
  {
    var last := s[|s| - 1];
    assert last in Enabled(s) && Matches(last, d);
    MatchedDecides(Enabled(s), d);
  }

  /**
    A name with a comma passes the panel's check, and its line means another rule to the client: the
    name is cut at the comma, and what follows it is taken for the target.
  */
  lemma CommaMisleads(r: Rule, name: string, rest: string, letter: char -> bool)
    requires r.matcher == GeoSite && r.value == name + [','] + rest && Lacks(name, ',') && Lacks(rest, ',')
    ensures ValidValue(r.matcher, r.value, letter) && Read(MihomoRule(r)) == Some(Entry("GEOSITE", name, rest))
  {
    WordsLackCommas(r.matcher, r.action);
    var target := Target(r.action);
    SplitWhole(target, ',');
    SplitHead(rest, target, ',');
    SplitHead(name, rest + [','] + target, ',');
    SplitHead(Kind(GeoSite), name + [','] + (rest + [','] + target), ',');
    assert MihomoRule(r) == Kind(GeoSite) + [','] + (name + [','] + (rest + [','] + target));
  }

  // ---------- the lines themselves ----------

  /** What the lines look like: type, value and target; a suffix goes without a leading dot, the catch-all without a value. */
  lemma LinesLook(r: Rule, rest: string)
    requires r.value != "*"
    ensures r.matcher == Domain && r.action == Block ==> MihomoRule(r) == "DOMAIN" + "," + r.value + "," + "REJECT"
    ensures r.matcher == Suffix && r.action == Direct && r.value == ['.'] + rest ==> MihomoRule(r) == "DOMAIN-SUFFIX" + "," + rest + "," + "DIRECT"
    ensures r.matcher == IpCidr && r.action == Direct ==> MihomoRule(r) == "IP-CIDR" + "," + r.value + "," + "DIRECT"
    ensures r.matcher == GeoSite && r.action == Proxy ==> MihomoRule(r) == "GEOSITE" + "," + r.value + "," + "PROXY"
    ensures r.matcher == GeoIp && r.action == Proxy ==> MihomoRule(r) == "GEOIP" + "," + r.value + "," + "PROXY"
    ensures r.matcher == Suffix && r.action == Block ==> MihomoRule(r.(value := "*")) == "MATCH," + "REJECT"
  {
    if r.value == ['.'] + rest { assert r.value[1..] == rest; }
  }

  // ---------- what a comma does ----------

  /** What the client reads when the value has a comma: its first piece for the payload, the next for the target. */
  lemma CommaCuts(r: Rule) returns (name: string, target: string)
    requires !CommaFree(r)
    ensures Read(MihomoRule(r)) == Some(Entry(Kind(r.matcher), name, target))
    ensures |name| < |Payload(r)|
  {
    WordsLackCommas(r.matcher, r.action);
    UndottedLacks(r.value);
    var rest := Payload(r) + [','] + Target(r.action);
    SplitHead(Kind(r.matcher), rest, ',');
    assert MihomoRule(r) == Kind(r.matcher) + [','] + rest;
    CutPayload(Payload(r), Target(r.action));
    name, target := Split(rest, ',')[0], Split(rest, ',')[1];
  }

  lemma {:induction false} CutPayload(payload: string, target: string)
    requires !Lacks(payload, ',')
    ensures var parts := Split(payload + [','] + target, ','); |parts| >= 3 && |parts[0]| < |payload|
  {
    var whole := payload + [','] + target;
    assert whole[0] == payload[0];
    assert whole[1..] == payload[1..] + [','] + target;
    if payload[0] == ',' {
      SplitCounts(whole[1..], ',');
      assert whole[1..][|payload| - 1] == ',';
    } else {
      CutPayload(payload[1..], target);
    }
  }

  const NOWHERE := Destination("", _ => false, _ => false, _ => false)

  /** The destination that only what a rule of this matcher names matches. */
  function Only(m: Matcher, name: string): Destination {
    match m
    case Domain => NOWHERE.(host := name)
    case Suffix => NOWHERE.(host := name)
    case IpCidr => NOWHERE.(block := v => v == name)
    case GeoSite => NOWHERE.(site := v => v == name)
    case GeoIp => NOWHERE.(country := v => v == name)
  }

  ghost predicate LineDecides(r: Rule) {
    forall d: Destination :: MihomoDecides([MihomoRule(r)], d) == Decide([r], d)
  }

  lemma DecideOne(r: Rule, d: Destination)
    ensures Decide([r], d) == if Matches(r, d) then Some(r.action) else None
    ensures MihomoDecides([MihomoRule(r)], d)
         == if LineMatches(MihomoRule(r), d) then ActionOf(Read(MihomoRule(r)).value.target) else None
  {
    assert [r][1..] == [] && [MihomoRule(r)][1..] == [];
  }

  /** With a comma, the list leaves out the very destination the rule names, or it decides one the rule says nothing of. */
  lemma CommaMisdecides(r: Rule) returns (d: Destination)
    requires !CommaFree(r)
    ensures MihomoDecides([MihomoRule(r)], d) != Decide([r], d)
  {
    var name, target := CommaCuts(r);
    if ActionOf(target).None? || r.matcher != Suffix {
      d := Only(r.matcher, Payload(r));
    } else {
      d := Only(r.matcher, name);
    }
    DecideOne(r, d);
  }

  /** The line decides as the rule does, for every destination, exactly when the value has no comma of its own. */
  lemma LineDecidesIff(r: Rule)
    ensures LineDecides(r) <==> CommaFree(r)
  {
    if CommaFree(r) {
      forall d: Destination ensures MihomoDecides([MihomoRule(r)], d) == Decide([r], d) {
        assert MihomoRules([r]) == [MihomoRule(r)];
        LinesDecide([r], d);
      }
    } else {
      var d := CommaMisdecides(r);
    }
  }

  /** A name of a site list or a country with a comma passes the panel's check, and its line decides some destination otherwise. */
  lemma NameWithCommaMisdecides(r: Rule, letter: char -> bool) returns (d: Destination)
    requires (r.matcher == GeoSite || r.matcher == GeoIp) && !Lacks(r.value, ',')
    ensures ValidValue(r.matcher, r.value, letter) && MihomoDecides([MihomoRule(r)], d) != Decide([r], d)
  {
    d := CommaMisdecides(r);
  }
}
