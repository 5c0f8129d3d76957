/** Route rules and what the panel accepts as their values. */
module Rules {
  import opened Text

  type Id = nat
  datatype Action = Direct | Proxy | Block
  datatype Matcher = Domain | Suffix | IpCidr | GeoSite | GeoIp
  datatype Source = System | User
  datatype Rule = Rule(id: Id, position: nat, action: Action, matcher: Matcher, value: string, source: Source, locked: bool, enabled: bool)

  const LOCAL_NETWORKS := ["10.0.0.0/8", "172.16.0.0/12", "192.168.0.0/16"]

  predicate Terminal(matcher: Matcher, value: string) {
    matcher == Suffix && value == "*"
  }

  predicate Local(r: Rule) {
    r.source == System && r.matcher == IpCidr && r.value in LOCAL_NETWORKS
  }

  predicate CidrChar(c: char) {
    Digit(c) || 'a' <= c <= 'f' || 'A' <= c <= 'F' || c == ':' || c == '.'
  }

  /** Address characters, a slash and one to three digits. */
  predicate CidrShape(value: string) {
    var parts := Split(value, '/');
    && |parts| == 2
    && parts[0] != [] && (forall i :: 0 <= i < |parts[0]| ==> CidrChar(parts[0][i]))
    && 1 <= |parts[1]| <= 3 && (forall i :: 0 <= i < |parts[1]| ==> Digit(parts[1][i]))
  }

  /** A leading dot is dropped, here and wherever a suffix is rendered. */
  function Undotted(value: string): string {
    if value != [] && value[0] == '.' then value[1..] else value
  }

  /** Two or more labels of letters, digits and hyphens; which characters are letters is left to `letter`. */
  predicate DomainShape(value: string, letter: char -> bool) {
    var labels := Split(Undotted(value), '.');
    && |labels| >= 2
    && (forall i :: 0 <= i < |labels| ==> labels[i] != [])
    && forall i, k :: 0 <= i < |labels| && 0 <= k < |labels[i]| ==> letter(labels[i][k]) || Digit(labels[i][k]) || labels[i][k] == '-'
  }

  predicate ValidValue(matcher: Matcher, value: string, letter: char -> bool) {
    match matcher
    case IpCidr => CidrShape(value)
    case Domain => value == "*" || DomainShape(value, letter)
    case Suffix => value == "*" || DomainShape(value, letter)
    case _ => true
  }
}
