/**
 * The access decision engine of Rules.kt: client and host groups built from
 * `host:` / `cidr:` / `pattern:` specifiers, rules that fire when some client
 * group and some host group match, and a rule set in which the first rule with
 * an opinion wins and DENY is the default.
 */
module Rules {
  import opened Common
  import opened Text
  import opened Numbers

  /** A JVM `byte`. */
  newtype Int8 = x: int | -128 <= x < 128

  datatype Decision = Allow | Deny | NoDecision

  /**
   * The libraries the engine calls, taken as given functions:
   * `upper` is `uppercase(Locale.getDefault())`; `regexCompiles(p)` says that
   * `Regex(p)` does not throw and `fullMatch(p, s)` is `Regex(p).matches(s)`;
   * `cidrParses(c)` says that `SubnetUtils(c)` does not throw and `inRange(c, a)`
   * is `SubnetUtils(c).info.isInRange(a)`.
   */
  datatype Foreign = Foreign(
    upper: string -> string,
    regexCompiles: string -> bool,
    fullMatch: (string, string) -> bool,
    cidrParses: string -> bool,
    inRange: (string, string) -> bool)

  /**
   * A connecting client's `InetAddress`: the name reverse DNS gives for it (if
   * any) and its raw address bytes, four for an `Inet4Address`.
   */
  datatype Address = Address(hostName: Option<string>, raw: seq<Int8>)

  predicate IsIpv4(a: Address) {
    |a.raw| == 4
  }

  /** What construction fails with; each case is an `IllegalArgumentException` or a library exception. */
  datatype RuleError =
    | InvalidNotation(spec: string)
    | InvalidPattern(regex: string)
    | InvalidCidr(cidr: string)
    | UnknownDecision(decision: string)
    | ReservedClientName(clientName: string)
    | ReservedHostName(hostName: string)
    | GroupNotFound(groupName: string)
    | DecisionRequired

  // ---------------------------------------------------------------------------
  // The dotted literal of an address (`ipAddressToString`)
  // ---------------------------------------------------------------------------

  /** `raw.toInt() and 0xFF`: the unsigned value of a byte. */
  function Unsigned(b: Int8): (r: nat)
    ensures r < 256
    ensures r == if b < 0 then b as int + 256 else b as int
  {
    (b as int) % 256
  }

  /** The text appended for the byte at position `k`: its decimal value, then a dot while the countdown from 4 stays positive. */
  function Piece(raw: seq<Int8>, k: nat): string
    requires k < |raw|
  {
    NatToString(Unsigned(raw[k])) + (if k < 3 then "." else "")
  }

  /** The text built from the first `k` bytes. */
  function LiteralOfPrefix(raw: seq<Int8>, k: nat): string
    requires k <= |raw|
  {
    if k == 0 then "" else LiteralOfPrefix(raw, k - 1) + Piece(raw, k - 1)
  }

  function IpLiteral(raw: seq<Int8>): string {
    LiteralOfPrefix(raw, |raw|)
  }

  /** `ipAddressToString`: a countdown `i` from 4 and a growing string. */
  method IpAddressToString(rawBytes: seq<Int8>) returns (s: string)
    ensures s == IpLiteral(rawBytes)
  {
    var i := 4;
    var ipAddress := "";
    var n := 0;
    while n < |rawBytes|
      invariant 0 <= n <= |rawBytes|
      invariant i == 4 - n
      invariant ipAddress == LiteralOfPrefix(rawBytes, n)
    {
      ipAddress := ipAddress + NatToString(Unsigned(rawBytes[n]));
      i := i - 1;
      if i > 0 {
        ipAddress := ipAddress + ".";
      }
      n := n + 1;
    }
    s := ipAddress;
  }

  /** For a four-byte address the literal is the four unsigned decimal values joined by dots. */
  lemma IpLiteralOfIpv4(raw: seq<Int8>)
    requires |raw| == 4
    ensures IpLiteral(raw) == NatToString(Unsigned(raw[0])) + "." + NatToString(Unsigned(raw[1])) + "."
                             + NatToString(Unsigned(raw[2])) + "." + NatToString(Unsigned(raw[3]))
  {
    assert LiteralOfPrefix(raw, 1) == NatToString(Unsigned(raw[0])) + ".";
    assert LiteralOfPrefix(raw, 2) == LiteralOfPrefix(raw, 1) + NatToString(Unsigned(raw[1])) + ".";
    assert LiteralOfPrefix(raw, 3) == LiteralOfPrefix(raw, 2) + NatToString(Unsigned(raw[2])) + ".";
    assert LiteralOfPrefix(raw, 4) == LiteralOfPrefix(raw, 3) + NatToString(Unsigned(raw[3]));
  }

  /** From the fourth byte on no separator is written: longer addresses run their values together. */
  lemma {:induction false} IpLiteralWithoutSeparators(raw: seq<Int8>, k: nat)
    requires 3 <= k < |raw|
    ensures LiteralOfPrefix(raw, k + 1) == LiteralOfPrefix(raw, k) + NatToString(Unsigned(raw[k]))
  {
    assert Piece(raw, k) == NatToString(Unsigned(raw[k])) + "";
  }

  // ---------------------------------------------------------------------------
  // Groups
  // ---------------------------------------------------------------------------

  /** A `ClientGroup` after its `init`: upper-cased literals, CIDR texts, pattern texts, the match-all flag. */
  datatype ClientGroup = ClientGroup(hosts: set<string>, cidrs: seq<string>, patterns: seq<string>, alwaysTrue: bool)

  /** A `HostGroup` after its `init`. */
  datatype HostGroup = HostGroup(hosts: set<string>, patterns: seq<string>, alwaysTrue: bool)

  const MatchAll: string := "pattern:.*"

  /** `ANY_CLIENT`, that is `ClientGroup(listOf("pattern:.*"))`. */
  const AnyClient: ClientGroup := ClientGroup({}, [], [".*"], true)

  /** `ANY_HOST`, that is `HostGroup(listOf("pattern:.*"))`. */
  const AnyHost: HostGroup := HostGroup({}, [".*"], true)

  /** Some pattern of `patterns` matches the whole of `s`. */
  function AnyFullMatch(patterns: seq<string>, s: string, f: Foreign): (r: bool)
    ensures r <==> exists i :: 0 <= i < |patterns| && f.fullMatch(patterns[i], s)
  {
    if patterns == [] then false
    else f.fullMatch(patterns[0], s) || AnyFullMatch(patterns[1..], s, f)
  }

  /** Some CIDR range of `cidrs` contains `address`. */
  function AnyInRange(cidrs: seq<string>, address: string, f: Foreign): (r: bool)
    ensures r <==> exists i :: 0 <= i < |cidrs| && f.inRange(cidrs[i], address)
  {
    if cidrs == [] then false
    else f.inRange(cidrs[0], address) || AnyInRange(cidrs[1..], address, f)
  }

  /**
   * `ClientGroup.match`: the group matches everything, or the reverse-DNS name
   * is a literal (compared upper-cased) or fully matches a pattern, or the
   * dotted literal is a literal or matches a pattern, or the address is IPv4
   * and lies in one of the CIDR ranges.
   */
  function ClientGroupMatch(g: ClientGroup, who: Address, f: Foreign): (r: bool)
    ensures r <==>
      g.alwaysTrue
      || (who.hostName.Some? && f.upper(who.hostName.value) in g.hosts)
      || (who.hostName.Some? && exists i :: 0 <= i < |g.patterns| && f.fullMatch(g.patterns[i], who.hostName.value))
      || IpLiteral(who.raw) in g.hosts
      || (exists i :: 0 <= i < |g.patterns| && f.fullMatch(g.patterns[i], IpLiteral(who.raw)))
      || (IsIpv4(who) && exists i :: 0 <= i < |g.cidrs| && f.inRange(g.cidrs[i], IpLiteral(who.raw)))
  {
    if g.alwaysTrue then true
    else
      var ipLiteral := IpLiteral(who.raw);
      if who.hostName.Some? && f.upper(who.hostName.value) in g.hosts then true
      else if who.hostName.Some? && AnyFullMatch(g.patterns, who.hostName.value, f) then true
      else if ipLiteral in g.hosts then true
      else if AnyFullMatch(g.patterns, ipLiteral, f) then true
      else IsIpv4(who) && AnyInRange(g.cidrs, ipLiteral, f)
  }

  /** CIDR ranges are never consulted for an address that is not IPv4. */
  lemma CidrsIgnoredUnlessIpv4(g: ClientGroup, who: Address, f: Foreign)
    requires !IsIpv4(who)
    ensures ClientGroupMatch(g, who, f) == ClientGroupMatch(g.(cidrs := []), who, f)
  {
  }

  /** `HostGroup.match`. */
  function HostGroupMatch(g: HostGroup, who: string, f: Foreign): (r: bool)
    ensures r <==> g.alwaysTrue || f.upper(who) in g.hosts || exists i :: 0 <= i < |g.patterns| && f.fullMatch(g.patterns[i], who)
  {
    if g.alwaysTrue then true
    else if f.upper(who) in g.hosts then true
    else AnyFullMatch(g.patterns, who, f)
  }

  /** One turn of the `ClientGroup` init loop. */
  function ClientStep(g: ClientGroup, rule: string, f: Foreign): Result<ClientGroup, RuleError> {
    var g1 := if EqualsIgnoreCase(MatchAll, rule) then g.(alwaysTrue := true) else g;
    if StartsWith(rule, "host:") then Success(g1.(hosts := g1.hosts + {f.upper(rule[5..])}))
    else if StartsWith(rule, "cidr:") then
      if f.cidrParses(rule[5..]) then Success(g1.(cidrs := g1.cidrs + [rule[5..]])) else Failure(InvalidCidr(rule[5..]))
    else if StartsWith(rule, "pattern:") then
      if f.regexCompiles(rule[8..]) then Success(g1.(patterns := g1.patterns + [rule[8..]])) else Failure(InvalidPattern(rule[8..]))
    else Failure(InvalidNotation(rule))
  }

  function ClientFold(g: ClientGroup, rules: seq<string>, f: Foreign): Result<ClientGroup, RuleError>
    decreases |rules|
  {
    if rules == [] then Success(g)
    else
      match ClientStep(g, rules[0], f)
      case Failure(e) => Failure(e)
      case Success(g1) => ClientFold(g1, rules[1..], f)
  }

  /** The group `ClientGroup(rules)` builds, or the exception its init throws. */
  function ClientGroupOf(rules: seq<string>, f: Foreign): Result<ClientGroup, RuleError> {
    ClientFold(ClientGroup({}, [], [], false), rules, f)
  }

  /** `ClientGroup(rules)`: the init loop. */
  method NewClientGroup(rules: seq<string>, f: Foreign) returns (r: Result<ClientGroup, RuleError>)
    ensures r == ClientGroupOf(rules, f)
  {
    var hosts: set<string> := {};
    var cidrs: seq<string> := [];
    var patterns: seq<string> := [];
    var alwaysTrue := false;
    var i := 0;
    while i < |rules|
      invariant 0 <= i <= |rules|
      invariant ClientFold(ClientGroup(hosts, cidrs, patterns, alwaysTrue), rules[i..], f) == ClientGroupOf(rules, f)
    {
      var rule := rules[i];
      assert rules[i..][1..] == rules[i + 1..];
      if EqualsIgnoreCase(MatchAll, rule) {
        alwaysTrue := true;
      }
      if StartsWith(rule, "host:") {
        hosts := hosts + {f.upper(rule[5..])};
      } else if StartsWith(rule, "cidr:") {
        if !f.cidrParses(rule[5..]) {
          return Failure(InvalidCidr(rule[5..]));
        }
        cidrs := cidrs + [rule[5..]];
      } else if StartsWith(rule, "pattern:") {
        if !f.regexCompiles(rule[8..]) {
          return Failure(InvalidPattern(rule[8..]));
        }
        patterns := patterns + [rule[8..]];
      } else {
        return Failure(InvalidNotation(rule));
      }
      i := i + 1;
    }
    return Success(ClientGroup(hosts, cidrs, patterns, alwaysTrue));
  }

  /** One turn of the `HostGroup` init loop: there is no `cidr:` case. */
  function HostStep(g: HostGroup, rule: string, f: Foreign): Result<HostGroup, RuleError> {
    var g1 := if EqualsIgnoreCase(MatchAll, rule) then g.(alwaysTrue := true) else g;
    if StartsWith(rule, "host:") then Success(g1.(hosts := g1.hosts + {f.upper(rule[5..])}))
    else if StartsWith(rule, "pattern:") then
      if f.regexCompiles(rule[8..]) then Success(g1.(patterns := g1.patterns + [rule[8..]])) else Failure(InvalidPattern(rule[8..]))
    else Failure(InvalidNotation(rule))
  }

  function HostFold(g: HostGroup, rules: seq<string>, f: Foreign): Result<HostGroup, RuleError>
    decreases |rules|
  {
    if rules == [] then Success(g)
    else
      match HostStep(g, rules[0], f)
      case Failure(e) => Failure(e)
      case Success(g1) => HostFold(g1, rules[1..], f)
  }

  /** The group `HostGroup(rules)` builds, or the exception its init throws. */
  function HostGroupOf(rules: seq<string>, f: Foreign): Result<HostGroup, RuleError> {
    HostFold(HostGroup({}, [], false), rules, f)
  }

  /** `HostGroup(rules)`: the init loop. */
  method NewHostGroup(rules: seq<string>, f: Foreign) returns (r: Result<HostGroup, RuleError>)
    ensures r == HostGroupOf(rules, f)
  {
    var hosts: set<string> := {};
    var patterns: seq<string> := [];
    var alwaysTrue := false;
    var i := 0;
    while i < |rules|
      invariant 0 <= i <= |rules|
      invariant HostFold(HostGroup(hosts, patterns, alwaysTrue), rules[i..], f) == HostGroupOf(rules, f)
    {
      var rule := rules[i];
      assert rules[i..][1..] == rules[i + 1..];
      if EqualsIgnoreCase(MatchAll, rule) {
        alwaysTrue := true;
      }
      if StartsWith(rule, "host:") {
        hosts := hosts + {f.upper(rule[5..])};
      } else if StartsWith(rule, "pattern:") {
        if !f.regexCompiles(rule[8..]) {
          return Failure(InvalidPattern(rule[8..]));
        }
        patterns := patterns + [rule[8..]];
      } else {
        return Failure(InvalidNotation(rule));
      }
      i := i + 1;
    }
    return Success(HostGroup(hosts, patterns, alwaysTrue));
  }

  // ---------------------------------------------------------------------------
  // Rules and rule sets
  // ---------------------------------------------------------------------------

  /** `ClientGroups.match`: some group matches. */
  function ClientGroupsMatch(groups: seq<ClientGroup>, who: Address, f: Foreign): (r: bool)
    ensures r <==> exists i :: 0 <= i < |groups| && ClientGroupMatch(groups[i], who, f)
  {
    if groups == [] then false
    else ClientGroupMatch(groups[0], who, f) || ClientGroupsMatch(groups[1..], who, f)
  }

  /** `HostGroups.match`: some group matches. */
  function HostGroupsMatch(groups: seq<HostGroup>, who: string, f: Foreign): (r: bool)
    ensures r <==> exists i :: 0 <= i < |groups| && HostGroupMatch(groups[i], who, f)
  {
    if groups == [] then false
    else HostGroupMatch(groups[0], who, f) || HostGroupsMatch(groups[1..], who, f)
  }

  datatype Rule = Rule(clients: seq<ClientGroup>, hosts: seq<HostGroup>, decision: string)

  datatype RuleSet = RuleSet(rules: seq<Rule>)

  /**
   * The decision keyword of a rule that fired, compared ignoring case. No
   * string equals two of the keywords, so each decision comes from its own
   * keyword alone, and every other string is an unknown decision.
   */
  function KeywordDecision(decision: string): (r: Result<Decision, RuleError>)
    ensures r == Success(Allow) <==> EqualsIgnoreCase("allow", decision)
    ensures r == Success(Deny) <==> EqualsIgnoreCase("deny", decision)
    ensures r == Success(NoDecision) <==> EqualsIgnoreCase("none", decision)
    ensures r.Failure? <==> r == Failure(UnknownDecision(decision))
  {
    if EqualsIgnoreCase("allow", decision) then Success(Allow)
    else if EqualsIgnoreCase("deny", decision) then
      assert AsciiLower(decision[0]) == 'd';
      Success(Deny)
    else if EqualsIgnoreCase("none", decision) then Success(NoDecision)
    else Failure(UnknownDecision(decision))
  }

  /** The rule fires: a client group and a host group both match. */
  predicate Fires(rule: Rule, client: Address, target: string, f: Foreign) {
    ClientGroupsMatch(rule.clients, client, f) && HostGroupsMatch(rule.hosts, target, f)
  }

  /** `Rule.decide`. */
  function RuleDecide(rule: Rule, client: Address, target: string, f: Foreign): (d: Result<Decision, RuleError>)
    ensures d.Failure? <==> Fires(rule, client, target, f) && KeywordDecision(rule.decision).Failure?
    ensures d == Success(Allow) <==> Fires(rule, client, target, f) && EqualsIgnoreCase("allow", rule.decision)
    ensures d == Success(Deny) <==> Fires(rule, client, target, f) && !EqualsIgnoreCase("allow", rule.decision)
                                    && EqualsIgnoreCase("deny", rule.decision)
    ensures !Fires(rule, client, target, f) ==> d == Success(NoDecision)
  {
    if ClientGroupsMatch(rule.clients, client, f) then
      if HostGroupsMatch(rule.hosts, target, f) then KeywordDecision(rule.decision)
      else Success(NoDecision)
    else Success(NoDecision)
  }

  /** `RuleSet.decide`: the first rule with an opinion decides, DENY otherwise. */
  function RuleSetDecide(rules: seq<Rule>, client: Address, target: string, f: Foreign): (d: Result<Decision, RuleError>)
    ensures d.Success? ==> d.value != NoDecision
    decreases |rules|
  {
    if rules == [] then Success(Deny)
    else
      match RuleDecide(rules[0], client, target, f)
      case Failure(e) => Failure(e)
      case Success(NoDecision) => RuleSetDecide(rules[1..], client, target, f)
      case Success(d) => Success(d)
  }

  // ---------------------------------------------------------------------------
  // What group construction accepts, and what a built group matches
  // ---------------------------------------------------------------------------

  /** A specifier a `ClientGroup` accepts: `host:`, a parsable `cidr:` or a compilable `pattern:`, prefixes compared case-sensitively. */
  predicate ClientSpecAccepted(rule: string, f: Foreign) {
    StartsWith(rule, "host:")
    || (StartsWith(rule, "cidr:") && f.cidrParses(rule[5..]))
    || (StartsWith(rule, "pattern:") && f.regexCompiles(rule[8..]))
  }

  /** A specifier a `HostGroup` accepts: `host:` or a compilable `pattern:`. */
  predicate HostSpecAccepted(rule: string, f: Foreign) {
    StartsWith(rule, "host:") || (StartsWith(rule, "pattern:") && f.regexCompiles(rule[8..]))
  }

  /** The exception thrown for a specifier that is not accepted. */
  function SpecError(rule: string): RuleError {
    if StartsWith(rule, "cidr:") then InvalidCidr(rule[5..])
    else if StartsWith(rule, "pattern:") then InvalidPattern(rule[8..])
    else InvalidNotation(rule)
  }

  /** The exception thrown by a `HostGroup` for a specifier it does not accept (`cidr:` is not a notation there). */
  function HostSpecError(rule: string): RuleError {
    if StartsWith(rule, "pattern:") then InvalidPattern(rule[8..]) else InvalidNotation(rule)
  }

  /** The first `k` specifiers are accepted and the `k`-th is not. */
  predicate FirstRejected(rules: seq<string>, k: int, accepted: string -> bool) {
    0 <= k < |rules| && !accepted(rules[k]) && forall j :: 0 <= j < k ==> accepted(rules[j])
  }

  lemma {:induction false} ClientFoldOutcome(g: ClientGroup, rules: seq<string>, f: Foreign)
    ensures ClientFold(g, rules, f).Success? <==> forall i :: 0 <= i < |rules| ==> ClientSpecAccepted(rules[i], f)
    ensures ClientFold(g, rules, f).Failure? ==>
      exists k :: FirstRejected(rules, k, r => ClientSpecAccepted(r, f)) && ClientFold(g, rules, f).error == SpecError(rules[k])
    decreases |rules|
  {
    if rules != [] {
      var step := ClientStep(g, rules[0], f);
      assert step.Success? <==> ClientSpecAccepted(rules[0], f);
      if step.Success? {
        ClientFoldOutcome(step.value, rules[1..], f);
        assert forall i :: 1 <= i < |rules| ==> rules[i] == rules[1..][i - 1];
        if ClientFold(g, rules, f).Failure? {
          var k :| FirstRejected(rules[1..], k, r => ClientSpecAccepted(r, f))
                   && ClientFold(step.value, rules[1..], f).error == SpecError(rules[1..][k]);
          assert FirstRejected(rules, k + 1, r => ClientSpecAccepted(r, f));
        }
      } else {
        assert FirstRejected(rules, 0, r => ClientSpecAccepted(r, f));
      }
    }
  }

  /**
   * `ClientGroup(rules)` is built iff every specifier is accepted; otherwise it
   * throws for the first specifier that is not.
   */
  lemma ClientGroupOfOutcome(rules: seq<string>, f: Foreign)
    ensures ClientGroupOf(rules, f).Success? <==> forall i :: 0 <= i < |rules| ==> ClientSpecAccepted(rules[i], f)
    ensures ClientGroupOf(rules, f).Failure? ==>
      exists k :: FirstRejected(rules, k, r => ClientSpecAccepted(r, f)) && ClientGroupOf(rules, f).error == SpecError(rules[k])
  {
    ClientFoldOutcome(ClientGroup({}, [], [], false), rules, f);
  }

  lemma {:induction false} HostFoldOutcome(g: HostGroup, rules: seq<string>, f: Foreign)
    ensures HostFold(g, rules, f).Success? <==> forall i :: 0 <= i < |rules| ==> HostSpecAccepted(rules[i], f)
    ensures HostFold(g, rules, f).Failure? ==>
      exists k :: FirstRejected(rules, k, r => HostSpecAccepted(r, f)) && HostFold(g, rules, f).error == HostSpecError(rules[k])
    decreases |rules|
  {
    if rules != [] {
      var step := HostStep(g, rules[0], f);
      assert step.Success? <==> HostSpecAccepted(rules[0], f);
      if step.Success? {
        HostFoldOutcome(step.value, rules[1..], f);
        assert forall i :: 1 <= i < |rules| ==> rules[i] == rules[1..][i - 1];
        if HostFold(g, rules, f).Failure? {
          var k :| FirstRejected(rules[1..], k, r => HostSpecAccepted(r, f))
                   && HostFold(step.value, rules[1..], f).error == HostSpecError(rules[1..][k]);
          assert FirstRejected(rules, k + 1, r => HostSpecAccepted(r, f));
        }
      } else {
        assert FirstRejected(rules, 0, r => HostSpecAccepted(r, f));
      }
    }
  }

  /** `HostGroup(rules)` is built iff every specifier is accepted; otherwise it throws for the first one that is not. */
  lemma HostGroupOfOutcome(rules: seq<string>, f: Foreign)
    ensures HostGroupOf(rules, f).Success? <==> forall i :: 0 <= i < |rules| ==> HostSpecAccepted(rules[i], f)
    ensures HostGroupOf(rules, f).Failure? ==>
      exists k :: FirstRejected(rules, k, r => HostSpecAccepted(r, f)) && HostGroupOf(rules, f).error == HostSpecError(rules[k])
  {
    HostFoldOutcome(HostGroup({}, [], false), rules, f);
  }

  /** A `cidr:` specifier makes a `HostGroup` throw. */
  lemma CidrRefusedInHostGroup(rules: seq<string>, i: nat, f: Foreign)
    requires i < |rules| && StartsWith(rules[i], "cidr:")
    ensures HostGroupOf(rules, f).Failure?
  {
    HostGroupOfOutcome(rules, f);
    assert rules[i][0] == 'c';
    assert !HostSpecAccepted(rules[i], f);
  }

  /** The match-all test ignores case but the prefix test does not: `PATTERN:.*` throws. */
  lemma UpperCasePatternRefused(f: Foreign)
    ensures ClientGroupOf(["PATTERN:.*"], f) == Failure(InvalidNotation("PATTERN:.*"))
    ensures HostGroupOf(["PATTERN:.*"], f) == Failure(InvalidNotation("PATTERN:.*"))
  {
    var rule := "PATTERN:.*";
    assert rule[0] == 'P';
    assert !StartsWith(rule, "host:") && !StartsWith(rule, "cidr:") && !StartsWith(rule, "pattern:");
  }

  /** A specifier that sets the match-all flag and survives the prefix test is exactly `pattern:.*`. */
  lemma MatchAllIsExact(rule: string)
    requires EqualsIgnoreCase(MatchAll, rule)
    requires StartsWith(rule, "host:") || StartsWith(rule, "cidr:") || StartsWith(rule, "pattern:")
    ensures rule == MatchAll
  {
    assert AsciiLower(MatchAll[0]) == AsciiLower(rule[0]);
    assert StartsWith(rule, "pattern:");
    assert rule[..8] == MatchAll[..8];
    assert AsciiLower(MatchAll[8]) == AsciiLower(rule[8]);
    assert AsciiLower(MatchAll[9]) == AsciiLower(rule[9]);
    assert rule == rule[..8] + [rule[8], rule[9]];
  }

  /** What one accepted specifier of a client group matches on its own. */
  predicate ClientSpecMatches(rule: string, who: Address, f: Foreign) {
    var ipLiteral := IpLiteral(who.raw);
    if rule == MatchAll then true
    else if StartsWith(rule, "host:") then
      (who.hostName.Some? && f.upper(who.hostName.value) == f.upper(rule[5..])) || ipLiteral == f.upper(rule[5..])
    else if StartsWith(rule, "cidr:") then
      IsIpv4(who) && f.inRange(rule[5..], ipLiteral)
    else if StartsWith(rule, "pattern:") then
      (who.hostName.Some? && f.fullMatch(rule[8..], who.hostName.value)) || f.fullMatch(rule[8..], ipLiteral)
    else false
  }

  /** What one accepted specifier of a host group matches on its own. */
  predicate HostSpecMatches(rule: string, who: string, f: Foreign) {
    if rule == MatchAll then true
    else if StartsWith(rule, "host:") then f.upper(who) == f.upper(rule[5..])
    else if StartsWith(rule, "pattern:") then f.fullMatch(rule[8..], who)
    else false
  }

  lemma ClientStepMatch(g: ClientGroup, rule: string, who: Address, f: Foreign)
    requires ClientStep(g, rule, f).Success?
    ensures ClientGroupMatch(ClientStep(g, rule, f).value, who, f)
            <==> ClientGroupMatch(g, who, f) || ClientSpecMatches(rule, who, f)
  {
    var g1 := ClientStep(g, rule, f).value;
    if EqualsIgnoreCase(MatchAll, rule) {
      MatchAllIsExact(rule);
    } else if rule == MatchAll {
      assert EqualsIgnoreCase(MatchAll, rule);
    }
    var ip := IpLiteral(who.raw);
    if StartsWith(rule, "cidr:") {
      assert g1.cidrs == g.cidrs + [rule[5..]];
      assert forall i :: 0 <= i < |g.cidrs| ==> g1.cidrs[i] == g.cidrs[i];
      assert g1.cidrs[|g.cidrs|] == rule[5..];
    } else if StartsWith(rule, "pattern:") {
      assert rule[..8][0] == rule[0];
      assert g1.patterns == g.patterns + [rule[8..]];
      assert forall i :: 0 <= i < |g.patterns| ==> g1.patterns[i] == g.patterns[i];
      assert g1.patterns[|g.patterns|] == rule[8..];
    }
  }

  lemma {:induction false} ClientFoldMatch(g: ClientGroup, rules: seq<string>, who: Address, f: Foreign)
    requires ClientFold(g, rules, f).Success?
    ensures ClientGroupMatch(ClientFold(g, rules, f).value, who, f)
            <==> ClientGroupMatch(g, who, f) || exists i :: 0 <= i < |rules| && ClientSpecMatches(rules[i], who, f)
    decreases |rules|
  {
    if rules != [] {
      var g1 := ClientStep(g, rules[0], f).value;
      ClientStepMatch(g, rules[0], who, f);
      ClientFoldMatch(g1, rules[1..], who, f);
      assert forall i :: 1 <= i < |rules| ==> rules[i] == rules[1..][i - 1];
      if exists i :: 0 <= i < |rules| && ClientSpecMatches(rules[i], who, f) {
        var i :| 0 <= i < |rules| && ClientSpecMatches(rules[i], who, f);
        if i > 0 { assert ClientSpecMatches(rules[1..][i - 1], who, f); }
      }
    }
  }

  /**
   * A built client group matches an address iff one of the specifiers it was
   * built from matches it on its own.
   */
  lemma ClientGroupOfMatch(rules: seq<string>, who: Address, f: Foreign)
    requires ClientGroupOf(rules, f).Success?
    ensures ClientGroupMatch(ClientGroupOf(rules, f).value, who, f)
            <==> exists i :: 0 <= i < |rules| && ClientSpecMatches(rules[i], who, f)
  {
    ClientFoldMatch(ClientGroup({}, [], [], false), rules, who, f);
  }

  lemma HostStepMatch(g: HostGroup, rule: string, who: string, f: Foreign)
    requires HostStep(g, rule, f).Success?
    ensures HostGroupMatch(HostStep(g, rule, f).value, who, f)
            <==> HostGroupMatch(g, who, f) || HostSpecMatches(rule, who, f)
  {
    var g1 := HostStep(g, rule, f).value;
    if EqualsIgnoreCase(MatchAll, rule) {
      MatchAllIsExact(rule);
    }
    if StartsWith(rule, "pattern:") {
      assert rule[..8][0] == rule[0];
      assert g1.patterns == g.patterns + [rule[8..]];
      assert forall i :: 0 <= i < |g.patterns| ==> g1.patterns[i] == g.patterns[i];
      assert g1.patterns[|g.patterns|] == rule[8..];
    }
  }

  lemma {:induction false} HostFoldMatch(g: HostGroup, rules: seq<string>, who: string, f: Foreign)
    requires HostFold(g, rules, f).Success?
    ensures HostGroupMatch(HostFold(g, rules, f).value, who, f)
            <==> HostGroupMatch(g, who, f) || exists i :: 0 <= i < |rules| && HostSpecMatches(rules[i], who, f)
    decreases |rules|
  {
    if rules != [] {
      var g1 := HostStep(g, rules[0], f).value;
      HostStepMatch(g, rules[0], who, f);
      HostFoldMatch(g1, rules[1..], who, f);
      assert forall i :: 1 <= i < |rules| ==> rules[i] == rules[1..][i - 1];
      if exists i :: 0 <= i < |rules| && HostSpecMatches(rules[i], who, f) {
        var i :| 0 <= i < |rules| && HostSpecMatches(rules[i], who, f);
        if i > 0 { assert HostSpecMatches(rules[1..][i - 1], who, f); }
      }
    }
  }

  /** A built host group matches a host name iff one of its specifiers matches it on its own. */
  lemma HostGroupOfMatch(rules: seq<string>, who: string, f: Foreign)
    requires HostGroupOf(rules, f).Success?
    ensures HostGroupMatch(HostGroupOf(rules, f).value, who, f)
            <==> exists i :: 0 <= i < |rules| && HostSpecMatches(rules[i], who, f)
  {
    HostFoldMatch(HostGroup({}, [], false), rules, who, f);
  }

  /** `ANY_CLIENT` and `ANY_HOST` are the groups built from `pattern:.*`, and they match everything. */
  lemma AnyGroupsBuilt(f: Foreign, who: Address, host: string)
    requires f.regexCompiles(".*")
    ensures ClientGroupOf([MatchAll], f) == Success(AnyClient)
    ensures HostGroupOf([MatchAll], f) == Success(AnyHost)
    ensures ClientGroupMatch(AnyClient, who, f) && HostGroupMatch(AnyHost, host, f)
  {
    assert MatchAll[0] == 'p';
    assert !StartsWith(MatchAll, "host:") && !StartsWith(MatchAll, "cidr:") && StartsWith(MatchAll, "pattern:");
    assert MatchAll[8..] == ".*";
    assert EqualsIgnoreCase(MatchAll, MatchAll);
    var empty := ClientGroup({}, [], [], false);
    var g1 := empty.(alwaysTrue := true);
    assert g1.(patterns := g1.patterns + [MatchAll[8..]]) == AnyClient;
    assert ClientStep(empty, MatchAll, f) == Success(AnyClient);
    assert ClientGroupOf([MatchAll], f) == ClientFold(AnyClient, [MatchAll][1..], f);
    assert [MatchAll][1..] == [];
    assert HostStep(HostGroup({}, [], false), MatchAll, f) == Success(AnyHost);
    assert HostGroupOf([MatchAll], f) == HostFold(AnyHost, [MatchAll][1..], f);
  }

  // ---------------------------------------------------------------------------
  // First match wins
  // ---------------------------------------------------------------------------

  /** Every rule before position `k` has no opinion. */
  predicate NoOpinionBefore(rules: seq<Rule>, k: nat, client: Address, target: string, f: Foreign)
    requires k <= |rules|
  {
    forall j :: 0 <= j < k ==> RuleDecide(rules[j], client, target, f) == Success(NoDecision)
  }

  /**
   * The rule set answers what the first rule with an opinion answers (or the
   * exception it throws); rules after it are not consulted.
   */
  lemma {:induction false} FirstOpinionWins(rules: seq<Rule>, k: nat, more: seq<Rule>, client: Address, target: string, f: Foreign)
    requires k < |rules| && NoOpinionBefore(rules, k, client, target, f)
    requires RuleDecide(rules[k], client, target, f) != Success(NoDecision)
    ensures RuleSetDecide(rules, client, target, f) == RuleDecide(rules[k], client, target, f)
    ensures RuleSetDecide(rules[..k + 1] + more, client, target, f) == RuleDecide(rules[k], client, target, f)
    decreases k
  {
    var both := rules[..k + 1] + more;
    assert both[k] == rules[k];
    if k > 0 {
      assert rules[1..][..k] + more == both[1..];
      assert forall j :: 0 <= j < k - 1 ==> rules[1..][j] == rules[j + 1];
      assert RuleDecide(rules[0], client, target, f) == Success(NoDecision);
      assert both[0] == rules[0];
      FirstOpinionWins(rules[1..], k - 1, more, client, target, f);
    }
  }

  /** When no rule has an opinion, the empty rule set included, the answer is DENY. */
  lemma {:induction false} NoOpinionDenies(rules: seq<Rule>, client: Address, target: string, f: Foreign)
    requires NoOpinionBefore(rules, |rules|, client, target, f)
    ensures RuleSetDecide(rules, client, target, f) == Success(Deny)
    decreases |rules|
  {
    if rules != [] {
      assert RuleDecide(rules[0], client, target, f) == Success(NoDecision);
      assert forall j :: 0 <= j < |rules| - 1 ==> rules[1..][j] == rules[j + 1];
      NoOpinionDenies(rules[1..], client, target, f);
    }
  }

  /** A rule that fires with `none` passes the question on to the rules after it. */
  lemma NoneRulePassesOn(rule: Rule, rest: seq<Rule>, client: Address, target: string, f: Foreign)
    requires Fires(rule, client, target, f) && EqualsIgnoreCase("none", rule.decision)
    ensures RuleSetDecide([rule] + rest, client, target, f) == RuleSetDecide(rest, client, target, f)
  {
    assert !EqualsIgnoreCase("allow", rule.decision) by {
      assert AsciiLower(rule.decision[0]) == 'n';
    }
    assert !EqualsIgnoreCase("deny", rule.decision) by {
      assert AsciiLower(rule.decision[0]) == 'n';
    }
    assert ([rule] + rest)[1..] == rest;
  }

  /** Decisions depend on rule order: of two rules that both fire, whichever comes first decides. */
  lemma OrderMatters(allow: Rule, deny: Rule, client: Address, target: string, f: Foreign)
    requires Fires(allow, client, target, f) && allow.decision == "allow"
    requires Fires(deny, client, target, f) && deny.decision == "deny"
    ensures RuleSetDecide([allow, deny], client, target, f) == Success(Allow)
    ensures RuleSetDecide([deny, allow], client, target, f) == Success(Deny)
  {
    assert EqualsIgnoreCase("allow", "allow");
    assert EqualsIgnoreCase("deny", "deny");
    assert !EqualsIgnoreCase("allow", "deny");
  }
}
