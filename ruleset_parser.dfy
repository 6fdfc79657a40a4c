// The name-resolution half of `parseRuleSet`: turning already-decoded group
// declarations and rule entries into a `RuleSet`. Reading the file and the
// JSON decoding are not part of this model; the decoded `clients` and
// `targets` objects arrive as sequences of (name, specifiers) pairs in
// document order, and each entry of `rules` as a `RuleSpec`.

module RuleSetParser {
  import opened Common
  import opened Text
  import opened Rules

  /** A decoded JSON object of group declarations, in iteration order. */
  type Declarations = seq<(string, seq<string>)>

  /** One decoded entry of `rules`; an absent key is `None`. */
  datatype RuleSpec = RuleSpec(client: Option<seq<string>>, target: Option<seq<string>>, decision: Option<string>)

  /** The reserved name that always resolves to the match-everything group. */
  const AnyName: string := "$any"

  /** The names a rule entry lists; an absent list lists none. */
  function Names(list: Option<seq<string>>): seq<string> {
    if list.Some? then list.value else []
  }

  // ---------------------------------------------------------------------------
  // Group tables
  // ---------------------------------------------------------------------------

  /**
   * The map the declaration loop builds, starting from `table`: names starting
   * with `$` are refused, every other entry's group is built and stored under
   * its name, a later entry overwriting an earlier one.
   */
  function TableFrom<G>(table: map<string, G>, decls: Declarations,
                        build: seq<string> -> Result<G, RuleError>,
                        reserved: string -> RuleError): Result<map<string, G>, RuleError>
    decreases |decls|
  {
    if decls == [] then Success(table)
    else if StartsWith(decls[0].0, "$") then Failure(reserved(decls[0].0))
    else
      match build(decls[0].1)
      case Failure(e) => Failure(e)
      case Success(g) => TableFrom(table[decls[0].0 := g], decls[1..], build, reserved)
  }

  /** No later declaration reuses the name of declaration `d`. */
  predicate LastDeclaration(decls: Declarations, d: int)
    requires 0 <= d < |decls|
  {
    forall e :: d < e < |decls| ==> decls[e].0 != decls[d].0
  }

  /** Some declaration carries the name `n`. */
  predicate Declared(decls: Declarations, n: string) {
    exists d :: 0 <= d < |decls| && decls[d].0 == n
  }

  /**
   * A table built without an exception holds exactly the declared names (and
   * the names it started with), each declared name bound to the group built
   * from its last declaration; no declared name starts with `$`.
   */
  lemma {:induction false} TableFromFacts<G>(table: map<string, G>, decls: Declarations,
                                             build: seq<string> -> Result<G, RuleError>,
                                             reserved: string -> RuleError)
    requires TableFrom(table, decls, build, reserved).Success?
    ensures forall d :: 0 <= d < |decls| ==> !StartsWith(decls[d].0, "$") && build(decls[d].1).Success?
    ensures forall n :: n in TableFrom(table, decls, build, reserved).value <==> n in table || Declared(decls, n)
    ensures forall n :: n in table && !Declared(decls, n) ==> TableFrom(table, decls, build, reserved).value[n] == table[n]
    ensures forall d :: 0 <= d < |decls| && LastDeclaration(decls, d) ==>
      decls[d].0 in TableFrom(table, decls, build, reserved).value
      && TableFrom(table, decls, build, reserved).value[decls[d].0] == build(decls[d].1).value
    decreases |decls|
  {
    if decls != [] {
      var t1 := table[decls[0].0 := build(decls[0].1).value];
      var rest := decls[1..];
      TableFromFacts(t1, rest, build, reserved);
      assert forall d :: 1 <= d < |decls| ==> decls[d] == rest[d - 1];
      var t := TableFrom(table, decls, build, reserved).value;
      forall n
        ensures n in t <==> n in table || Declared(decls, n)
      {
        if Declared(rest, n) {
          var d :| 0 <= d < |rest| && rest[d].0 == n;
          assert decls[d + 1].0 == n;
        }
        if Declared(decls, n) && n != decls[0].0 {
          var d :| 0 <= d < |decls| && decls[d].0 == n;
          assert rest[d - 1].0 == n;
        }
      }
      forall n | n in table && !Declared(decls, n)
        ensures t[n] == table[n]
      {
        assert n != decls[0].0;
      }
      forall d | 0 <= d < |decls| && LastDeclaration(decls, d)
        ensures t[decls[d].0] == build(decls[d].1).value
      {
        if d > 0 {
          assert LastDeclaration(rest, d - 1);
        }
      }
    }
  }

  /** The client-group builder the declaration loop uses. */
  function ClientBuilder(f: Foreign): seq<string> -> Result<ClientGroup, RuleError> {
    specs => ClientGroupOf(specs, f)
  }

  /** The host-group builder the declaration loop uses. */
  function HostBuilder(f: Foreign): seq<string> -> Result<HostGroup, RuleError> {
    specs => HostGroupOf(specs, f)
  }

  /** `clientByName` after the client declaration loop. */
  function ClientTable(decls: Declarations, f: Foreign): Result<map<string, ClientGroup>, RuleError> {
    TableFrom(map[], decls, ClientBuilder(f), n => ReservedClientName(n))
  }

  /** `hostByName` after the host declaration loop. */
  function HostTable(decls: Declarations, f: Foreign): Result<map<string, HostGroup>, RuleError> {
    TableFrom(map[], decls, HostBuilder(f), n => ReservedHostName(n))
  }

  // ---------------------------------------------------------------------------
  // Rules
  // ---------------------------------------------------------------------------

  /** The first `k` names are bound in `table` and name `k` is not. */
  predicate FirstMissing<G>(names: seq<string>, k: int, table: map<string, G>) {
    0 <= k < |names| && names[k] !in table && forall j :: 0 <= j < k ==> names[j] in table
  }

  /** The groups a list of names refers to, or `Group … not found` for the first unknown name. */
  function ResolveNames<G>(names: seq<string>, table: map<string, G>): (r: Result<seq<G>, RuleError>)
    ensures r.Success? <==> forall j :: 0 <= j < |names| ==> names[j] in table
    ensures r.Success? ==> |r.value| == |names| && forall j :: 0 <= j < |names| ==> r.value[j] == table[names[j]]
    ensures r.Failure? ==> exists k :: FirstMissing(names, k, table) && r.error == GroupNotFound(names[k])
    decreases |names|
  {
    if names == [] then Success([])
    else if names[0] !in table then
      assert FirstMissing(names, 0, table);
      Failure(GroupNotFound(names[0]))
    else
      match ResolveNames(names[1..], table)
      case Failure(e) =>
        assert forall j :: 1 <= j < |names| ==> names[j] == names[1..][j - 1];
        var k :| FirstMissing(names[1..], k, table) && e == GroupNotFound(names[1..][k]);
        assert FirstMissing(names, k + 1, table);
        Failure(e)
      case Success(gs) =>
        assert forall j :: 1 <= j < |names| ==> names[j] == names[1..][j - 1];
        Success([table[names[0]]] + gs)
  }

  /** Only one index can be the first missing name. */
  lemma FirstMissingUnique<G>(names: seq<string>, k: int, k': int, table: map<string, G>)
    requires FirstMissing(names, k, table) && FirstMissing(names, k', table)
    ensures k == k'
  {
  }

  /**
   * The rule one entry yields under the final name tables: a missing decision
   * is refused first, then the client names are resolved, then the target
   * names; an empty or absent list becomes the match-everything group.
   */
  function BuildRule(clientByName: map<string, ClientGroup>, hostByName: map<string, HostGroup>, spec: RuleSpec): (r: Result<Rule, RuleError>)
    ensures spec.decision.None? ==> r == Failure(DecisionRequired)
    ensures r.Success? <==>
      spec.decision.Some?
      && (forall j :: 0 <= j < |Names(spec.client)| ==> Names(spec.client)[j] in clientByName)
      && (forall j :: 0 <= j < |Names(spec.target)| ==> Names(spec.target)[j] in hostByName)
    ensures r.Success? ==>
      r.value.decision == spec.decision.value
      && (Names(spec.client) == [] ==> r.value.clients == [AnyClient])
      && (Names(spec.client) != [] ==>
            |r.value.clients| == |Names(spec.client)|
            && forall j :: 0 <= j < |Names(spec.client)| ==> r.value.clients[j] == clientByName[Names(spec.client)[j]])
      && (Names(spec.target) == [] ==> r.value.hosts == [AnyHost])
      && (Names(spec.target) != [] ==>
            |r.value.hosts| == |Names(spec.target)|
            && forall j :: 0 <= j < |Names(spec.target)| ==> r.value.hosts[j] == hostByName[Names(spec.target)[j]])
    ensures spec.decision.Some? && ResolveNames(Names(spec.client), clientByName).Failure? ==>
      r == Failure(ResolveNames(Names(spec.client), clientByName).error)
    ensures spec.decision.Some? && ResolveNames(Names(spec.client), clientByName).Success?
            && ResolveNames(Names(spec.target), hostByName).Failure? ==>
      r == Failure(ResolveNames(Names(spec.target), hostByName).error)
  {
    if spec.decision.None? then Failure(DecisionRequired)
    else
      match ResolveNames(Names(spec.client), clientByName)
      case Failure(e) => Failure(e)
      case Success(clients) =>
        match ResolveNames(Names(spec.target), hostByName)
        case Failure(e) => Failure(e)
        case Success(hosts) =>
          Success(Rule(if clients == [] then [AnyClient] else clients,
                       if hosts == [] then [AnyHost] else hosts,
                       spec.decision.value))
  }

  /** The rules loop from the accumulated `finalRules` onwards: one rule per entry, in order, stopping at the first exception. */
  function BuildRulesFrom(acc: seq<Rule>, specs: seq<RuleSpec>,
                          clientByName: map<string, ClientGroup>, hostByName: map<string, HostGroup>): Result<seq<Rule>, RuleError>
    decreases |specs|
  {
    if specs == [] then Success(acc)
    else
      match BuildRule(clientByName, hostByName, specs[0])
      case Failure(e) => Failure(e)
      case Success(rule) => BuildRulesFrom(acc + [rule], specs[1..], clientByName, hostByName)
  }

  /** The rules loop completes iff every entry builds a rule. */
  lemma {:induction false} BuildRulesFromSucceeds(acc: seq<Rule>, specs: seq<RuleSpec>,
                                                  clientByName: map<string, ClientGroup>, hostByName: map<string, HostGroup>)
    ensures BuildRulesFrom(acc, specs, clientByName, hostByName).Success? <==>
      forall i :: 0 <= i < |specs| ==> BuildRule(clientByName, hostByName, specs[i]).Success?
    decreases |specs|
  {
    if specs != [] {
      var step := BuildRule(clientByName, hostByName, specs[0]);
      if step.Success? {
        BuildRulesFromSucceeds(acc + [step.value], specs[1..], clientByName, hostByName);
        forall i | 1 <= i < |specs|
          ensures specs[i] == specs[1..][i - 1]
        {
        }
      }
    }
  }

  /** The rule list keeps the accumulated prefix and then one built rule per entry, in entry order. */
  lemma {:induction false} BuildRulesFromFacts(acc: seq<Rule>, specs: seq<RuleSpec>,
                                               clientByName: map<string, ClientGroup>, hostByName: map<string, HostGroup>)
    requires BuildRulesFrom(acc, specs, clientByName, hostByName).Success?
    ensures var rs := BuildRulesFrom(acc, specs, clientByName, hostByName).value;
      |rs| == |acc| + |specs| && rs[..|acc|] == acc
      && forall i :: 0 <= i < |specs| ==> BuildRule(clientByName, hostByName, specs[i]) == Success(rs[|acc| + i])
    decreases |specs|
  {
    if specs != [] {
      var step := BuildRule(clientByName, hostByName, specs[0]);
      var acc1 := acc + [step.value];
      BuildRulesFromFacts(acc1, specs[1..], clientByName, hostByName);
      var rs := BuildRulesFrom(acc, specs, clientByName, hostByName).value;
      assert rs == BuildRulesFrom(acc1, specs[1..], clientByName, hostByName).value;
      assert rs[..|acc1|] == acc1;
      assert rs[..|acc|] == acc1[..|acc|];
      forall i | 0 <= i < |specs|
        ensures BuildRule(clientByName, hostByName, specs[i]) == Success(rs[|acc| + i])
      {
        if i > 0 {
          assert specs[i] == specs[1..][i - 1];
        } else {
          assert rs[|acc|] == acc1[|acc|];
        }
      }
    }
  }

  /** The name tables as the rules loop sees them: the declared groups plus `$any`. */
  function WithAnyClient(table: map<string, ClientGroup>): map<string, ClientGroup> {
    table[AnyName := AnyClient]
  }

  function WithAnyHost(table: map<string, HostGroup>): map<string, HostGroup> {
    table[AnyName := AnyHost]
  }

  /**
   * What `parseRuleSet` returns for decoded declarations and rule entries: the
   * client table, then the host table, then the rules, the first exception
   * ending it.
   */
  function RuleSetOf(clients: Declarations, hosts: Declarations, rules: seq<RuleSpec>, f: Foreign): Result<RuleSet, RuleError> {
    match ClientTable(clients, f)
    case Failure(e) => Failure(e)
    case Success(clientByName) =>
      match HostTable(hosts, f)
      case Failure(e) => Failure(e)
      case Success(hostByName) =>
        match BuildRulesFrom([], rules, WithAnyClient(clientByName), WithAnyHost(hostByName))
        case Failure(e) => Failure(e)
        case Success(finalRules) => Success(RuleSet(finalRules))
  }

  // ---------------------------------------------------------------------------
  // The loops
  // ---------------------------------------------------------------------------

  /** The lookup loop over a rule's `client` or `target` array. */
  method Resolve<G>(names: seq<string>, table: map<string, G>) returns (r: Result<seq<G>, RuleError>)
    ensures r == ResolveNames(names, table)
  {
    var groups: seq<G> := [];
    var j := 0;
    while j < |names|
      invariant 0 <= j <= |names|
      invariant |groups| == j
      invariant forall m :: 0 <= m < j ==> names[m] in table && groups[m] == table[names[m]]
    {
      var nextName := names[j];
      if nextName !in table {
        assert FirstMissing(names, j, table);
        ghost var k :| FirstMissing(names, k, table) && ResolveNames(names, table).error == GroupNotFound(names[k]);
        FirstMissingUnique(names, j, k, table);
        return Failure(GroupNotFound(nextName));
      }
      groups := groups + [table[nextName]];
      j := j + 1;
    }
    assert groups == ResolveNames(names, table).value;
    return Success(groups);
  }

  /** `parseRuleSet` on decoded input. */
  method ParseRuleSet(clients: Declarations, hosts: Declarations, rules: seq<RuleSpec>, f: Foreign) returns (r: Result<RuleSet, RuleError>)
    ensures r == RuleSetOf(clients, hosts, rules, f)
  {
    var clientByName: map<string, ClientGroup> := map[];
    var i := 0;
    while i < |clients|
      invariant 0 <= i <= |clients|
      invariant TableFrom(clientByName, clients[i..], ClientBuilder(f), n => ReservedClientName(n)) == ClientTable(clients, f)
    {
      var (clientName, hostPatterns) := clients[i];
      assert clients[i..][1..] == clients[i + 1..];
      if StartsWith(clientName, "$") {
        return Failure(ReservedClientName(clientName));
      }
      var newGroup := NewClientGroup(hostPatterns, f);
      if newGroup.Failure? {
        return Failure(newGroup.error);
      }
      clientByName := clientByName[clientName := newGroup.value];
      i := i + 1;
    }

    var hostByName: map<string, HostGroup> := map[];
    i := 0;
    while i < |hosts|
      invariant 0 <= i <= |hosts|
      invariant TableFrom(hostByName, hosts[i..], HostBuilder(f), n => ReservedHostName(n)) == HostTable(hosts, f)
    {
      var (hostGroupName, hostPatterns) := hosts[i];
      assert hosts[i..][1..] == hosts[i + 1..];
      if StartsWith(hostGroupName, "$") {
        return Failure(ReservedHostName(hostGroupName));
      }
      var newGroup := NewHostGroup(hostPatterns, f);
      if newGroup.Failure? {
        return Failure(newGroup.error);
      }
      hostByName := hostByName[hostGroupName := newGroup.value];
      i := i + 1;
    }

    ghost var declaredClients := clientByName;
    ghost var declaredHosts := hostByName;
    clientByName := clientByName[AnyName := AnyClient];
    hostByName := hostByName[AnyName := AnyHost];

    var finalRules: seq<Rule> := [];
    i := 0;
    while i < |rules|
      invariant 0 <= i <= |rules|
      invariant BuildRulesFrom(finalRules, rules[i..], clientByName, hostByName)
             == BuildRulesFrom([], rules, WithAnyClient(declaredClients), WithAnyHost(declaredHosts))
    {
      var nextRule := rules[i];
      assert rules[i..][1..] == rules[i + 1..];
      if nextRule.decision.None? {
        return Failure(DecisionRequired);
      }
      var clientGroups := Resolve(Names(nextRule.client), clientByName);
      if clientGroups.Failure? {
        return Failure(clientGroups.error);
      }
      var targetGroups := Resolve(Names(nextRule.target), hostByName);
      if targetGroups.Failure? {
        return Failure(targetGroups.error);
      }
      var newClients := if clientGroups.value == [] then [AnyClient] else clientGroups.value;
      var newHosts := if targetGroups.value == [] then [AnyHost] else targetGroups.value;
      finalRules := finalRules + [Rule(newClients, newHosts, nextRule.decision.value)];
      i := i + 1;
    }
    return Success(RuleSet(finalRules));
  }

  // ---------------------------------------------------------------------------
  // What a parsed rule set looks like
  // ---------------------------------------------------------------------------

  /** The client group a resolved name denotes: `$any` or the last declaration of that name. */
  lemma ClientTableFacts(clients: Declarations, f: Foreign)
    requires ClientTable(clients, f).Success?
    ensures forall d :: 0 <= d < |clients| ==> !StartsWith(clients[d].0, "$") && ClientGroupOf(clients[d].1, f).Success?
    ensures forall n :: n in WithAnyClient(ClientTable(clients, f).value) <==> n == AnyName || Declared(clients, n)
    ensures WithAnyClient(ClientTable(clients, f).value)[AnyName] == AnyClient
    ensures forall d :: 0 <= d < |clients| && LastDeclaration(clients, d) ==>
      clients[d].0 in WithAnyClient(ClientTable(clients, f).value) &&
      WithAnyClient(ClientTable(clients, f).value)[clients[d].0] == ClientGroupOf(clients[d].1, f).value
  {
    TableFromFacts(map[], clients, ClientBuilder(f), n => ReservedClientName(n));
    forall d | 0 <= d < |clients|
      ensures clients[d].0 != AnyName
    {
      assert StartsWith(AnyName, "$");
    }
  }

  /** The host group a resolved name denotes: `$any` or the last declaration of that name. */
  lemma HostTableFacts(hosts: Declarations, f: Foreign)
    requires HostTable(hosts, f).Success?
    ensures forall d :: 0 <= d < |hosts| ==> !StartsWith(hosts[d].0, "$") && HostGroupOf(hosts[d].1, f).Success?
    ensures forall n :: n in WithAnyHost(HostTable(hosts, f).value) <==> n == AnyName || Declared(hosts, n)
    ensures WithAnyHost(HostTable(hosts, f).value)[AnyName] == AnyHost
    ensures forall d :: 0 <= d < |hosts| && LastDeclaration(hosts, d) ==>
      hosts[d].0 in WithAnyHost(HostTable(hosts, f).value) &&
      WithAnyHost(HostTable(hosts, f).value)[hosts[d].0] == HostGroupOf(hosts[d].1, f).value
  {
    TableFromFacts(map[], hosts, HostBuilder(f), n => ReservedHostName(n));
    forall d | 0 <= d < |hosts|
      ensures hosts[d].0 != AnyName
    {
      assert StartsWith(AnyName, "$");
    }
  }

  /**
   * A parsed rule set has one rule per entry, in entry order, each the rule
   * `BuildRule` makes of that entry under the declared groups plus `$any`; no
   * declared name starts with `$`.
   */
  lemma RuleSetOfSuccess(clients: Declarations, hosts: Declarations, rules: seq<RuleSpec>, f: Foreign)
    requires RuleSetOf(clients, hosts, rules, f).Success?
    ensures ClientTable(clients, f).Success? && HostTable(hosts, f).Success?
    ensures |RuleSetOf(clients, hosts, rules, f).value.rules| == |rules|
    ensures forall i :: 0 <= i < |rules| ==>
      BuildRule(WithAnyClient(ClientTable(clients, f).value), WithAnyHost(HostTable(hosts, f).value), rules[i])
        == Success(RuleSetOf(clients, hosts, rules, f).value.rules[i])
  {
    var ct := WithAnyClient(ClientTable(clients, f).value);
    var ht := WithAnyHost(HostTable(hosts, f).value);
    var built := BuildRulesFrom([], rules, ct, ht);
    assert built.Success? && RuleSetOf(clients, hosts, rules, f) == Success(RuleSet(built.value));
    var rs := built.value;
    BuildRulesFromFacts([], rules, ct, ht);
    forall i | 0 <= i < |rules|
      ensures BuildRule(ct, ht, rules[i]) == Success(rs[i])
    {
    }
  }

  /**
   * In a parsed rule set every rule keeps its entry's decision, every listed
   * name is `$any` or a declared name, `$any` stands for the match-everything
   * group, and an absent or empty list becomes that group.
   */
  lemma ParsedRuleShape(clients: Declarations, hosts: Declarations, rules: seq<RuleSpec>, f: Foreign, i: int)
    requires RuleSetOf(clients, hosts, rules, f).Success? && 0 <= i < |rules|
    ensures |RuleSetOf(clients, hosts, rules, f).value.rules| == |rules|
    ensures var rule := RuleSetOf(clients, hosts, rules, f).value.rules[i];
      var cs := Names(rules[i].client);
      var ts := Names(rules[i].target);
      rules[i].decision.Some? && rule.decision == rules[i].decision.value
      && (forall j :: 0 <= j < |cs| ==> cs[j] == AnyName || Declared(clients, cs[j]))
      && (forall j :: 0 <= j < |ts| ==> ts[j] == AnyName || Declared(hosts, ts[j]))
      && (cs == [] ==> rule.clients == [AnyClient])
      && (ts == [] ==> rule.hosts == [AnyHost])
      && (cs != [] ==> |rule.clients| == |cs|)
      && (ts != [] ==> |rule.hosts| == |ts|)
      && (forall j :: 0 <= j < |cs| && cs[j] == AnyName ==> rule.clients[j] == AnyClient)
      && (forall j :: 0 <= j < |ts| && ts[j] == AnyName ==> rule.hosts[j] == AnyHost)
  {
    RuleSetOfSuccess(clients, hosts, rules, f);
    ClientTableFacts(clients, f);
    HostTableFacts(hosts, f);
  }

  /** A declared group name starting with `$` makes parsing throw. */
  lemma ReservedNameRejected(clients: Declarations, hosts: Declarations, rules: seq<RuleSpec>, f: Foreign, d: int)
    requires (0 <= d < |clients| && StartsWith(clients[d].0, "$")) || (0 <= d < |hosts| && StartsWith(hosts[d].0, "$"))
    ensures RuleSetOf(clients, hosts, rules, f).Failure?
  {
    if RuleSetOf(clients, hosts, rules, f).Success? {
      RuleSetOfSuccess(clients, hosts, rules, f);
      ClientTableFacts(clients, f);
      HostTableFacts(hosts, f);
    }
  }

  /** A rule entry without a decision makes parsing throw. */
  lemma MissingDecisionRejected(clients: Declarations, hosts: Declarations, rules: seq<RuleSpec>, f: Foreign, i: int)
    requires 0 <= i < |rules| && rules[i].decision.None?
    ensures RuleSetOf(clients, hosts, rules, f).Failure?
  {
    if RuleSetOf(clients, hosts, rules, f).Success? {
      ParsedRuleShape(clients, hosts, rules, f, i);
    }
  }

  /** A rule entry naming a client group that is neither `$any` nor declared makes parsing throw. */
  lemma UndeclaredClientRejected(clients: Declarations, hosts: Declarations, rules: seq<RuleSpec>, f: Foreign, i: int, j: int)
    requires 0 <= i < |rules| && 0 <= j < |Names(rules[i].client)|
    requires Names(rules[i].client)[j] != AnyName && !Declared(clients, Names(rules[i].client)[j])
    ensures RuleSetOf(clients, hosts, rules, f).Failure?
  {
    if RuleSetOf(clients, hosts, rules, f).Success? {
      ParsedRuleShape(clients, hosts, rules, f, i);
    }
  }

  /** A rule entry naming a target group that is neither `$any` nor declared makes parsing throw. */
  lemma UndeclaredTargetRejected(clients: Declarations, hosts: Declarations, rules: seq<RuleSpec>, f: Foreign, i: int, j: int)
    requires 0 <= i < |rules| && 0 <= j < |Names(rules[i].target)|
    requires Names(rules[i].target)[j] != AnyName && !Declared(hosts, Names(rules[i].target)[j])
    ensures RuleSetOf(clients, hosts, rules, f).Failure?
  {
    if RuleSetOf(clients, hosts, rules, f).Success? {
      ParsedRuleShape(clients, hosts, rules, f, i);
    }
  }

  /** Rule entries that name only `$any`, or nothing, always parse once the declarations do. */
  lemma AnyAlwaysResolves(clients: Declarations, hosts: Declarations, rules: seq<RuleSpec>, f: Foreign)
    requires ClientTable(clients, f).Success? && HostTable(hosts, f).Success?
    requires forall i :: 0 <= i < |rules| ==> rules[i].decision.Some?
    requires forall i, j :: 0 <= i < |rules| && 0 <= j < |Names(rules[i].client)| ==> Names(rules[i].client)[j] == AnyName
    requires forall i, j :: 0 <= i < |rules| && 0 <= j < |Names(rules[i].target)| ==> Names(rules[i].target)[j] == AnyName
    ensures RuleSetOf(clients, hosts, rules, f).Success?
  {
    var ct := WithAnyClient(ClientTable(clients, f).value);
    var ht := WithAnyHost(HostTable(hosts, f).value);
    forall i | 0 <= i < |rules|
      ensures BuildRule(ct, ht, rules[i]).Success?
    {
    }
    BuildRulesFromSucceeds([], rules, ct, ht);
  }
}
