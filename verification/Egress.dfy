/** The egress rule lists, built twice for two kinds of objects (reconcileEgressFirewall and
    reconcileEgressNetworkPolicy), and what they let through. */
module Egress {
  import opened CidrBlocks
  import opened CidrPipeline
  import opened Prelude
  import opened Text

  datatype Access = Allow | Deny

  datatype FirewallDestination = FirewallDestination(cidrSelector: string, dnsName: string)
  datatype FirewallRule = FirewallRule(to: FirewallDestination, access: Access)

  datatype PolicyPeer = PolicyPeer(cidrSelector: string, dnsName: string)
  datatype PolicyRule = PolicyRule(to: PolicyPeer, access: Access)

  /** What the network plugin reads in a rule of either kind. */
  datatype Rule = Rule(cidr: string, name: string, access: Access)

  /** An IPv4 address and the names that resolve to it. */
  datatype Destination = Destination(address: Address, names: set<string>)

  datatype EgressError =
    | NoAwsData | NoCidr
    | NoSnitchSecret | NoSnitchURL | BadSnitchURL | NoSnitchHost
    | NoSMTPSecret | NoSMTPHost
    | BadRHOBSEndpoint | NoRHOBSHost
    | BadSSOEndpoint | NoSSOHost

  /** What both builders read. An object is None if it could not be fetched. */
  datatype Inputs = Inputs(
    converged: bool,
    awsData: Option<map<string, string>>,
    snitchSecret: Option<map<string, string>>,
    smtpSecret: Option<map<string, string>>,
    rhobsEndpoint: string,
    ssoEndpoint: string)

  /** The host of a URL, None if the URL does not parse. */
  type HostParser = string -> Option<string>

  const CIDR_KEY := "vpc-cidr"
  const PAGERDUTY := "events.pagerduty.com"
  const CLUSTER_CIDR := "100.64.0.0/16"
  const EVERYWHERE := "0.0.0.0/0"

  const FIREWALL_TEMPLATE := [
    FirewallRule(FirewallDestination("", PAGERDUTY), Allow),
    FirewallRule(FirewallDestination(CLUSTER_CIDR, ""), Allow),
    FirewallRule(FirewallDestination(EVERYWHERE, ""), Deny)]

  const POLICY_TEMPLATE := [
    PolicyRule(PolicyPeer("", PAGERDUTY), Allow),
    PolicyRule(PolicyPeer(CLUSTER_CIDR, ""), Allow),
    PolicyRule(PolicyPeer(EVERYWHERE, ""), Deny)]

  function FirewallRules(rules: seq<FirewallRule>): seq<Rule> {
    seq(|rules|, i requires 0 <= i < |rules| => Rule(rules[i].to.cidrSelector, rules[i].to.dnsName, rules[i].access))
  }

  function PolicyRules(rules: seq<PolicyRule>): seq<Rule> {
    seq(|rules|, i requires 0 <= i < |rules| => Rule(rules[i].to.cidrSelector, rules[i].to.dnsName, rules[i].access))
  }

  predicate InBlock(cidr: string, address: Address) {
    var b := ParseBlock(cidr);
    b.Some? && Covers(b.value, address)
  }

  predicate Matches(r: Rule, d: Destination) {
    InBlock(r.cidr, d.address) || (r.name != "" && r.name in d.names)
  }

  /** The first rule that matches decides; without one, traffic passes. */
  function Decide(rules: seq<Rule>, d: Destination): Access {
    if rules == [] then Allow
    else if Matches(rules[0], d) then rules[0].access
    else Decide(rules[1..], d)
  }

  function AllowNames(names: seq<string>): seq<Rule> {
    seq(|names|, i requires 0 <= i < |names| => Rule("", names[i], Allow))
  }

  function AllowBlocks(cidrs: seq<string>): seq<Rule> {
    seq(|cidrs|, i requires 0 <= i < |cidrs| => Rule(cidrs[i], "", Allow))
  }

  lemma AllowBlocksAppend(cidrs: seq<string>, cidr: string)
    ensures AllowBlocks(cidrs + [cidr]) == AllowBlocks(cidrs) + [Rule(cidr, "", Allow)]
  {
  }

  const DENY_REST := Rule(EVERYWHERE, "", Deny)

  /** The list either builder ends up with. */
  function Rules(names: seq<string>, cidrs: seq<string>): seq<Rule> {
    AllowNames(names) + AllowBlocks(cidrs) + AllowNames([PAGERDUTY]) + AllowBlocks([CLUSTER_CIDR]) + [DENY_REST]
  }

  // ---------------------------------------------------------------- inputs

  function Field(data: map<string, string>, key: string): string {
    if key in data then data[key] else ""
  }

  function Host(url: string, parse: HostParser, bad: EgressError, none: EgressError): Result<string, EgressError> {
    match parse(url)
    case None => Err(bad)
    case Some(host) => if host == "" then Err(none) else Ok(host)
  }

  function SnitchHost(i: Inputs, parse: HostParser): Result<string, EgressError> {
    if i.snitchSecret.None? then Err(NoSnitchSecret)
    else if Field(i.snitchSecret.value, "SNITCH_URL") == "" then Err(NoSnitchURL)
    else Host(Field(i.snitchSecret.value, "SNITCH_URL"), parse, BadSnitchURL, NoSnitchHost)
  }

  function SMTPHost(i: Inputs): Result<string, EgressError> {
    if i.smtpSecret.None? then Err(NoSMTPSecret)
    else if Field(i.smtpSecret.value, "host") == "" then Err(NoSMTPHost)
    else Ok(i.smtpSecret.value["host"])
  }

  /** The VPC's blocks; a converged cluster adds none. */
  function VPCBlocks(i: Inputs): Result<seq<string>, EgressError> {
    if i.converged then Ok([])
    else if i.awsData.None? then Err(NoAwsData)
    else if CIDR_KEY !in i.awsData.value then Err(NoCidr)
    else Ok(Decode(i.awsData.value[CIDR_KEY]))
  }

  /** The four allowed hosts, or the first thing that is missing. */
  function Hosts(i: Inputs, parse: HostParser): (r: Result<seq<string>, EgressError>)
    ensures r.Ok? ==> |r.value| == 4 && "" !in r.value
  {
    match SnitchHost(i, parse)
    case Err(e) => Err(e)
    case Ok(snitch) =>
      match SMTPHost(i)
      case Err(e) => Err(e)
      case Ok(smtp) =>
        match Host(i.rhobsEndpoint, parse, BadRHOBSEndpoint, NoRHOBSHost)
        case Err(e) => Err(e)
        case Ok(rhobs) =>
          match Host(i.ssoEndpoint, parse, BadSSOEndpoint, NoSSOHost)
          case Err(e) => Err(e)
          case Ok(sso) => Ok([snitch, smtp, rhobs, sso])
  }

  predicate HasHost(url: string, parse: HostParser) {
    parse(url).Some? && parse(url).value != ""
  }

  /** The hosts are found exactly if both secrets were read and all four say where to go, and then they are the
      hosts of the three URLs and the mail host. */
  lemma HostsMeaning(i: Inputs, parse: HostParser)
    ensures Hosts(i, parse).Ok? <==>
      && i.snitchSecret.Some? && Field(i.snitchSecret.value, "SNITCH_URL") != ""
      && HasHost(Field(i.snitchSecret.value, "SNITCH_URL"), parse)
      && i.smtpSecret.Some? && Field(i.smtpSecret.value, "host") != ""
      && HasHost(i.rhobsEndpoint, parse) && HasHost(i.ssoEndpoint, parse)
    ensures Hosts(i, parse).Ok? ==>
      Hosts(i, parse).value == [parse(i.snitchSecret.value["SNITCH_URL"]).value, i.smtpSecret.value["host"],
                                parse(i.rhobsEndpoint).value, parse(i.ssoEndpoint).value]
  {
  }

  /** The checks one after the other, as both builders make them. */
  method ReadHosts(i: Inputs, parse: HostParser) returns (r: Result<seq<string>, EgressError>)
    ensures r == Hosts(i, parse)
  {
    if i.snitchSecret.None? {
      return Err(NoSnitchSecret);
    }
    var snitch := Field(i.snitchSecret.value, "SNITCH_URL");
    if snitch == "" {
      return Err(NoSnitchURL);
    }
    var snitchHost := parse(snitch);
    if snitchHost.None? {
      return Err(BadSnitchURL);
    }
    if snitchHost.value == "" {
      return Err(NoSnitchHost);
    }
    if i.smtpSecret.None? {
      return Err(NoSMTPSecret);
    }
    var smtpHost := Field(i.smtpSecret.value, "host");
    if smtpHost == "" {
      return Err(NoSMTPHost);
    }
    var rhobsHost := parse(i.rhobsEndpoint);
    if rhobsHost.None? {
      return Err(BadRHOBSEndpoint);
    }
    if rhobsHost.value == "" {
      return Err(NoRHOBSHost);
    }
    var ssoHost := parse(i.ssoEndpoint);
    if ssoHost.None? {
      return Err(BadSSOEndpoint);
    }
    if ssoHost.value == "" {
      return Err(NoSSOHost);
    }
    return Ok([snitchHost.value, smtpHost, rhobsHost.value, ssoHost.value]);
  }

  /** The rules the inputs call for. */
  function Desired(i: Inputs, parse: HostParser): Result<seq<Rule>, EgressError> {
    match VPCBlocks(i)
    case Err(e) => Err(e)
    case Ok(cidrs) =>
      match Hosts(i, parse)
      case Err(e) => Err(e)
      case Ok(names) => Ok(Rules(names, cidrs))
  }

  // -------------------------------------------------------------- builders

  lemma FirewallListIsRules(vpcRules: seq<FirewallRule>, names: seq<string>, cidrs: seq<string>)
    requires |names| == 4 && FirewallRules(vpcRules) == AllowBlocks(cidrs)
    ensures FirewallRules(FirewallNames(names) + vpcRules + FIREWALL_TEMPLATE) == Rules(names, cidrs)
  {
    assert FirewallRules(FirewallNames(names)) == AllowNames(names);
    assert FirewallRules(FIREWALL_TEMPLATE) == AllowNames([PAGERDUTY]) + AllowBlocks([CLUSTER_CIDR]) + [DENY_REST];
  }

  /** The rules for the four hosts read from the inputs. */
  function FirewallNames(names: seq<string>): seq<FirewallRule>
    requires |names| == 4
  {
    [FirewallRule(FirewallDestination("", names[0]), Allow),
     FirewallRule(FirewallDestination("", names[1]), Allow),
     FirewallRule(FirewallDestination("", names[2]), Allow),
     FirewallRule(FirewallDestination("", names[3]), Allow)]
  }

  class EgressFirewall {
    var egress: seq<FirewallRule>

    static method VPCRules(vpcCIDR: string) returns (rules: seq<FirewallRule>)
      ensures FirewallRules(rules) == AllowBlocks(Decode(vpcCIDR))
    {
      rules := [];
      var cidrList := Split(vpcCIDR, ';');
      for k := 0 to |cidrList|
        invariant FirewallRules(rules) == AllowBlocks(NonEmpty(cidrList[..k]))
      {
        NonEmptyNext(cidrList, k);
        if cidrList[k] == "" {
          continue;
        }
        AllowBlocksAppend(NonEmpty(cidrList[..k]), cidrList[k]);
        rules := rules + [FirewallRule(FirewallDestination(cidrList[k], ""), Allow)];
      }
      assert cidrList[..|cidrList|] == cidrList;
    }

    method Reconcile(available: bool, i: Inputs, parse: HostParser) returns (problem: Option<EgressError>)
      modifies this
      ensures !available ==> problem == None && egress == old(egress)
      ensures available ==>
        match Desired(i, parse)
        case Err(e) => problem == Some(e) && egress == old(egress)
        case Ok(rules) => problem == None && FirewallRules(egress) == rules
    {
      if !available {
        return None;
      }
      var vpcRules: seq<FirewallRule> := [];
      if !i.converged {
        if i.awsData.None? {
          return Some(NoAwsData);
        }
        if CIDR_KEY !in i.awsData.value {
          return Some(NoCidr);
        }
        vpcRules := VPCRules(i.awsData.value[CIDR_KEY]);
      }
      var desired := vpcRules + FIREWALL_TEMPLATE;
      var hosts := ReadHosts(i, parse);
      match hosts {
        case Err(e) =>
          return Some(e);
        case Ok(names) =>
          FirewallListIsRules(vpcRules, names, VPCBlocks(i).value);
          assert FirewallNames(names) + vpcRules + FIREWALL_TEMPLATE == FirewallNames(names) + desired;
          egress := FirewallNames(names) + desired;
          return None;
      }
    }
  }

  lemma PolicyListIsRules(vpcRules: seq<PolicyRule>, names: seq<string>, cidrs: seq<string>)
    requires |names| == 4 && PolicyRules(vpcRules) == AllowBlocks(cidrs)
    ensures PolicyRules(PolicyNames(names) + vpcRules + POLICY_TEMPLATE) == Rules(names, cidrs)
  {
    assert PolicyRules(PolicyNames(names)) == AllowNames(names);
    assert PolicyRules(POLICY_TEMPLATE) == AllowNames([PAGERDUTY]) + AllowBlocks([CLUSTER_CIDR]) + [DENY_REST];
  }

  /** The rules for the four hosts read from the inputs. */
  function PolicyNames(names: seq<string>): seq<PolicyRule>
    requires |names| == 4
  {
    [PolicyRule(PolicyPeer("", names[0]), Allow),
     PolicyRule(PolicyPeer("", names[1]), Allow),
     PolicyRule(PolicyPeer("", names[2]), Allow),
     PolicyRule(PolicyPeer("", names[3]), Allow)]
  }

  class EgressNetworkPolicy {
    var egress: seq<PolicyRule>

    static method VPCRules(vpcCIDR: string) returns (rules: seq<PolicyRule>)
      ensures PolicyRules(rules) == AllowBlocks(Decode(vpcCIDR))
    {
      rules := [];
      var cidrList := Split(vpcCIDR, ';');
      for k := 0 to |cidrList|
        invariant PolicyRules(rules) == AllowBlocks(NonEmpty(cidrList[..k]))
      {
        NonEmptyNext(cidrList, k);
        if cidrList[k] == "" {
          continue;
        }
        AllowBlocksAppend(NonEmpty(cidrList[..k]), cidrList[k]);
        rules := rules + [PolicyRule(PolicyPeer(cidrList[k], ""), Allow)];
      }
      assert cidrList[..|cidrList|] == cidrList;
    }

    method Reconcile(available: bool, i: Inputs, parse: HostParser) returns (problem: Option<EgressError>)
      modifies this
      ensures !available ==> problem == None && egress == old(egress)
      ensures available ==>
        match Desired(i, parse)
        case Err(e) => problem == Some(e) && egress == old(egress)
        case Ok(rules) => problem == None && PolicyRules(egress) == rules
    {
      if !available {
        return None;
      }
      var vpcRules: seq<PolicyRule> := [];
      if !i.converged {
        if i.awsData.None? {
          return Some(NoAwsData);
        }
        if CIDR_KEY !in i.awsData.value {
          return Some(NoCidr);
        }
        vpcRules := VPCRules(i.awsData.value[CIDR_KEY]);
      }
      var desired := vpcRules + POLICY_TEMPLATE;
      var hosts := ReadHosts(i, parse);
      match hosts {
        case Err(e) =>
          return Some(e);
        case Ok(names) =>
          PolicyListIsRules(vpcRules, names, VPCBlocks(i).value);
          assert PolicyNames(names) + vpcRules + POLICY_TEMPLATE == PolicyNames(names) + desired;
          egress := PolicyNames(names) + desired;
          return None;
      }
    }
  }

  /** Both phases, as reconcilePhases runs them on a cluster that has both kinds: they fail for the same
      reason or leave two lists that decide alike about every destination. */
  method ReconcileEgress(firewall: EgressFirewall, policy: EgressNetworkPolicy, i: Inputs, parse: HostParser)
    returns (problem: Option<EgressError>)
    modifies firewall, policy
    ensures problem == match Desired(i, parse) case Err(e) => Some(e) case Ok(_) => None
    ensures problem.Some? ==> firewall.egress == old(firewall.egress) && policy.egress == old(policy.egress)
    ensures problem.None? ==>
      forall d :: Decide(FirewallRules(firewall.egress), d) == Decide(PolicyRules(policy.egress), d)
  {
    problem := firewall.Reconcile(true, i, parse);
    if problem.Some? {
      return;
    }
    problem := policy.Reconcile(true, i, parse);
  }

  // --------------------------------------------------------------- meaning

  predicate AllAllow(rules: seq<Rule>) {
    forall r :: r in rules ==> r.access == Allow
  }

  predicate AnyMatches(rules: seq<Rule>, d: Destination) {
    exists r :: r in rules && Matches(r, d)
  }

  lemma {:induction false} DecideAfterAllows(allows: seq<Rule>, rest: seq<Rule>, d: Destination)
    requires AllAllow(allows)
    ensures Decide(allows + rest, d) == if AnyMatches(allows, d) then Allow else Decide(rest, d)
  {
    if allows == [] {
      assert allows + rest == rest;
    } else {
      var r := allows[0];
      assert r in allows;
      assert (allows + rest)[1..] == allows[1..] + rest;
      if !Matches(r, d) {
        DecideAfterAllows(allows[1..], rest, d);
        assert allows == [r] + allows[1..];
        assert AnyMatches(allows, d) <==> AnyMatches(allows[1..], d);
      }
    }
  }

  /** The allow rules may be permuted freely. */
  lemma AllowOrderIsIrrelevant(allows: seq<Rule>, permuted: seq<Rule>, rest: seq<Rule>, d: Destination)
    requires AllAllow(allows) && multiset(allows) == multiset(permuted)
    ensures Decide(permuted + rest, d) == Decide(allows + rest, d)
  {
    forall r
      ensures r in allows <==> r in permuted
    {
      assert r in multiset(allows) <==> r in multiset(permuted);
    }
    DecideAfterAllows(allows, rest, d);
    DecideAfterAllows(permuted, rest, d);
  }

  lemma NobodyPassesTheLastRule(extra: seq<Rule>, d: Destination)
    ensures Decide([DENY_REST] + extra, d) == Deny
  {
    DefaultBlock(EVERYWHERE);
    ZeroLengthCoversAll(Block(0, 0), d.address);
  }

  predicate NameListed(names: seq<string>, d: Destination) {
    exists n :: n in names && n != "" && n in d.names
  }

  predicate BlockListed(cidrs: seq<string>, d: Destination) {
    exists c :: c in cidrs && InBlock(c, d.address)
  }

  lemma NoEmptyBlock(address: Address)
    ensures !InBlock("", address)
  {
    assert Split("", '/') == [""];
  }

  lemma NameRuleMatches(name: string, d: Destination)
    ensures Matches(Rule("", name, Allow), d) <==> name != "" && name in d.names
  {
    NoEmptyBlock(d.address);
  }

  lemma AllowedNames(names: seq<string>, d: Destination)
    ensures AllAllow(AllowNames(names))
    ensures AnyMatches(AllowNames(names), d) <==> NameListed(names, d)
  {
    var rules := AllowNames(names);
    if AnyMatches(rules, d) {
      var k :| 0 <= k < |rules| && Matches(rules[k], d);
      NameRuleMatches(names[k], d);
    }
    if NameListed(names, d) {
      var k :| 0 <= k < |names| && names[k] != "" && names[k] in d.names;
      NameRuleMatches(names[k], d);
      assert rules[k] in rules;
    }
  }

  lemma BlockRuleMatches(cidr: string, d: Destination)
    ensures Matches(Rule(cidr, "", Allow), d) <==> InBlock(cidr, d.address)
  {
  }

  lemma AllowedBlocks(cidrs: seq<string>, d: Destination)
    ensures AllAllow(AllowBlocks(cidrs))
    ensures AnyMatches(AllowBlocks(cidrs), d) <==> BlockListed(cidrs, d)
  {
    var rules := AllowBlocks(cidrs);
    if AnyMatches(rules, d) {
      var k :| 0 <= k < |rules| && Matches(rules[k], d);
      BlockRuleMatches(cidrs[k], d);
    }
    if BlockListed(cidrs, d) {
      var k :| 0 <= k < |cidrs| && InBlock(cidrs[k], d.address);
      BlockRuleMatches(cidrs[k], d);
      assert rules[k] in rules;
    }
  }

  lemma NamesFirst(names: seq<string>, rest: seq<Rule>, d: Destination)
    ensures Decide(AllowNames(names) + rest, d) == if NameListed(names, d) then Allow else Decide(rest, d)
  {
    AllowedNames(names, d);
    DecideAfterAllows(AllowNames(names), rest, d);
  }

  lemma BlocksFirst(cidrs: seq<string>, rest: seq<Rule>, d: Destination)
    ensures Decide(AllowBlocks(cidrs) + rest, d) == if BlockListed(cidrs, d) then Allow else Decide(rest, d)
  {
    AllowedBlocks(cidrs, d);
    DecideAfterAllows(AllowBlocks(cidrs), rest, d);
  }

  lemma ListedInEither(names: seq<string>, cidrs: seq<string>, name: string, cidr: string, d: Destination)
    ensures NameListed(names + [name], d) <==> NameListed(names, d) || NameListed([name], d)
    ensures BlockListed(cidrs + [cidr], d) <==> BlockListed(cidrs, d) || BlockListed([cidr], d)
  {
  }

  lemma LayersMeaning(names: seq<string>, cidrs: seq<string>, name: string, cidr: string, last: seq<Rule>,
                      d: Destination)
    ensures Decide(AllowNames(names) + (AllowBlocks(cidrs) + (AllowNames([name]) + (AllowBlocks([cidr]) + last))), d)
         == if NameListed(names + [name], d) || BlockListed(cidrs + [cidr], d) then Allow else Decide(last, d)
  {
    var fourth := AllowBlocks([cidr]) + last;
    var third := AllowNames([name]) + fourth;
    NamesFirst(names, AllowBlocks(cidrs) + third, d);
    BlocksFirst(cidrs, third, d);
    NamesFirst([name], fourth, d);
    BlocksFirst([cidr], last, d);
    ListedInEither(names, cidrs, name, cidr, d);
  }

  /** Whatever follows the built list, it allows exactly the listed names and blocks: rules put behind the
      template, instead of in front of it, would change nothing. */
  lemma EgressMeaning(names: seq<string>, cidrs: seq<string>, extra: seq<Rule>, d: Destination)
    ensures Decide(Rules(names, cidrs) + extra, d)
         == if NameListed(names + [PAGERDUTY], d) || BlockListed(cidrs + [CLUSTER_CIDR], d) then Allow else Deny
  {
    var last := [DENY_REST] + extra;
    NobodyPassesTheLastRule(extra, d);
    LayersMeaning(names, cidrs, PAGERDUTY, CLUSTER_CIDR, last, d);
    RegroupedRules(names, cidrs, extra);
  }

  lemma RegroupedRules(names: seq<string>, cidrs: seq<string>, extra: seq<Rule>)
    ensures Rules(names, cidrs) + extra
         == AllowNames(names) + (AllowBlocks(cidrs)
            + (AllowNames([PAGERDUTY]) + (AllowBlocks([CLUSTER_CIDR]) + ([DENY_REST] + extra))))
  {
  }

  /** From the metadata service to the decision: whatever blocks the VPC has, a destination outside every
      listed name passes exactly if it is in one of them or in 100.64.0.0/16. */
  lemma GatheredBlocksPass(i: Inputs, parse: HostParser, cidrs: seq<string>, newlineAtEnd: bool, d: Destination)
    requires forall c :: c in cidrs ==> Plain(c)
    requires !i.converged && i.awsData == Some(map[CIDR_KEY := Encode(Lines(cidrs, newlineAtEnd))])
    requires Hosts(i, parse).Ok?
    ensures Desired(i, parse).Ok?
    ensures Decide(Desired(i, parse).value, d) == Allow
       <==> || NameListed(Hosts(i, parse).value + [PAGERDUTY], d)
            || BlockListed(cidrs, d)
            || 0x6440_0000 <= d.address < 0x6441_0000
  {
    CidrsRoundTrip(cidrs, newlineAtEnd);
    var names := Hosts(i, parse).value;
    assert Desired(i, parse).value == Rules(names, cidrs) + [];
    EgressMeaning(names, cidrs, [], d);
    ClusterBlockIsARange(d.address);
    assert BlockListed(cidrs + [CLUSTER_CIDR], d) <==> BlockListed(cidrs, d) || InBlock(CLUSTER_CIDR, d.address);
  }

  /** A converged cluster lets only its own block through besides the listed names, whatever the metadata says. */
  lemma ConvergedMeaning(i: Inputs, parse: HostParser, d: Destination)
    requires i.converged
    ensures Desired(i, parse).Ok? <==> Hosts(i, parse).Ok?
    ensures Hosts(i, parse).Ok? ==>
      (Decide(Desired(i, parse).value, d) == Allow
       <==> || NameListed(Hosts(i, parse).value + ["events.pagerduty.com"], d)
            || 0x6440_0000 <= d.address < 0x6441_0000)
  {
    if Hosts(i, parse).Ok? {
      var names := Hosts(i, parse).value;
      assert Desired(i, parse).value == Rules(names, []) + [];
      EgressMeaning(names, [], [], d);
      ClusterBlockIsARange(d.address);
      assert BlockListed([] + [CLUSTER_CIDR], d) <==> InBlock(CLUSTER_CIDR, d.address);
    }
  }

  /** Of several things that are missing, the first is reported, in the order of the checks. */
  lemma FirstProblemIsReported(i: Inputs, parse: HostParser)
    ensures var r := Desired(i, parse);
            var snitch, smtp := i.snitchSecret, i.smtpSecret;
            var blocks := i.converged || (i.awsData.Some? && "vpc-cidr" in i.awsData.value);
            var snitchURL := if snitch.Some? then Field(snitch.value, "SNITCH_URL") else "";
            var snitchHost := blocks && snitch.Some? && snitchURL != "" && HasHost(snitchURL, parse);
            var smtpHost := snitchHost && smtp.Some? && Field(smtp.value, "host") != "";
            var rhobsHost := smtpHost && HasHost(i.rhobsEndpoint, parse);
            && (r == Err(NoAwsData) <==> !i.converged && i.awsData.None?)
            && (r == Err(NoCidr) <==> !i.converged && i.awsData.Some? && "vpc-cidr" !in i.awsData.value)
            && (r == Err(NoSnitchSecret) <==> blocks && snitch.None?)
            && (r == Err(NoSnitchURL) <==> blocks && snitch.Some? && snitchURL == "")
            && (r == Err(BadSnitchURL) <==> blocks && snitch.Some? && snitchURL != "" && parse(snitchURL).None?)
            && (r == Err(NoSnitchHost) <==> blocks && snitch.Some? && snitchURL != "" && parse(snitchURL) == Some(""))
            && (r == Err(NoSMTPSecret) <==> snitchHost && smtp.None?)
            && (r == Err(NoSMTPHost) <==> snitchHost && smtp.Some? && Field(smtp.value, "host") == "")
            && (r == Err(BadRHOBSEndpoint) <==> smtpHost && parse(i.rhobsEndpoint).None?)
            && (r == Err(NoRHOBSHost) <==> smtpHost && parse(i.rhobsEndpoint) == Some(""))
            && (r == Err(BadSSOEndpoint) <==> rhobsHost && parse(i.ssoEndpoint).None?)
            && (r == Err(NoSSOHost) <==> rhobsHost && parse(i.ssoEndpoint) == Some(""))
            && (r.Ok? <==> rhobsHost && HasHost(i.ssoEndpoint, parse))
  {
  }

  lemma ClusterBlockIsARange(address: Address)
    ensures InBlock(CLUSTER_CIDR, address) <==> 0x6440_0000 <= address < 0x6441_0000
  {
    ClusterBlock(CLUSTER_CIDR);
    SixteenBitBlock(Block(0x6440_0000, 16), address);
  }

  lemma SixteenBitBlock(b: Block, address: Address)
    requires b.length == 16 && b.address % 0x1_0000 == 0
    ensures Covers(b, address) <==> b.address <= address < b.address + 0x1_0000
  {
    assert Size(b) == 0x1_0000 by {
      assert Pow2(8) == 0x100;
    }
    BlockIsARange(b, address);
  }
}
