/**
 The policy compiler of client/smart: `BuildConfig`, its rule builders, the DNS
 rule builder and the diagnostic rewrite. Each loop is a method proved against a
 specification function; PolicyTheorems.dfy reasons about those functions.
 */
module Compiler {
  import opened Options
  import opened Addresses
  import opened Text
  import opened Policy

  function OutboundOf(t: Target): string {
    if t == Vpn then AWG_OUT else DIRECT_OUT
  }

  // ------------------------------------------------------------ custom rules

  function CustomRuleObject(r: CustomRule): Rule {
    var base := ANY.(action := Route(OutboundOf(r.target)));
    match r.value
    case Application(n) => if IsPath(n) then base.(processPaths := [n]) else base.(processNames := [n])
    case Domain(d) => base.(domains := [d], suffixes := ["." + d])
    case Cidr(p) => base.(cidrs := [p])
  }

  function CustomRuleObjects(rules: seq<CustomRule>): seq<Rule> {
    if rules == [] then []
    else (if rules[0].enabled then [CustomRuleObject(rules[0])] else []) + CustomRuleObjects(rules[1..])
  }

  // ----------------------------------------------------------- regional rules

  function Roots(suffixes: seq<string>): seq<string> {
    if suffixes == [] then [] else [TrimPrefix(suffixes[0], ".")] + Roots(suffixes[1..])
  }

  function RegionalOutbound(s: Settings, v: Service): string {
    if ServiceUsesVpn(s, v.id) then AWG_OUT else DIRECT_OUT
  }

  function RegionalRules(s: Settings, v: Service): seq<Rule> {
    var action := Route(RegionalOutbound(s, v));
    (if v.processNames != [] then [ANY.(processNames := v.processNames, action := action)] else [])
    + [ANY.(domains := v.domains + Roots(v.suffixes), suffixes := v.suffixes, action := action)]
  }

  function RegionalRuleObjects(s: Settings, regional: seq<Service>): seq<Rule> {
    if regional == [] then []
    else RegionalRules(s, regional[0]) + RegionalRuleObjects(s, regional[1..])
  }

  method BuildRegionalRules(s: Settings, regional: seq<Service>) returns (rules: seq<Rule>)
    ensures rules == RegionalRuleObjects(s, regional)
  {
    rules := [];
    for i := 0 to |regional|
      invariant rules + RegionalRuleObjects(s, regional[i..]) == RegionalRuleObjects(s, regional)
    {
      assert regional[i..][1..] == regional[i + 1..];
      var own := BuildGroupRules(s, regional[i]);
      rules := rules + own;
    }
    assert regional[|regional|..] == [];
  }

  method BuildGroupRules(s: Settings, v: Service) returns (rules: seq<Rule>)
    ensures rules == RegionalRules(s, v)
  {
    var outbound := DIRECT_OUT;
    if ServiceUsesVpn(s, v.id) { outbound := AWG_OUT; }
    var domains := v.domains;
    for j := 0 to |v.suffixes|
      invariant domains + Roots(v.suffixes[j..]) == v.domains + Roots(v.suffixes)
    {
      assert v.suffixes[j..][1..] == v.suffixes[j + 1..];
      domains := domains + [TrimPrefix(v.suffixes[j], ".")];
    }
    assert v.suffixes[|v.suffixes|..] == [];
    assert domains == v.domains + Roots(v.suffixes);
    rules := [];
    if v.processNames != [] {
      rules := rules + [ANY.(processNames := v.processNames, action := Route(outbound))];
    }
    rules := rules + [ANY.(domains := domains, suffixes := v.suffixes, action := Route(outbound))];
  }

  // ------------------------------------------------------------ service rules

  function NonEmpty(xs: seq<string>): seq<string> {
    if xs == [] then [] else (if xs[0] != "" then [xs[0]] else []) + NonEmpty(xs[1..])
  }

  function MergedProcesses(acc: seq<string>, vs: seq<Service>): seq<string>
    decreases |vs|
  {
    if vs == [] then acc else MergedProcesses(AddNew(acc, vs[0].processNames), vs[1..])
  }

  function MergedSuffixes(acc: seq<string>, vs: seq<Service>): seq<string>
    decreases |vs|
  {
    if vs == [] then acc else MergedSuffixes(AddNew(acc, vs[0].suffixes), vs[1..])
  }

  function MergedDomains(acc: seq<string>, vs: seq<Service>): seq<string>
    decreases |vs|
  {
    if vs == [] then acc
    else MergedDomains(AddNew(AddNew(acc, vs[0].domains), NonEmpty(Roots(vs[0].suffixes))), vs[1..])
  }

  function ServiceRuleObjects(vs: seq<Service>, outbound: string): seq<Rule> {
    var processes := MergedProcesses([], vs);
    var domains := MergedDomains([], vs);
    var suffixes := MergedSuffixes([], vs);
    (if processes != [] then [ANY.(processNames := processes, action := Route(outbound))] else [])
    + (if domains != [] || suffixes != []
       then [ANY.(domains := domains, suffixes := suffixes, action := Route(outbound))] else [])
  }

  /** One deduplicating pass, as the source writes it: a list and the set of what it holds. */
  method AppendNew(acc: seq<string>, held: set<string>, xs: seq<string>)
    returns (list: seq<string>, seen: set<string>)
    requires forall x :: x in held <==> x in acc
    ensures list == AddNew(acc, xs)
    ensures forall x :: x in seen <==> x in list
  {
    list, seen := acc, held;
    for i := 0 to |xs|
      invariant AddNew(list, xs[i..]) == AddNew(acc, xs)
      invariant forall x :: x in seen <==> x in list
    {
      if xs[i] !in seen {
        seen := seen + {xs[i]};
        list := list + [xs[i]];
      }
      assert xs[i..][1..] == xs[i + 1..];
    }
    assert xs[|xs|..] == [];
  }

  method BuildServiceRules(vs: seq<Service>, outbound: string) returns (rules: seq<Rule>)
    ensures rules == ServiceRuleObjects(vs, outbound)
  {
    var processes, domains, suffixes := [], [], [];
    var processSet, domainSet, suffixSet := {}, {}, {};
    for i := 0 to |vs|
      invariant MergedProcesses(processes, vs[i..]) == MergedProcesses([], vs)
      invariant MergedDomains(domains, vs[i..]) == MergedDomains([], vs)
      invariant MergedSuffixes(suffixes, vs[i..]) == MergedSuffixes([], vs)
      invariant forall x :: x in processSet <==> x in processes
      invariant forall x :: x in domainSet <==> x in domains
      invariant forall x :: x in suffixSet <==> x in suffixes
    {
      var v := vs[i];
      assert vs[i..][1..] == vs[i + 1..];
      processes, processSet := AppendNew(processes, processSet, v.processNames);
      domains, domainSet := AppendNew(domains, domainSet, v.domains);
      suffixes, suffixSet, domains, domainSet :=
        AppendSuffixes(suffixes, suffixSet, domains, domainSet, v.suffixes);
    }
    assert vs[|vs|..] == [];
    rules := [];
    if processes != [] {
      rules := rules + [ANY.(processNames := processes, action := Route(outbound))];
    }
    if domains != [] || suffixes != [] {
      rules := rules + [ANY.(domains := domains, suffixes := suffixes, action := Route(outbound))];
    }
  }

  lemma NonEmptyRoots(xs: seq<string>)
    requires xs != []
    ensures var root, rest := TrimPrefix(xs[0], "."), NonEmpty(Roots(xs[1..]));
            NonEmpty(Roots(xs)) == if root != "" then [root] + rest else rest
  {
  }

  /** The suffix loop feeds two lists at once: the suffix itself and its root domain. */
  method AppendSuffixes(suffixes: seq<string>, suffixSet: set<string>,
                        domains: seq<string>, domainSet: set<string>, xs: seq<string>)
    returns (suffixes': seq<string>, suffixSet': set<string>, domains': seq<string>, domainSet': set<string>)
    requires forall x :: x in suffixSet <==> x in suffixes
    requires forall x :: x in domainSet <==> x in domains
    ensures suffixes' == AddNew(suffixes, xs)
    ensures domains' == AddNew(domains, NonEmpty(Roots(xs)))
    ensures forall x :: x in suffixSet' <==> x in suffixes'
    ensures forall x :: x in domainSet' <==> x in domains'
  {
    suffixes', suffixSet', domains', domainSet' := suffixes, suffixSet, domains, domainSet;
    for i := 0 to |xs|
      invariant AddNew(suffixes', xs[i..]) == AddNew(suffixes, xs)
      invariant AddNew(domains', NonEmpty(Roots(xs[i..]))) == AddNew(domains, NonEmpty(Roots(xs)))
      invariant forall x :: x in suffixSet' <==> x in suffixes'
      invariant forall x :: x in domainSet' <==> x in domains'
    {
      assert xs[i..][1..] == xs[i + 1..];
      if xs[i] !in suffixSet' {
        suffixSet' := suffixSet' + {xs[i]};
        suffixes' := suffixes' + [xs[i]];
      }
      var root := TrimPrefix(xs[i], ".");
      NonEmptyRoots(xs[i..]);
      if root != "" && root !in domainSet' {
        domainSet' := domainSet' + {root};
        domains' := domains' + [root];
      }
    }
    assert xs[|xs|..] == [];
  }

  // ------------------------------------------------------------------ profile

  datatype Peer = Peer(hasEndpoint: bool, allowed: seq<Prefix>)

  /** What the compiler reads of a tunnel profile; `awgValid` is the parser's own verdict. */
  datatype Profile = Profile(
    awgValid: bool,
    addresses: seq<Prefix>,
    dns: seq<Option<Ip>>,
    peers: seq<Peer>)

  datatype Families = Families(ipv4: bool, ipv6: bool) {
    predicate Carries(f: Family) { if f.V4? then ipv4 else ipv6 }
  }

  predicate HasAddress(p: Profile, f: Family) {
    exists i :: 0 <= i < |p.addresses| && p.addresses[i].family == f
  }

  predicate IsDefaultRoute(a: Prefix, f: Family) {
    a.family == f && a.bits == 0
  }

  predicate PeerHasDefault(peer: Peer, f: Family) {
    exists j :: 0 <= j < |peer.allowed| && IsDefaultRoute(peer.allowed[j], f)
  }

  predicate HasDefault(peers: seq<Peer>, f: Family) {
    exists i :: 0 <= i < |peers| && PeerHasDefault(peers[i], f)
  }

  /** A family is carried exactly when the interface has it and some peer defaults to it. */
  function ProfileFamilies(p: Profile): Families {
    Families(HasAddress(p, V4) && HasDefault(p.peers, V4), HasAddress(p, V6) && HasDefault(p.peers, V6))
  }

  method DetectProfileFamilies(p: Profile) returns (families: Families)
    ensures families == ProfileFamilies(p)
    ensures families.ipv4 <==>
            && (exists a :: a in p.addresses && a.family == V4)
            && (exists peer, a :: peer in p.peers && a in peer.allowed && a.family == V4 && a.bits == 0)
    ensures families.ipv6 <==>
            && (exists a :: a in p.addresses && a.family == V6)
            && (exists peer, a :: peer in p.peers && a in peer.allowed && a.family == V6 && a.bits == 0)
  {
    FamilyCarried(p, V4);
    FamilyCarried(p, V6);
    var interface4, interface6 := false, false;
    for i := 0 to |p.addresses|
      invariant interface4 <==> exists k :: 0 <= k < i && p.addresses[k].family == V4
      invariant interface6 <==> exists k :: 0 <= k < i && p.addresses[k].family == V6
    {
      if p.addresses[i].family.V4? { interface4 := true; } else { interface6 := true; }
    }
    var default4, default6 := false, false;
    for i := 0 to |p.peers|
      invariant default4 <==> HasDefault(p.peers[..i], V4)
      invariant default6 <==> HasDefault(p.peers[..i], V6)
    {
      var allowed := p.peers[i].allowed;
      ghost var was4, was6 := default4, default6;
      for j := 0 to |allowed|
        invariant default4 <==> was4 || exists k :: 0 <= k < j && IsDefaultRoute(allowed[k], V4)
        invariant default6 <==> was6 || exists k :: 0 <= k < j && IsDefaultRoute(allowed[k], V6)
      {
        if allowed[j].bits == 0 {
          if allowed[j].family.V4? { default4 := true; } else { default6 := true; }
        }
      }
      HasDefaultSnoc(p.peers[..i], p.peers[i], V4);
      HasDefaultSnoc(p.peers[..i], p.peers[i], V6);
      assert p.peers[..i + 1] == p.peers[..i] + [p.peers[i]];
    }
    assert p.peers[..|p.peers|] == p.peers;
    families := Families(interface4 && default4, interface6 && default6);
  }

  lemma FamilyCarried(p: Profile, f: Family)
    ensures HasAddress(p, f) <==> exists a :: a in p.addresses && a.family == f
    ensures HasDefault(p.peers, f) <==>
            exists peer, a :: peer in p.peers && a in peer.allowed && a.family == f && a.bits == 0
  {
    if HasDefault(p.peers, f) {
      var i :| 0 <= i < |p.peers| && PeerHasDefault(p.peers[i], f);
      var j :| 0 <= j < |p.peers[i].allowed| && IsDefaultRoute(p.peers[i].allowed[j], f);
      assert p.peers[i] in p.peers && p.peers[i].allowed[j] in p.peers[i].allowed;
    }
    if peer, a :| peer in p.peers && a in peer.allowed && a.family == f && a.bits == 0 {
      var j :| 0 <= j < |peer.allowed| && peer.allowed[j] == a;
      assert IsDefaultRoute(peer.allowed[j], f);
    }
  }

  lemma HasDefaultSnoc(peers: seq<Peer>, peer: Peer, f: Family)
    ensures HasDefault(peers + [peer], f) <==> HasDefault(peers, f) || PeerHasDefault(peer, f)
  {
    if HasDefault(peers, f) {
      var i :| 0 <= i < |peers| && PeerHasDefault(peers[i], f);
      assert (peers + [peer])[i] == peers[i];
    }
    if PeerHasDefault(peer, f) {
      assert (peers + [peer])[|peers|] == peer;
    }
  }

  function DnsStrategy(f: Families): string {
    if f.ipv4 && f.ipv6 then "prefer_ipv4" else if f.ipv4 then "ipv4_only" else "ipv6_only"
  }

  // -------------------------------------------------------------- DNS servers

  const DIRECT_DNS := "direct-dns"

  datatype DnsServer = DnsServer(tag: string, address: Option<Ip>, detour: string)

  const CLOUDFLARE_4 := Ip(V4, 0x0101_0101)
  const CLOUDFLARE_6 := Ip(V6, 0x2606_4700_4700_0000_0000_0000_0000_1111)

  function ProfileTag(n: nat): string {
    "profile-dns-" + Decimal(n)
  }

  predicate UsesAddress(servers: seq<DnsServer>, ip: Ip) {
    exists i :: 0 <= i < |servers| && servers[i].address == Some(ip)
  }

  /** The servers reached through the tunnel: tagged by position, no address twice, carried families only. */
  predicate VpnServers(servers: seq<DnsServer>, families: Families) {
    && (forall i :: 0 <= i < |servers| ==>
          servers[i].detour == AWG_OUT && servers[i].address.Some? && families.Carries(servers[i].address.value.family))
    && (forall i, j :: 0 <= i < j < |servers| ==>
          servers[i].address != servers[j].address && servers[i].tag != servers[j].tag)
    && (forall i :: 0 <= i < |servers| ==> servers[i].tag != DIRECT_DNS)
  }

  function ServersOf(acc: seq<DnsServer>, dns: seq<Option<Ip>>, families: Families): seq<DnsServer>
    decreases |dns|
  {
    if dns == [] then acc
    else if dns[0].None? || !families.Carries(dns[0].value.family) || UsesAddress(acc, dns[0].value) then
      ServersOf(acc, dns[1..], families)
    else
      ServersOf(acc + [DnsServer(ProfileTag(|acc|), dns[0], AWG_OUT)], dns[1..], families)
  }

  predicate Tagged(servers: seq<DnsServer>) {
    forall k :: 0 <= k < |servers| ==> servers[k].tag == ProfileTag(k)
  }

  lemma {:induction false} ServersOfSound(acc: seq<DnsServer>, dns: seq<Option<Ip>>, families: Families)
    requires VpnServers(acc, families) && Tagged(acc)
    ensures VpnServers(ServersOf(acc, dns, families), families)
    decreases |dns|
  {
    if dns != [] {
      if dns[0].None? || !families.Carries(dns[0].value.family) || UsesAddress(acc, dns[0].value) {
        ServersOfSound(acc, dns[1..], families);
      } else {
        NewTag(acc, |acc|);
        ServersOfSound(acc + [DnsServer(ProfileTag(|acc|), dns[0], AWG_OUT)], dns[1..], families);
      }
    }
  }

  /** The profile's own carried resolvers are used, each of them, and nothing else. */
  lemma {:induction false} ServersOfComplete(acc: seq<DnsServer>, dns: seq<Option<Ip>>, families: Families, a: Ip)
    ensures UsesAddress(ServersOf(acc, dns, families), a)
            <==> UsesAddress(acc, a) || (Some(a) in dns && families.Carries(a.family))
    decreases |dns|
  {
    if dns != [] {
      assert Some(a) in dns <==> Some(a) == dns[0] || Some(a) in dns[1..];
      if dns[0].None? || !families.Carries(dns[0].value.family) || UsesAddress(acc, dns[0].value) {
        ServersOfComplete(acc, dns[1..], families, a);
      } else {
        var acc' := acc + [DnsServer(ProfileTag(|acc|), dns[0], AWG_OUT)];
        ServersOfComplete(acc', dns[1..], families, a);
        UsesSnoc(acc, acc'[|acc|], a);
      }
    }
  }

  lemma UsesSnoc(servers: seq<DnsServer>, last: DnsServer, a: Ip)
    ensures UsesAddress(servers + [last], a) <==> UsesAddress(servers, a) || last.address == Some(a)
  {
    var all := servers + [last];
    if UsesAddress(servers, a) {
      var k :| 0 <= k < |servers| && servers[k].address == Some(a);
      assert all[k].address == Some(a);
    }
    if last.address == Some(a) { assert all[|servers|].address == Some(a); }
  }

  ghost predicate NoneCarried(dns: seq<Option<Ip>>, families: Families) {
    forall a :: Some(a) in dns ==> !families.Carries(a.family)
  }

  method DnsServers(p: Profile, families: Families) returns (servers: seq<DnsServer>)
    requires families.ipv4 || families.ipv6
    ensures servers != [] && VpnServers(servers, families)
    ensures forall a :: Some(a) in p.dns && families.Carries(a.family) ==> UsesAddress(servers, a)
    ensures forall a :: UsesAddress(servers, a) ==> Some(a) in p.dns || NoneCarried(p.dns, families)
    ensures NoneCarried(p.dns, families) ==> PublicServers(servers, families)
    ensures forall i :: 0 <= i < |p.dns| && FirstCarried(p.dns, families, i) ==> servers[0].address == p.dns[i]
  {
    servers := ProfileServers(p.dns, families);
    ServersOfSound([], p.dns, families);
    forall a ensures Some(a) in p.dns && families.Carries(a.family) <==> UsesAddress(servers, a) {
      ServersOfComplete([], p.dns, families, a);
    }
    forall i | 0 <= i < |p.dns| && FirstCarried(p.dns, families, i)
      ensures servers != [] && servers[0].address == p.dns[i]
    {
      FirstCarriedLeads(p.dns, families, i);
    }
    assert NoneCarried(p.dns, families) ==> servers == [] by {
      if servers != [] { assert UsesAddress(servers, servers[0].address.value); }
    }
    if servers == [] {
      assert forall a :: !UsesAddress(servers, a);
      servers := Cloudflare(families);
    }
  }

  /** 1.1.1.1 and 2606:4700:4700::1111, as far as they are carried, the IPv4 one first. */
  predicate PublicServers(servers: seq<DnsServer>, families: Families) {
    && servers != [] && |servers| <= 2
    && (families.ipv4 ==> servers[0].address == Some(Ip(V4, 0x0101_0101)))
    && (families.ipv6 ==>
          servers[|servers| - 1].address == Some(Ip(V6, 0x2606_4700_4700_0000_0000_0000_0000_1111)))
    && (|servers| == 2 <==> families.ipv4 && families.ipv6)
  }

  /** The first resolver of the profile that the tunnel carries. */
  predicate FirstCarried(dns: seq<Option<Ip>>, families: Families, i: nat)
    requires i < |dns|
  {
    && dns[i].Some? && families.Carries(dns[i].value.family)
    && forall j :: 0 <= j < i ==> dns[j].None? || !families.Carries(dns[j].value.family)
  }

  lemma {:induction false} FirstCarriedLeads(dns: seq<Option<Ip>>, families: Families, i: nat)
    requires i < |dns| && FirstCarried(dns, families, i)
    ensures var servers := ServersOf([], dns, families); servers != [] && servers[0].address == dns[i]
  {
    if i == 0 {
      assert !UsesAddress([], dns[0].value);
      var lead := [DnsServer(ProfileTag(0), dns[0], AWG_OUT)];
      assert [] + lead == lead;
      LeadStays(lead, dns[1..], families);
      assert ServersOf(lead, dns[1..], families)[0] == lead[0];
    } else {
      FirstCarriedLeads(dns[1..], families, i - 1);
    }
  }

  lemma {:induction false} LeadStays(acc: seq<DnsServer>, dns: seq<Option<Ip>>, families: Families)
    ensures acc <= ServersOf(acc, dns, families)
    decreases |dns|
  {
    if dns != [] {
      if dns[0].None? || !families.Carries(dns[0].value.family) || UsesAddress(acc, dns[0].value) {
        LeadStays(acc, dns[1..], families);
      } else {
        LeadStays(acc + [DnsServer(ProfileTag(|acc|), dns[0], AWG_OUT)], dns[1..], families);
      }
    }
  }

  method Cloudflare(families: Families) returns (servers: seq<DnsServer>)
    requires families.ipv4 || families.ipv6
    ensures VpnServers(servers, families) && PublicServers(servers, families)
  {
    servers := [];
    if families.ipv4 { servers := servers + [DnsServer("cloudflare-ipv4", Some(CLOUDFLARE_4), AWG_OUT)]; }
    if families.ipv6 { servers := servers + [DnsServer("cloudflare-ipv6", Some(CLOUDFLARE_6), AWG_OUT)]; }
    assert "cloudflare-ipv4"[14] != "cloudflare-ipv6"[14] && "cloudflare-ipv4"[0] != DIRECT_DNS[0];
    assert "cloudflare-ipv6"[0] != DIRECT_DNS[0];
  }

  method ProfileServers(dns: seq<Option<Ip>>, families: Families) returns (servers: seq<DnsServer>)
    ensures servers == ServersOf([], dns, families)
  {
    servers := [];
    var seen: set<Ip> := {};
    for i := 0 to |dns|
      invariant ServersOf(servers, dns[i..], families) == ServersOf([], dns, families)
      invariant forall a :: a in seen <==> UsesAddress(servers, a)
    {
      assert dns[i..][1..] == dns[i + 1..];
      if dns[i].Some? && families.Carries(dns[i].value.family) && dns[i].value !in seen {
        var server := DnsServer(ProfileTag(|servers|), dns[i], AWG_OUT);
        forall a ensures a in seen + {dns[i].value} <==> UsesAddress(servers + [server], a) {
          UsesSnoc(servers, server, a);
        }
        seen := seen + {dns[i].value};
        servers := servers + [server];
      }
    }
    assert dns[|dns|..] == [];
  }

  lemma NewTag(servers: seq<DnsServer>, n: nat)
    requires n >= |servers| && Tagged(servers)
    ensures ProfileTag(n) != DIRECT_DNS
    ensures forall k :: 0 <= k < |servers| ==> servers[k].tag != ProfileTag(n)
  {
    assert ProfileTag(n)[0] == 'p';
    forall k | 0 <= k < |servers| ensures servers[k].tag != ProfileTag(n) {
      if ProfileTag(k) == ProfileTag(n) {
        assert ProfileTag(k)[12..] == Decimal(k) && ProfileTag(n)[12..] == Decimal(n);
        DecimalInjective(k, n);
      }
    }
  }

  // ---------------------------------------------------------------- DNS rules

  function DnsRuleOf(r: Rule, vpn: bool, server: string, strategy: string): seq<DnsRule> {
    if r.domains == [] then []
    else [DnsRule(r.domains, r.suffixes,
                  if vpn then server else DIRECT_DNS,
                  if vpn then strategy else "prefer_ipv4")]
  }

  function CustomDnsRule(r: CustomRule, server: string, strategy: string): seq<DnsRule> {
    if r.enabled && r.value.Domain? then DnsRuleOf(CustomRuleObject(r), r.target == Vpn, server, strategy) else []
  }

  function CustomDnsRules(rules: seq<CustomRule>, server: string, strategy: string): seq<DnsRule> {
    if rules == [] then []
    else CustomDnsRule(rules[0], server, strategy) + CustomDnsRules(rules[1..], server, strategy)
  }

  function RuleDnsRules(rules: seq<Rule>, server: string, strategy: string): seq<DnsRule> {
    if rules == [] then []
    else DnsRuleOf(rules[0], rules[0].action == Route(AWG_OUT), server, strategy)
         + RuleDnsRules(rules[1..], server, strategy)
  }

  function PolicyDnsRules(s: Settings, regional: seq<Service>, server: string, strategy: string): seq<DnsRule> {
    CustomDnsRules(s.customRules, server, strategy)
    + RuleDnsRules(RegionalRuleObjects(s, regional), server, strategy)
  }

  method BuildDnsRules(s: Settings, regional: seq<Service>, server: string, strategy: string)
    returns (rules: seq<DnsRule>)
    ensures rules == PolicyDnsRules(s, regional, server, strategy)
  {
    var custom := BuildCustomDnsRules(s.customRules, server, strategy);
    var compiled := BuildRegionalRules(s, regional);
    var derived := BuildRuleDnsRules(compiled, server, strategy);
    rules := custom + derived;
  }

  lemma CustomDnsStep(done: seq<DnsRule>, custom: seq<CustomRule>, i: nat, server: string, strategy: string)
    requires i < |custom|
    ensures done + CustomDnsRules(custom[i..], server, strategy)
         == done + CustomDnsRule(custom[i], server, strategy) + CustomDnsRules(custom[i + 1..], server, strategy)
  {
    var rest := custom[i..];
    assert rest[1..] == custom[i + 1..] && rest[0] == custom[i];
    Reassociate(done, CustomDnsRule(rest[0], server, strategy), CustomDnsRules(rest[1..], server, strategy));
  }

  method BuildCustomDnsRules(custom: seq<CustomRule>, server: string, strategy: string) returns (rules: seq<DnsRule>)
    ensures rules == CustomDnsRules(custom, server, strategy)
  {
    rules := [];
    for i := 0 to |custom|
      invariant rules + CustomDnsRules(custom[i..], server, strategy) == CustomDnsRules(custom, server, strategy)
    {
      CustomDnsStep(rules, custom, i, server, strategy);
      rules := rules + CustomDnsRule(custom[i], server, strategy);
    }
    assert rules + [] == rules;
  }

  lemma RuleDnsStep(done: seq<DnsRule>, compiled: seq<Rule>, i: nat, server: string, strategy: string)
    requires i < |compiled|
    ensures done + RuleDnsRules(compiled[i..], server, strategy)
         == done + DnsRuleOf(compiled[i], compiled[i].action == Route(AWG_OUT), server, strategy)
            + RuleDnsRules(compiled[i + 1..], server, strategy)
  {
    var rest := compiled[i..];
    assert rest[1..] == compiled[i + 1..] && rest[0] == compiled[i];
    Reassociate(done, DnsRuleOf(rest[0], rest[0].action == Route(AWG_OUT), server, strategy),
                RuleDnsRules(rest[1..], server, strategy));
  }

  method BuildRuleDnsRules(compiled: seq<Rule>, server: string, strategy: string) returns (rules: seq<DnsRule>)
    ensures rules == RuleDnsRules(compiled, server, strategy)
  {
    rules := [];
    for i := 0 to |compiled|
      invariant rules + RuleDnsRules(compiled[i..], server, strategy) == RuleDnsRules(compiled, server, strategy)
    {
      RuleDnsStep(rules, compiled, i, server, strategy);
      rules := rules + DnsRuleOf(compiled[i], compiled[i].action == Route(AWG_OUT), server, strategy);
    }
    assert rules + [] == rules;
  }

  // -------------------------------------------------------------- BuildConfig

  const PRESET_HOSTS := ["raw.githubusercontent.com", "github.com"]

  function Preamble(): seq<Rule> {
    [ANY, ANY.(dnsOnly := true, action := HijackDns)]
  }

  function LanRules(): seq<Rule> {
    [ANY.(cidrs := LOCAL_CIDRS, action := Route(DIRECT_OUT))]
  }

  function FamilyGuards(families: Families): seq<Rule> {
    (if !families.ipv4 then [ANY.(ipVersion := Some(V4), action := Reject)] else [])
    + (if !families.ipv6 then [ANY.(ipVersion := Some(V6), action := Reject)] else [])
  }

  function ModeRules(s: Settings, cats: Catalogs, families: Families): seq<Rule> {
    if s.mode == MODE_SELECTED then
      ServiceRuleObjects(SelectedServices(cats.services, s.selectedApps), AWG_OUT)
      + [ANY.(domains := PRESET_HOSTS, action := Route(AWG_OUT))]
    else FamilyGuards(families)
  }

  function RouteRules(s: Settings, cats: Catalogs, families: Families): seq<Rule> {
    Preamble() + CustomRuleObjects(s.customRules) + RegionalRuleObjects(s, cats.regional)
    + LanRules() + ModeRules(s, cats, families)
  }

  function FinalOutbound(s: Settings): string {
    if s.mode == MODE_SELECTED then DIRECT_OUT else AWG_OUT
  }

  datatype Config = Config(
    servers: seq<DnsServer>,
    dnsRules: seq<DnsRule>,
    dnsFinal: string,
    dnsStrategy: string,
    fallbackResolver: Option<string>,
    inbounds: seq<string>,
    rules: seq<Rule>,
    final: string)

  datatype BuildError = BadProfile | NoAddress | NoPeer | NoEndpoint | NoDefaultRoute

  datatype BuildResult = Built(config: Config) | Failed(error: BuildError)

  predicate Endpoints(p: Profile) {
    forall i :: 0 <= i < |p.peers| ==> p.peers[i].hasEndpoint
  }

  predicate Buildable(p: Profile) {
    && p.awgValid && p.addresses != [] && p.peers != [] && Endpoints(p)
    && var f := ProfileFamilies(p); f.ipv4 || f.ipv6
  }

  predicate TagDefined(config: Config, tag: string) {
    exists i :: 0 <= i < |config.servers| && config.servers[i].tag == tag
  }

  /** Everything the configuration names, it also defines. */
  predicate ReferenceIntegrity(config: Config) {
    && (forall i, j :: 0 <= i < j < |config.servers| ==> config.servers[i].tag != config.servers[j].tag)
    && TagDefined(config, config.dnsFinal)
    && TagDefined(config, DIRECT_DNS)
    && (config.fallbackResolver.Some? ==> TagDefined(config, config.fallbackResolver.value))
    && (forall i :: 0 <= i < |config.dnsRules| ==> TagDefined(config, config.dnsRules[i].server))
  }

  /** Queries through the tunnel ask only for families it carries; queries outside it prefer IPv4. */
  predicate StrategiesFit(config: Config, families: Families) {
    && (config.dnsStrategy == "ipv4_only" <==> !families.ipv6)
    && (config.dnsStrategy == "ipv6_only" <==> !families.ipv4)
    && (families.ipv4 && families.ipv6 ==> config.dnsStrategy == "prefer_ipv4")
    && forall d :: d in config.dnsRules ==>
         d.strategy == if d.server == "direct-dns" then "prefer_ipv4" else config.dnsStrategy
  }

  /** Normalised settings in; the compiled policy, with every reference resolved, out. */
  method BuildConfig(p: Profile, s: Settings, cats: Catalogs) returns (r: BuildResult)
    ensures r.Built? <==> Buildable(p)
    ensures r.Built? ==>
              && r.config.rules == RouteRules(s, cats, ProfileFamilies(p))
              && r.config.final == FinalOutbound(s)
              && r.config.dnsStrategy == DnsStrategy(ProfileFamilies(p))
              && r.config.dnsRules == PolicyDnsRules(s, cats.regional, r.config.dnsFinal, r.config.dnsStrategy)
              && r.config.dnsFinal != DIRECT_DNS
              && r.config.servers != [] && r.config.dnsFinal == r.config.servers[0].tag
              && r.config.inbounds == ["tun-in"]
    ensures r.Built? ==> StrategiesFit(r.config, ProfileFamilies(p))
    ensures r.Built? ==> r.config.servers[|r.config.servers| - 1] == DnsServer("direct-dns", None, "direct")
    ensures r.Built? ==> forall i :: 0 <= i < |p.dns| && FirstCarried(p.dns, ProfileFamilies(p), i) ==>
              r.config.servers[0].address == p.dns[i]
    ensures r.Built? ==> ReferenceIntegrity(r.config)
    ensures r.Built? ==> forall i :: 0 <= i < |r.config.servers| && r.config.servers[i].detour == AWG_OUT ==>
              && r.config.servers[i].address.Some?
              && ProfileFamilies(p).Carries(r.config.servers[i].address.value.family)
    ensures r.Built? ==> (r.config.fallbackResolver.Some? <==> ProfileFamilies(p).ipv4)
    ensures r == Failed(BadProfile) <==> !p.awgValid
    ensures r == Failed(NoAddress) <==> p.awgValid && p.addresses == []
    ensures r == Failed(NoPeer) <==> p.awgValid && p.addresses != [] && p.peers == []
    ensures r.Failed? && r.error == NoDefaultRoute ==>
              !ProfileFamilies(p).ipv4 && !ProfileFamilies(p).ipv6 && p.awgValid && Endpoints(p)
  {
    var refused := CheckEndpoint(p);
    if refused.Some? { return Failed(refused.value); }
    var families := DetectProfileFamilies(p);
    if !families.ipv4 && !families.ipv6 { return Failed(NoDefaultRoute); }
    var servers := DnsServers(p, families);
    var finalDns := servers[0].tag;
    var fallback: Option<string> := None;
    if families.ipv4 {
      var tag := FallbackResolver(servers);
      fallback := Some(tag);
    }
    var strategy := DnsStrategy(families);
    var dnsRules := BuildDnsRules(s, cats.regional, finalDns, strategy);
    var rules := BuildRoute(s, cats, families);
    var all := servers + [DnsServer(DIRECT_DNS, None, DIRECT_OUT)];
    r := Built(Config(all, dnsRules, finalDns, strategy, fallback, ["tun-in"], rules, FinalOutbound(s)));
    DnsRuleTargets(s, cats.regional, finalDns, strategy);
    ReferencesResolve(r.config, servers, families);
  }

  method CheckEndpoint(p: Profile) returns (refused: Option<BuildError>)
    ensures refused.None? <==> p.awgValid && p.addresses != [] && p.peers != [] && Endpoints(p)
    ensures refused == Some(BadProfile) <==> !p.awgValid
    ensures refused == Some(NoAddress) <==> p.awgValid && p.addresses == []
    ensures refused == Some(NoPeer) <==> p.awgValid && p.addresses != [] && p.peers == []
    ensures refused != Some(NoDefaultRoute)
  {
    if !p.awgValid { return Some(BadProfile); }
    if p.addresses == [] { return Some(NoAddress); }
    if p.peers == [] { return Some(NoPeer); }
    for i := 0 to |p.peers|
      invariant forall k :: 0 <= k < i ==> p.peers[k].hasEndpoint
    {
      if !p.peers[i].hasEndpoint { return Some(NoEndpoint); }
    }
    refused := None;
  }

  lemma ReferencesResolve(config: Config, vpn: seq<DnsServer>, families: Families)
    requires vpn != [] && VpnServers(vpn, families)
    requires config.servers == vpn + [DnsServer(DIRECT_DNS, None, DIRECT_OUT)]
    requires config.dnsFinal == vpn[0].tag
    requires config.fallbackResolver.Some? ==> exists i :: 0 <= i < |vpn| && vpn[i].tag == config.fallbackResolver.value
    requires forall d :: d in config.dnsRules ==> d.server == config.dnsFinal || d.server == DIRECT_DNS
    ensures ReferenceIntegrity(config)
  {
    assert config.servers[0].tag == config.dnsFinal && config.servers[|vpn|].tag == DIRECT_DNS;
    if config.fallbackResolver.Some? {
      var i :| 0 <= i < |vpn| && vpn[i].tag == config.fallbackResolver.value;
      assert config.servers[i].tag == config.fallbackResolver.value;
    }
  }

  predicate FirstV4(servers: seq<DnsServer>, i: nat)
    requires i < |servers|
  {
    && servers[i].address.Some? && servers[i].address.value.family == V4
    && forall j :: 0 <= j < i ==> servers[j].address.None? || servers[j].address.value.family == V6
  }

  /** The resolver for the IPv4 retry: the first IPv4 server, else the default one. */
  method FallbackResolver(servers: seq<DnsServer>) returns (tag: string)
    requires servers != []
    ensures exists i :: 0 <= i < |servers| && servers[i].tag == tag
    ensures forall i :: 0 <= i < |servers| && FirstV4(servers, i) ==> tag == servers[i].tag
    ensures (forall i :: 0 <= i < |servers| ==> !FirstV4(servers, i)) ==> tag == servers[0].tag
  {
    tag := servers[0].tag;
    for i := 0 to |servers|
      invariant tag == servers[0].tag
      invariant forall k :: 0 <= k < i ==> !(servers[k].address.Some? && servers[k].address.value.family == V4)
    {
      if servers[i].address.Some? && servers[i].address.value.family == V4 {
        assert FirstV4(servers, i);
        return servers[i].tag;
      }
    }
  }

  method BuildRoute(s: Settings, cats: Catalogs, families: Families) returns (rules: seq<Rule>)
    ensures rules == RouteRules(s, cats, families)
  {
    var custom := BuildCustomRules(s.customRules);
    var regional := BuildRegionalRules(s, cats.regional);
    var tail := BuildModeRules(s, cats, families);
    rules := Preamble() + custom + regional + LanRules() + tail;
  }

  method BuildCustomRules(custom: seq<CustomRule>) returns (rules: seq<Rule>)
    ensures rules == CustomRuleObjects(custom)
  {
    rules := [];
    for i := 0 to |custom|
      invariant rules + CustomRuleObjects(custom[i..]) == CustomRuleObjects(custom)
    {
      assert custom[i..][1..] == custom[i + 1..];
      if custom[i].enabled {
        rules := rules + [CustomRuleObject(custom[i])];
      }
    }
    assert custom[|custom|..] == [];
  }

  method BuildModeRules(s: Settings, cats: Catalogs, families: Families) returns (rules: seq<Rule>)
    ensures rules == ModeRules(s, cats, families)
  {
    if s.mode == MODE_SELECTED {
      var selected := SelectServices(cats.services, s.selectedApps);
      rules := BuildServiceRules(selected, AWG_OUT);
      rules := rules + [ANY.(domains := PRESET_HOSTS, action := Route(AWG_OUT))];
    } else {
      rules := [];
      if !families.ipv4 { rules := rules + [ANY.(ipVersion := Some(V4), action := Reject)]; }
      if !families.ipv6 { rules := rules + [ANY.(ipVersion := Some(V6), action := Reject)]; }
    }
  }

  method SelectServices(services: seq<Service>, ids: seq<string>) returns (selected: seq<Service>)
    ensures selected == SelectedServices(services, ids)
  {
    selected := [];
    var wanted := set id | id in ids;
    for i := 0 to |services|
      invariant selected + SelectedServices(services[i..], ids) == SelectedServices(services, ids)
    {
      if services[i].id in wanted {
        selected := selected + [services[i]];
      }
      assert services[i..][1..] == services[i + 1..];
    }
    assert services[|services|..] == [];
  }

  predicate FitsTarget(d: DnsRule, server: string, strategy: string) {
    if d.server == DIRECT_DNS then d.strategy == "prefer_ipv4" else d.server == server && d.strategy == strategy
  }

  lemma {:induction false} CustomDnsTargets(rules: seq<CustomRule>, server: string, strategy: string)
    requires server != DIRECT_DNS
    ensures forall d :: d in CustomDnsRules(rules, server, strategy) ==> FitsTarget(d, server, strategy)
  {
    if rules != [] { CustomDnsTargets(rules[1..], server, strategy); }
  }

  lemma {:induction false} RuleDnsTargets(rules: seq<Rule>, server: string, strategy: string)
    requires server != DIRECT_DNS
    ensures forall d :: d in RuleDnsRules(rules, server, strategy) ==> FitsTarget(d, server, strategy)
  {
    if rules != [] { RuleDnsTargets(rules[1..], server, strategy); }
  }

  lemma DnsRuleTargets(s: Settings, regional: seq<Service>, server: string, strategy: string)
    requires server != DIRECT_DNS
    ensures forall d :: d in PolicyDnsRules(s, regional, server, strategy) ==> FitsTarget(d, server, strategy)
  {
    CustomDnsTargets(s.customRules, server, strategy);
    RuleDnsTargets(RegionalRuleObjects(s, regional), server, strategy);
  }

  // ---------------------------------------------------------- the diagnostic

  const PROBE_RULE := ANY.(inbounds := [PROBE_INBOUND], action := Route(AWG_OUT))

  datatype ProbeResult = Rewritten(config: Config) | InvalidListener

  /** Adds the probe's own inbound; its traffic goes to the tunnel and nobody else's verdict moves. */
  method AddDiagnosticInbound(config: Config, port: int, password: string) returns (r: ProbeResult)
    ensures r.Rewritten? <==> 1 <= port <= 65535 && |password| >= 32
    ensures r.Rewritten? ==> forall c: Connection ::
              Verdict(r.config.rules, r.config.final, c)
              == if c.inbound == PROBE_INBOUND then Route(AWG_OUT) else Verdict(config.rules, config.final, c)
    ensures r.Rewritten? ==> r.config == config.(inbounds := config.inbounds + [PROBE_INBOUND], rules := r.config.rules)
  {
    if port < 1 || port > 65535 || |password| < 32 { return InvalidListener; }
    var rules := [PROBE_RULE] + config.rules;
    assert rules[1..] == config.rules;
    r := Rewritten(config.(inbounds := config.inbounds + [PROBE_INBOUND], rules := rules));
  }
}
