/**
 The dashboard's decision to disconnect instead of applying settings that tunnel
 nothing, client/ui/dashboard.go:646-660 and 842-867: what it relies on, that
 nothing is lost by it, and exactly when it is not taken although nothing would be.
 */
module Disconnect {
  import opened Options
  import opened Addresses
  import opened Text
  import opened Policy
  import opened Compiler
  import opened Explain
  import opened PolicyTheorems
  import opened PolicyGuarantees
  import N = SettingsNormal

  predicate RegionalGroupOn(s: Settings) {
    ServiceUsesVpn(s, VK_SERVICE_ID) || ServiceUsesVpn(s, RUSSIAN_SERVICE_ID)
  }

  predicate HasVpnRule(rules: seq<CustomRule>) {
    exists i :: 0 <= i < |rules| && rules[i].enabled && rules[i].target == Vpn
  }

  predicate HasSelectedVpnRoute(s: Settings) {
    || s.selectedApps != []
    || (s.mode == MODE_SELECTED && RegionalGroupOn(s))
    || HasVpnRule(s.customRules)
  }

  predicate ShouldDisconnect(s: Settings) {
    NormalizeMode(s.mode) == MODE_SELECTED && !HasSelectedVpnRoute(s)
  }

  lemma {:induction false} NothingSelected(services: seq<Service>)
    ensures SelectedServices(services, []) == []
  {
    if services != [] { NothingSelected(services[1..]); }
  }

  /** Disconnecting loses nothing: only the two preset-update hosts would have used the tunnel. */
  lemma DisconnectLosesNothing(s: Settings, cats: Catalogs, families: Families, c: Connection)
    requires NormalSettings(s) && WellFormed(cats) && !c.dns && ShouldDisconnect(s)
    ensures RouteOf(s, cats, families, c) == Route(AWG_OUT) ==> c.domain in PRESET_HOSTS
    ensures RouteOf(s, cats, families, c) != Reject
  {
    NormalModes();
    CompilerAgreesWithInterpreter(s, cats, families, c);
    NoVpnHit(s, cats, c);
  }

  lemma NoVpnHit(s: Settings, cats: Catalogs, c: Connection)
    requires WellFormed(cats) && s.mode == MODE_SELECTED && !HasSelectedVpnRoute(s)
    ensures HitsOf(s, cats, c) != [] && HitsOf(s, cats, c)[0].target == Vpn ==> c.domain in PRESET_HOSTS
  {
    NothingSelected(cats.services);
    CustomHitOrigin(s.customRules, c);
    UniformGroups(s, cats, c, Direct);
    var ch, rh := CustomHits(s.customRules, c.process, c.domain, c.ip),
                  RegionalHits(s, cats.regional, c.process, c.domain);
    assert HitsOf(s, cats, c) == ch + rh + LanHits(c.ip) + UpdateHits(c.domain);
  }

  /** The decision is made on settings that `Normalized` accepted, whatever they looked like before. */
  method DisconnectDecision(raw: Settings, appsNil: bool, catalog: Option<seq<Service>>, defaults: seq<string>,
                            normRule: CustomRule -> Option<CustomRule>, validName: string -> bool)
    returns (r: N.Result, disconnect: bool)
    requires forall x :: normRule(x).Some? ==> NormalRule(normRule(x).value)
    ensures disconnect ==> r.Normal?
    ensures disconnect ==> forall cats: Catalogs, families: Families, c: Connection | WellFormed(cats) && !c.dns ::
              RouteOf(r.settings, cats, families, c) == Route(AWG_OUT) ==> c.domain in PRESET_HOSTS
    ensures r.Normal? ==> (disconnect <==> ShouldDisconnect(r.settings))
  {
    r := N.Normalized(raw, appsNil, catalog, defaults, normRule, validName);
    disconnect := r.Normal? && ShouldDisconnect(r.settings);
    if disconnect {
      forall cats: Catalogs, families: Families, c: Connection
        | WellFormed(cats) && !c.dns && RouteOf(r.settings, cats, families, c) == Route(AWG_OUT)
        ensures c.domain in PRESET_HOSTS
      {
        DisconnectLosesNothing(r.settings, cats, families, c);
      }
    }
  }

  // ------------------------------------------- the decision is also necessary

  /** A length no domain of the custom rules has. */
  function Beyond(rules: seq<CustomRule>): nat {
    if rules == [] then 1
    else
      var rest := Beyond(rules[1..]);
      if rules[0].value.Domain? && |rules[0].value.domain| >= rest then |rules[0].value.domain| + 1 else rest
  }

  lemma {:induction false} BeyondAll(rules: seq<CustomRule>)
    ensures Beyond(rules) >= 1
    ensures forall i :: 0 <= i < |rules| && rules[i].value.Domain? ==> |rules[i].value.domain| < Beyond(rules)
  {
    if rules != [] {
      BeyondAll(rules[1..]);
      forall i | 0 <= i < |rules| && rules[i].value.Domain? ensures |rules[i].value.domain| < Beyond(rules) {
        if i > 0 { assert rules[1..][i - 1] == rules[i]; }
      }
    }
  }

  /** One label, longer than anything the rules name. */
  function FreshDomain(n: nat): string {
    seq(n, _ => 'q')
  }

  function ToDomain(domain: string): Connection {
    Connection("tun-in", false, "", domain, None)
  }

  lemma FreshDomainIsNew(n: nat)
    requires n >= 1
    ensures NormalDomain(FreshDomain(n)) && FreshDomain(n) !in PRESET_HOSTS
  {
    var d := FreshDomain(n);
    assert Lower(d) == d;
    assert d[0] == 'q' && PRESET_HOSTS[0][0] == 'r' && PRESET_HOSTS[1][0] == 'g';
  }

  lemma FreshDomainUnmatched(r: CustomRule, n: nat)
    requires NormalRule(r) && n >= 1 && (r.value.Domain? ==> |r.value.domain| < n)
    ensures !CustomMatches(r, "", FreshDomain(n), None)
  {
    var d := FreshDomain(n);
    match r.value
    case Application(name) => CustomAgrees(r, ToDomain(d));
    case Domain(v) =>
      RootOfDomain(v);
      if HasSuffix(d, "." + v) {
        assert d[|d| - |"." + v|] == ("." + v)[0];
      }
    case Cidr(_) =>
  }

  lemma {:induction false} NoCustomHit(rules: seq<CustomRule>, n: nat)
    requires n >= 1 && forall r :: r in rules ==> NormalRule(r) && (r.value.Domain? ==> |r.value.domain| < n)
    ensures CustomHits(rules, "", FreshDomain(n), None) == []
  {
    if rules != [] {
      FreshDomainUnmatched(rules[0], n);
      NoCustomHit(rules[1..], n);
    }
  }

  /** A domain that only one group, or only one selected service, lists goes where that sends it. */
  lemma OnlyHit(s: Settings, cats: Catalogs, families: Families, v: Service, d: string)
    requires NormalSettings(s) && s.mode == MODE_SELECTED && WellFormed(cats)
    requires CustomHits(s.customRules, "", d, None) == [] && v.domains == [d]
    requires (cats == Catalogs([v], []) && ServiceUsesVpn(s, v.id))
             || (cats == Catalogs([], [v]) && v.id in s.selectedApps)
    ensures RouteOf(s, cats, families, ToDomain(d)) == Route(AWG_OUT)
  {
    var c := ToDomain(d);
    CompilerAgreesWithInterpreter(s, cats, families, c);
    assert ServiceMatches(v, c.process, c.domain);
    if cats.regional == [v] {
      assert RegionalHits(s, [v], "", d)[0].target == Vpn;
      assert HitsOf(s, cats, c)[0] == RegionalHits(s, [v], "", d)[0];
    } else {
      assert SelectedServices([v], s.selectedApps) == [v];
      assert HitsOf(s, cats, c) == ServiceHits([v], "", d) + UpdateHits(d);
      assert ServiceHits([v], "", d)[0].target == Vpn;
    }
  }

  ghost predicate TunnelsNothing(s: Settings) {
    forall cats: Catalogs, families: Families, c: Connection ::
      WellFormed(cats) && !c.dns && RouteOf(s, cats, families, c) == Route(AWG_OUT) ==> c.domain in PRESET_HOSTS
  }

  lemma FreshDomainUnlisted(s: Settings)
    requires NormalSettings(s)
    ensures var d := FreshDomain(Beyond(s.customRules));
            NormalDomain(d) && d !in PRESET_HOSTS && CustomHits(s.customRules, "", d, None) == []
  {
    var n := Beyond(s.customRules);
    BeyondAll(s.customRules);
    FreshDomainIsNew(n);
    forall r | r in s.customRules ensures NormalRule(r) && (r.value.Domain? ==> |r.value.domain| < n) {
      var i :| 0 <= i < |s.customRules| && s.customRules[i] == r;
    }
    NoCustomHit(s.customRules, n);
  }

  /** One catalog that lists the fresh domain for a group or service that is on suffices. */
  lemma TunnelsFreshDomain(s: Settings, cats: Catalogs, v: Service)
    requires NormalSettings(s) && s.mode == MODE_SELECTED && v == Listing(v.id, FreshDomain(Beyond(s.customRules)))
    requires (cats == Catalogs([v], []) && IsRegional(v.id) && ServiceUsesVpn(s, v.id))
             || (cats == Catalogs([], [v]) && v.id in s.selectedApps)
    ensures !TunnelsNothing(s)
  {
    var d := FreshDomain(Beyond(s.customRules));
    FreshDomainUnlisted(s);
    OnlyHit(s, cats, Families(true, true), v, d);
    assert RouteOf(s, cats, Families(true, true), ToDomain(d)) == Route(AWG_OUT) && ToDomain(d).domain == d;
  }

  lemma StaysForAReason(s: Settings)
    requires NormalSettings(s) && s.mode == MODE_SELECTED && (s.selectedApps != [] || RegionalGroupOn(s))
    ensures !TunnelsNothing(s)
  {
    var d := FreshDomain(Beyond(s.customRules));
    if s.selectedApps != [] {
      var v := Listing(s.selectedApps[0], d);
      TunnelsFreshDomain(s, Catalogs([], [v]), v);
    } else {
      var v := Listing(if ServiceUsesVpn(s, VK_SERVICE_ID) then VK_SERVICE_ID else RUSSIAN_SERVICE_ID, d);
      TunnelsFreshDomain(s, Catalogs([v], []), v);
    }
  }

  /** A catalog entry for one domain. */
  function Listing(id: string, domain: string): (v: Service)
    ensures NormalDomain(domain) ==> WellFormedService(v)
  {
    Service(id, "", [], [domain], [])
  }

  // -------------------------------------------------- rules of the user's own

  ghost predicate Captures(rules: seq<CustomRule>, process: string, domain: string, ip: Option<Ip>) {
    var hits := CustomHits(rules, process, domain, ip);
    hits != [] && hits[0].target == Vpn && domain !in PRESET_HOSTS
  }

  /** Some tunnel rule is the first to match something: it is not shadowed by the rules before it. */
  ghost predicate RuleTunnels(rules: seq<CustomRule>) {
    exists process, domain, ip :: Captures(rules, process, domain, ip)
  }

  /** The settings for which the dashboard keeps a tunnel that nothing uses. */
  ghost predicate OnlyShadowed(s: Settings) {
    && s.mode == MODE_SELECTED && s.selectedApps == [] && !RegionalGroupOn(s)
    && HasVpnRule(s.customRules) && !RuleTunnels(s.customRules)
  }

  /** Something is tunnelled exactly when a service is selected, a group is on or a tunnel rule is not shadowed. */
  lemma TunnelsNothingExactly(s: Settings)
    requires NormalSettings(s)
    ensures TunnelsNothing(s) <==>
            s.mode == MODE_SELECTED && s.selectedApps == [] && !RegionalGroupOn(s) && !RuleTunnels(s.customRules)
  {
    if s.mode == MODE_ALL {
      DefaultTunnels(s);
    } else if s.selectedApps != [] || RegionalGroupOn(s) {
      StaysForAReason(s);
    } else if RuleTunnels(s.customRules) {
      var process, domain, ip :| Captures(s.customRules, process, domain, ip);
      CapturedIsTunnelled(s, process, domain, ip);
    } else {
      forall cats: Catalogs, families: Families, c: Connection
        | WellFormed(cats) && !c.dns && RouteOf(s, cats, families, c) == Route(AWG_OUT)
        ensures c.domain in PRESET_HOSTS
      {
        CompilerAgreesWithInterpreter(s, cats, families, c);
        NormalModes();
        ShadowedHits(s, cats, c);
      }
    }
  }

  lemma DefaultTunnels(s: Settings)
    requires NormalSettings(s) && s.mode == MODE_ALL
    ensures !TunnelsNothing(s)
  {
    var c, cats, families := ToDomain(FreshDomain(Beyond(s.customRules))), Catalogs([], []), Families(true, true);
    FreshDomainUnlisted(s);
    CompilerAgreesWithInterpreter(s, cats, families, c);
    assert HitsOf(s, cats, c) == [];
    assert RouteOf(s, cats, families, c) == Route(AWG_OUT);
  }

  lemma CapturedIsTunnelled(s: Settings, process: string, domain: string, ip: Option<Ip>)
    requires NormalSettings(s) && Captures(s.customRules, process, domain, ip)
    ensures !TunnelsNothing(s)
  {
    var c, cats, families := Connection("tun-in", false, process, domain, ip), Catalogs([], []), Families(true, true);
    CompilerAgreesWithInterpreter(s, cats, families, c);
    assert HitsOf(s, cats, c)[0] == CustomHits(s.customRules, process, domain, ip)[0];
    assert RouteOf(s, cats, families, c) == Route(AWG_OUT);
  }

  lemma ShadowedHits(s: Settings, cats: Catalogs, c: Connection)
    requires WellFormed(cats) && s.mode == MODE_SELECTED && s.selectedApps == [] && !RegionalGroupOn(s)
    requires !RuleTunnels(s.customRules)
    ensures HitsOf(s, cats, c) != [] && HitsOf(s, cats, c)[0].target == Vpn ==> c.domain in PRESET_HOSTS
  {
    NothingSelected(cats.services);
    UniformGroups(s, cats, c, Direct);
    assert !Captures(s.customRules, c.process, c.domain, c.ip);
    var ch, rh := CustomHits(s.customRules, c.process, c.domain, c.ip),
                  RegionalHits(s, cats.regional, c.process, c.domain);
    assert HitsOf(s, cats, c) == ch + rh + LanHits(c.ip) + UpdateHits(c.domain);
  }

  /**
   The dashboard disconnects exactly when the policy tunnels nothing but the preset
   hosts, whatever the catalogs list, unless all that is left is shadowed tunnel rules.
   */
  lemma DisconnectExactly(s: Settings)
    requires NormalSettings(s)
    ensures (ShouldDisconnect(s) <==> TunnelsNothing(s)) <==> !OnlyShadowed(s)
  {
    NormalModes();
    TunnelsNothingExactly(s);
    if !HasVpnRule(s.customRules) { NoVpnRule(s.customRules); }
  }

  lemma NoVpnRule(rules: seq<CustomRule>)
    requires !HasVpnRule(rules)
    ensures !RuleTunnels(rules)
  {
    forall process, domain, ip ensures !Captures(rules, process, domain, ip) {
      CustomHitOrigin(rules, Connection("tun-in", false, process, domain, ip));
    }
  }

  /** A tunnel rule ahead of all other enabled ones is never shadowed. */
  lemma {:induction false} FirstRuleTunnels(rules: seq<CustomRule>, k: nat)
    requires k < |rules| && NormalRule(rules[k]) && rules[k].enabled && rules[k].target == Vpn
    requires forall i :: 0 <= i < k ==> !rules[i].enabled
    ensures RuleTunnels(rules)
  {
    var process, domain, ip := MatchedBy(rules[k]);
    LeadingHit(rules, k, process, domain, ip);
    assert Captures(rules, process, domain, ip);
  }

  lemma {:induction false} LeadingHit(rules: seq<CustomRule>, k: nat, process: string, domain: string, ip: Option<Ip>)
    requires k < |rules| && CustomMatches(rules[k], process, domain, ip)
    requires forall i :: 0 <= i < k ==> !rules[i].enabled
    ensures CustomHits(rules, process, domain, ip) != []
    ensures CustomHits(rules, process, domain, ip)[0].target == rules[k].target
  {
    if k > 0 {
      assert !CustomMatches(rules[0], process, domain, ip);
      LeadingHit(rules[1..], k - 1, process, domain, ip);
    }
  }

  /** Every rule matches something that is not a preset host. */
  lemma MatchedBy(r: CustomRule) returns (process: string, domain: string, ip: Option<Ip>)
    requires NormalRule(r) && r.enabled
    ensures CustomMatches(r, process, domain, ip) && domain !in PRESET_HOSTS
  {
    process, domain, ip := "", "", None;
    match r.value
    case Application(n) =>
      process := n;
      if !IsPath(n) { WholeName(n); }
    case Domain(d) =>
      domain := "q." + d;
      RootOfDomain(d);
      assert domain[1..] == "." + d && domain[|domain| - |"." + d|..] == "." + d;
      assert domain[0] == 'q' && PRESET_HOSTS[0][0] == 'r' && PRESET_HOSTS[1][0] == 'g';
    case Cidr(p) =>
      ip := Some(Ip(p.family, p.addr));
  }

  /** The failing settings: a direct rule ahead of a tunnel rule for the same thing, and nothing else. */
  lemma ShadowedRuleKeepsTunnel(s: Settings, direct: CustomRule, tunnel: CustomRule)
    requires NormalSettings(s) && s.mode == MODE_SELECTED && s.selectedApps == [] && !RegionalGroupOn(s)
    requires s.customRules == [direct, tunnel] && direct.value == tunnel.value
    requires direct.enabled && direct.target == Direct && tunnel.enabled && tunnel.target == Vpn
    ensures !ShouldDisconnect(s) && TunnelsNothing(s)
  {
    forall process, domain, ip ensures !Captures(s.customRules, process, domain, ip) {
      assert CustomMatches(direct, process, domain, ip) <==> CustomMatches(tunnel, process, domain, ip);
      assert s.customRules[1..] == [tunnel] && [tunnel][1..] == [];
      assert CustomHits([tunnel], process, domain, ip) == CustomHit(tunnel, process, domain, ip) + [];
      assert CustomHits(s.customRules, process, domain, ip)
             == CustomHit(direct, process, domain, ip) + CustomHits([tunnel], process, domain, ip);
    }
    assert s.customRules[1] == tunnel;
    NormalModes();
    TunnelsNothingExactly(s);
  }
}
