/**
 Consequences of the compiled policy: full-tunnel soundness, agreement of the
 DNS list with the route list, and what the two shortcuts around the compiler
 (`usesNativeTunnel`, `shouldDisconnectForRoutingSettings`) may assume.
 */
module PolicyGuarantees {
  import opened Options
  import opened Addresses
  import opened Policy
  import opened Compiler
  import opened Explain
  import opened PolicyTheorems

  // ------------------------------------------------------- where hits come from

  predicate CustomReason(s: Settings, target: Target, c: Connection) {
    exists i :: 0 <= i < |s.customRules| && s.customRules[i].target == target && CustomRuleMatches(s.customRules, i, c)
  }

  predicate GroupReason(s: Settings, vs: seq<Service>, target: Target, c: Connection) {
    exists i :: 0 <= i < |vs| && ServiceTarget(s, vs[i]) == target && ServiceMatches(vs[i], c.process, c.domain)
  }

  predicate OnLan(c: Connection) {
    c.ip.Some? && AnyContains(LOCAL_CIDRS, c.ip.value)
  }

  predicate CustomRuleMatches(rules: seq<CustomRule>, i: nat, c: Connection)
    requires i < |rules|
  {
    CustomMatches(rules[i], c.process, c.domain, c.ip)
  }

  /** The first hit is the target of some rule that matches, and no hits means no rule does. */
  lemma {:induction false} CustomHitOrigin(rules: seq<CustomRule>, c: Connection)
    ensures var hits := CustomHits(rules, c.process, c.domain, c.ip);
            hits != [] ==> exists i ::
              0 <= i < |rules| && rules[i].target == hits[0].target && CustomRuleMatches(rules, i, c)
    ensures CustomHits(rules, c.process, c.domain, c.ip) == [] ==>
            forall i :: 0 <= i < |rules| ==> !CustomRuleMatches(rules, i, c)
  {
    if rules != [] {
      var rest := rules[1..];
      CustomHitOrigin(rest, c);
      if CustomRuleMatches(rules, 0, c) {
        assert CustomHits(rules, c.process, c.domain, c.ip)[0].target == rules[0].target;
      } else {
        assert CustomHits(rules, c.process, c.domain, c.ip) == CustomHits(rest, c.process, c.domain, c.ip);
        assert forall i :: 0 < i < |rules| ==> (CustomRuleMatches(rules, i, c) <==> CustomRuleMatches(rest, i - 1, c));
        if CustomHits(rest, c.process, c.domain, c.ip) != [] {
          var i :| 0 <= i < |rest| && rest[i].target == CustomHits(rest, c.process, c.domain, c.ip)[0].target
              && CustomRuleMatches(rest, i, c);
          assert CustomRuleMatches(rules, i + 1, c);
        }
      }
    }
  }

  lemma {:induction false} RegionalHitOrigin(s: Settings, vs: seq<Service>, c: Connection)
    ensures var hits := RegionalHits(s, vs, c.process, c.domain);
            hits != [] ==> GroupReason(s, vs, hits[0].target, c)
    ensures RegionalHits(s, vs, c.process, c.domain) == [] <==>
            forall i :: 0 <= i < |vs| ==> !ServiceMatches(vs[i], c.process, c.domain)
  {
    if vs != [] {
      RegionalHitOrigin(s, vs[1..], c);
      var rest := RegionalHits(s, vs[1..], c.process, c.domain);
      if !ServiceMatches(vs[0], c.process, c.domain) {
        assert RegionalHits(s, vs, c.process, c.domain) == rest;
        if rest != [] {
          var i :| 0 <= i < |vs[1..]| && ServiceTarget(s, vs[1..][i]) == rest[0].target
                   && ServiceMatches(vs[1..][i], c.process, c.domain);
          assert vs[i + 1] == vs[1..][i];
        } else {
          forall i | 0 <= i < |vs| ensures !ServiceMatches(vs[i], c.process, c.domain) {
            if i > 0 { assert vs[1..][i - 1] == vs[i]; }
          }
        }
      }
    }
  }

  // ------------------------------------------------------ full-tunnel soundness

  /** Nothing leaves a full tunnel directly but by an enabled direct rule, a switched-off group or the LAN. */
  lemma DirectNeedsAReason(s: Settings, cats: Catalogs, families: Families, c: Connection)
    requires NormalSettings(s) && WellFormed(cats) && !c.dns && s.mode == MODE_ALL
    requires RouteOf(s, cats, families, c) == Route(DIRECT_OUT)
    ensures CustomReason(s, Direct, c) || GroupReason(s, cats.regional, Direct, c) || OnLan(c)
  {
    CompilerAgreesWithInterpreter(s, cats, families, c);
    CustomHitOrigin(s.customRules, c);
    RegionalHitOrigin(s, cats.regional, c);
  }

  predicate Unmentioned(s: Settings, cats: Catalogs, c: Connection) {
    && (forall i :: 0 <= i < |s.customRules| ==> !CustomRuleMatches(s.customRules, i, c))
    && (forall i :: 0 <= i < |cats.regional| ==> !ServiceMatches(cats.regional[i], c.process, c.domain))
    && !OnLan(c)
  }

  /** In full-tunnel mode the rejected connections are exactly the unmentioned ones of an uncarried family. */
  lemma RejectedExactly(s: Settings, cats: Catalogs, families: Families, c: Connection)
    requires NormalSettings(s) && WellFormed(cats) && !c.dns && s.mode == MODE_ALL
    ensures RouteOf(s, cats, families, c) == Reject <==> Unmentioned(s, cats, c) && Uncarried(families, c)
  {
    CompilerAgreesWithInterpreter(s, cats, families, c);
    CustomHitOrigin(s.customRules, c);
    RegionalHitOrigin(s, cats.regional, c);
  }

  // --------------------------------------------------------- DNS/route agreement

  predicate OnlyDomainKnown(c: Connection) {
    c.process == "" && c.ip.None? && !c.dns && c.domain != ""
  }

  function DnsOf(s: Settings, cats: Catalogs, vpnServer: string, strategy: string, domain: string): string {
    DnsServerFor(PolicyDnsRules(s, cats.regional, vpnServer, strategy), vpnServer, domain)
  }

  lemma {:induction false} DnsAppend(a: seq<DnsRule>, b: seq<DnsRule>, final: string, domain: string)
    ensures DnsServerFor(a + b, final, domain) == DnsServerFor(a, DnsServerFor(b, final, domain), domain)
  {
    if a == [] {
      assert a + b == b;
    } else {
      assert (a + b)[1..] == a[1..] + b;
      DnsAppend(a[1..], b, final, domain);
    }
  }

  function ServerOf(outbound: string, vpnServer: string): string {
    if outbound == AWG_OUT then vpnServer else DIRECT_DNS
  }

  /** A decision of the route list, read as a resolver. */
  function ServerFor(decision: Option<Action>, vpnServer: string, otherwise: string): string {
    match decision
    case Some(Route(outbound)) => ServerOf(outbound, vpnServer)
    case _ => otherwise
  }

  lemma DnsOneRule(r: Rule, vpn: bool, vpnServer: string, strategy: string, final: string, c: Connection)
    requires OnlyDomainKnown(c)
    requires r.domains != []
    requires r == ANY.(domains := r.domains, suffixes := r.suffixes, action := r.action)
    requires r.action == Route(if vpn then AWG_OUT else DIRECT_OUT)
    ensures DnsServerFor(DnsRuleOf(r, vpn, vpnServer, strategy), final, c.domain)
            == if Matches(r, c) then ServerOf(r.action.outbound, vpnServer) else final
  {
  }

  lemma {:induction false} CustomDnsAgrees(rules: seq<CustomRule>, vpnServer: string, strategy: string, final: string,
                                           c: Connection)
    requires OnlyDomainKnown(c)
    requires forall r :: r in rules ==> NormalRule(r)
    ensures DnsServerFor(CustomDnsRules(rules, vpnServer, strategy), final, c.domain)
            == ServerFor(Decide(CustomRuleObjects(rules), c), vpnServer, final)
  {
    if rules != [] {
      var r := rules[0];
      var rest := CustomDnsRules(rules[1..], vpnServer, strategy);
      CustomDnsAgrees(rules[1..], vpnServer, strategy, final, c);
      DnsAppend(CustomDnsRule(r, vpnServer, strategy), rest, final, c.domain);
      DecideAppend(if r.enabled then [CustomRuleObject(r)] else [], CustomRuleObjects(rules[1..]), c);
      if r.enabled {
        assert [CustomRuleObject(r)][1..] == [];
        if r.value.Domain? {
          DnsOneRule(CustomRuleObject(r), r.target == Vpn, vpnServer, strategy, DnsServerFor(rest, final, c.domain), c);
        }
      }
    }
  }

  /** The shape of the rules `regionalRuleObjects` emits. */
  predicate GroupRule(r: Rule) {
    && (r.action == Route(AWG_OUT) || r.action == Route(DIRECT_OUT))
    && ((r.processNames != [] && r.domains == []) ||
        (r.domains != [] && r == ANY.(domains := r.domains, suffixes := r.suffixes, action := r.action)))
  }

  lemma {:induction false} RuleDnsAgrees(rules: seq<Rule>, vpnServer: string, strategy: string, final: string,
                                         c: Connection)
    requires OnlyDomainKnown(c)
    requires forall r :: r in rules ==> GroupRule(r)
    ensures DnsServerFor(RuleDnsRules(rules, vpnServer, strategy), final, c.domain)
            == ServerFor(Decide(rules, c), vpnServer, final)
  {
    if rules != [] {
      var r := rules[0];
      var rest := RuleDnsRules(rules[1..], vpnServer, strategy);
      RuleDnsAgrees(rules[1..], vpnServer, strategy, final, c);
      DnsAppend(DnsRuleOf(r, r.action == Route(AWG_OUT), vpnServer, strategy), rest, final, c.domain);
      assert GroupRule(r);
      if r.domains != [] {
        DnsOneRule(r, r.action == Route(AWG_OUT), vpnServer, strategy, DnsServerFor(rest, final, c.domain), c);
      }
    }
  }

  lemma {:induction false} GroupRulesShape(s: Settings, vs: seq<Service>)
    requires forall v :: v in vs ==> v.domains + v.suffixes != []
    ensures forall r :: r in RegionalRuleObjects(s, vs) ==> GroupRule(r)
  {
    if vs != [] {
      GroupRulesShape(s, vs[1..]);
      var v := vs[0];
      RootsMembers(v.suffixes);
      assert v.domains + Roots(v.suffixes) != [];
      forall r | r in RegionalRules(s, v) ensures GroupRule(r) { }
    }
  }

  /** A resolver is chosen as the custom and regional rules decide, and the tunnel's when they do not. */
  lemma DnsFollowsRules(s: Settings, cats: Catalogs, vpnServer: string, strategy: string, c: Connection)
    requires NormalSettings(s) && WellFormed(cats) && OnlyDomainKnown(c)
    ensures DnsOf(s, cats, vpnServer, strategy, c.domain)
            == ServerFor(Decide(CustomRuleObjects(s.customRules) + RegionalRuleObjects(s, cats.regional), c),
                vpnServer, vpnServer)
  {
    var regional := RegionalRuleObjects(s, cats.regional);
    var tail := RuleDnsRules(regional, vpnServer, strategy);
    DnsAppend(CustomDnsRules(s.customRules, vpnServer, strategy), tail, vpnServer, c.domain);
    GroupRulesShape(s, cats.regional);
    RuleDnsAgrees(regional, vpnServer, strategy, vpnServer, c);
    CustomDnsAgrees(s.customRules, vpnServer, strategy, DnsServerFor(tail, vpnServer, c.domain), c);
    DecideAppend(CustomRuleObjects(s.customRules), regional, c);
    CustomRulesAgree(s.customRules, c);
  }

  /**
   The DNS list and the route list never disagree towards a leak: a connection
   known only by its domain resolves outside the tunnel only if it is also routed
   outside it, and in full-tunnel mode exactly then.
   */
  lemma DnsAgreesWithRoute(s: Settings, cats: Catalogs, families: Families, vpnServer: string, strategy: string,
                           c: Connection)
    requires NormalSettings(s) && WellFormed(cats) && OnlyDomainKnown(c) && vpnServer != DIRECT_DNS
    ensures DnsOf(s, cats, vpnServer, strategy, c.domain) == DIRECT_DNS ==>
            RouteOf(s, cats, families, c) == Route(DIRECT_OUT)
    ensures s.mode == MODE_ALL ==>
              (DnsOf(s, cats, vpnServer, strategy, c.domain) == DIRECT_DNS <==>
               RouteOf(s, cats, families, c) == Route(DIRECT_OUT))
  {
    DnsFollowsRules(s, cats, vpnServer, strategy, c);
    CompilerAgreesWithInterpreter(s, cats, families, c);
    CustomRulesAgree(s.customRules, c);
    RegionalAgrees(s, cats.regional, c);
    DecideAppend(CustomRuleObjects(s.customRules), RegionalRuleObjects(s, cats.regional), c);
    var ch, rh := CustomHits(s.customRules, c.process, c.domain, c.ip),
                  RegionalHits(s, cats.regional, c.process, c.domain);
    FirstActionAppend(ch, rh);
    if ch + rh != [] {
      assert HitsOf(s, cats, c)[0] == (ch + rh)[0];
    }
  }

  // ----------------------------------------------------------- the two shortcuts

  predicate HasEnabledCustomRules(s: Settings) {
    exists i :: 0 <= i < |s.customRules| && s.customRules[i].enabled
  }

  predicate HasDirectServiceExceptions(s: Settings) {
    && NormalizeMode(s.mode) == MODE_ALL
    && (!ServiceUsesVpn(s, VK_SERVICE_ID) || !ServiceUsesVpn(s, RUSSIAN_SERVICE_ID))
  }

  predicate UsesNativeTunnel(s: Settings) {
    && NormalizeMode(s.mode) == MODE_ALL
    && !HasEnabledCustomRules(s)
    && !HasDirectServiceExceptions(s)
    && s.protection == ""
    && s.fallbackProfiles == []
  }

  lemma NormalModes()
    ensures NormalizeMode(MODE_ALL) == MODE_ALL && NormalizeMode(MODE_SELECTED) == MODE_SELECTED
  {
  }

  /** Skipping the engine is safe: the compiled policy would have tunnelled the same connections. */
  lemma NativeTunnelAgrees(s: Settings, cats: Catalogs, families: Families, c: Connection)
    requires NormalSettings(s) && WellFormed(cats) && !c.dns && UsesNativeTunnel(s)
    requires !OnLan(c) && !Uncarried(families, c)
    ensures RouteOf(s, cats, families, c) == Route(AWG_OUT)
  {
    NormalModes();
    CompilerAgreesWithInterpreter(s, cats, families, c);
    CustomHitOrigin(s.customRules, c);
    RegionalHitOrigin(s, cats.regional, c);
    UniformGroups(s, cats, c, Vpn);
  }

  /** When both groups go the same way, every regional hit does. */
  lemma UniformGroups(s: Settings, cats: Catalogs, c: Connection, target: Target)
    requires WellFormed(cats)
    requires ServiceUsesVpn(s, VK_SERVICE_ID) == ServiceUsesVpn(s, RUSSIAN_SERVICE_ID) == (target == Vpn)
    ensures var hits := RegionalHits(s, cats.regional, c.process, c.domain); hits != [] ==> hits[0].target == target
  {
    RegionalHitOrigin(s, cats.regional, c);
    var hits := RegionalHits(s, cats.regional, c.process, c.domain);
    if hits != [] {
      var i :| 0 <= i < |cats.regional| && ServiceTarget(s, cats.regional[i]) == hits[0].target;
      assert cats.regional[i] in cats.regional && IsRegional(cats.regional[i].id);
    }
  }

  // ----------------------------------------------------------- service toggles

  function WithServiceVpn(s: Settings, id: string, enabled: bool): Settings {
    var mode := NormalizeMode(s.mode);
    var values := if mode in s.serviceRoutes then s.serviceRoutes[mode] else map[];
    s.(serviceRoutes := s.serviceRoutes[mode := values[id := enabled]])
  }

  /** A toggle sets its own group in the current mode and nothing else in either mode. */
  lemma ToggleIsLocal(s: Settings, id: string, enabled: bool, other: string, mode: string)
    requires IsRegional(id)
    ensures ServiceUsesVpn(WithServiceVpn(s, id, enabled), id) == enabled
    ensures other != id ==> ServiceUsesVpn(WithServiceVpn(s, id, enabled), other) == ServiceUsesVpn(s, other)
    ensures NormalizeMode(mode) != NormalizeMode(s.mode) ==>
              ServiceUsesVpn(WithServiceVpn(s, id, enabled).(mode := mode), other)
                  == ServiceUsesVpn(s.(mode := mode), other)
  {
  }
}
