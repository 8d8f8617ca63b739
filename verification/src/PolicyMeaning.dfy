/**
 What the policy means, rule by rule, written without the functions that the
 compiler and the interpreter share: which services are selected, what a toggle
 that was never touched stands for, which addresses are local, and from these the
 outbound of every connection.
 */
module PolicyMeaning {
  import opened Options
  import opened Addresses
  import opened Text
  import opened Policy
  import opened Compiler
  import opened Explain
  import opened PolicyTheorems
  import opened PolicyGuarantees

  // ----------------------------------------------------------- selected services

  /** Every service of the catalog whose id is selected, and no other. */
  lemma {:induction false} SelectedExactly(services: seq<Service>, ids: seq<string>, v: Service)
    ensures v in SelectedServices(services, ids) <==> v in services && v.id in ids
  {
    if services != [] {
      SelectedExactly(services[1..], ids, v);
      assert v in services <==> v == services[0] || v in services[1..];
    }
  }

  /** In catalog order: each part of the catalog is selected from on its own. */
  lemma {:induction false} SelectedInOrder(a: seq<Service>, b: seq<Service>, ids: seq<string>)
    ensures SelectedServices(a + b, ids) == SelectedServices(a, ids) + SelectedServices(b, ids)
  {
    if a == [] {
      assert a + b == b;
    } else {
      assert (a + b)[1..] == a[1..] + b;
      SelectedInOrder(a[1..], b, ids);
    }
  }

  ghost predicate SomeServiceMatches(vs: seq<Service>, c: Connection) {
    exists v :: v in vs && ServiceMatches(v, c.process, c.domain)
  }

  lemma {:induction false} ServiceHitsExactly(vs: seq<Service>, c: Connection)
    ensures ServiceHits(vs, c.process, c.domain) != [] <==> SomeServiceMatches(vs, c)
    ensures forall m :: m in ServiceHits(vs, c.process, c.domain) ==> m.target == Vpn
  {
    if vs != [] {
      ServiceHitsExactly(vs[1..], c);
      assert forall v :: v in vs <==> v == vs[0] || v in vs[1..];
    }
  }

  /** Some service matches that the user selected. */
  ghost predicate SelectedMatches(s: Settings, cats: Catalogs, c: Connection) {
    exists v :: v in cats.services && v.id in s.selectedApps && ServiceMatches(v, c.process, c.domain)
  }

  lemma SelectionExactly(s: Settings, cats: Catalogs, c: Connection)
    ensures SomeServiceMatches(SelectedServices(cats.services, s.selectedApps), c) <==> SelectedMatches(s, cats, c)
  {
    forall v ensures v in SelectedServices(cats.services, s.selectedApps)
                     <==> v in cats.services && v.id in s.selectedApps
    {
      SelectedExactly(cats.services, s.selectedApps, v);
    }
  }

  // ------------------------------------------------------------- local addresses

  predicate Between(ip: Ip, family: Family, low: nat, high: nat) {
    ip.family == family && low <= ip.addr <= high
  }

  /** The private, link-local, loopback, multicast and broadcast ranges, first to last address. */
  predicate LocalAddress(ip: Ip) {
    || Between(ip, V4, 0x0A00_0000, 0x0AFF_FFFF)
    || Between(ip, V4, 0xAC10_0000, 0xAC1F_FFFF)
    || Between(ip, V4, 0xC0A8_0000, 0xC0A8_FFFF)
    || Between(ip, V4, 0xA9FE_0000, 0xA9FE_FFFF)
    || Between(ip, V4, 0x7F00_0000, 0x7FFF_FFFF)
    || Between(ip, V4, 0xE000_0000, 0xEFFF_FFFF)
    || Between(ip, V4, 0xFFFF_FFFF, 0xFFFF_FFFF)
    || Between(ip, V6, 1, 1)
    || Between(ip, V6, 0xFC00_0000_0000_0000_0000_0000_0000_0000, 0xFDFF_FFFF_FFFF_FFFF_FFFF_FFFF_FFFF_FFFF)
    || Between(ip, V6, 0xFE80_0000_0000_0000_0000_0000_0000_0000, 0xFEBF_FFFF_FFFF_FFFF_FFFF_FFFF_FFFF_FFFF)
    || Between(ip, V6, 0xFF00_0000_0000_0000_0000_0000_0000_0000, 0xFFFF_FFFF_FFFF_FFFF_FFFF_FFFF_FFFF_FFFF)
  }

  /** A prefix whose address is the first of its block holds the block from there. */
  lemma PrefixIsRange(p: Prefix, ip: Ip, host: nat)
    requires p.bits <= p.family.Width() && host == Pow2(p.family.Width() - p.bits) && p.addr % host == 0
    ensures Contains(p, ip) <==> Between(ip, p.family, p.addr, p.addr + host - 1)
  {
    SameBlock(p.addr, ip.addr, host);
  }

  lemma SameBlock(a: nat, b: nat, host: nat)
    requires host > 0 && a % host == 0
    ensures a / host == b / host <==> a <= b < a + host
  {
    var x, y := a / host, b / host;
    Quotient(a, host);
    Quotient(b, host);
    if x < y { Multiples(x + 1, y, host); }
    if y < x { Multiples(y + 1, x, host); }
  }

  lemma Quotient(a: nat, host: nat)
    requires host > 0
    ensures a == a / host * host + a % host && 0 <= a % host < host
  {
  }

  lemma Multiples(x: nat, y: nat, host: nat)
    requires 0 < x <= y
    ensures (x - 1) * host + host == x * host <= y * host
  {
    assert x * host + (y - x) * host == y * host;
  }

  lemma Pow2Byte(n: nat)
    ensures Pow2(n + 8) == 256 * Pow2(n) && Pow2(n + 4) == 16 * Pow2(n) && Pow2(n + 2) == 4 * Pow2(n)
  {
    assert Pow2(n + 2) == 2 * Pow2(n + 1);
    assert Pow2(n + 4) == 2 * Pow2(n + 3);
    assert Pow2(n + 6) == 2 * Pow2(n + 5);
    assert Pow2(n + 8) == 2 * Pow2(n + 7);
  }

  lemma BlockSizesV4()
    ensures Pow2(0) == 1 && Pow2(16) == 0x1_0000 && Pow2(20) == 0x10_0000 && Pow2(24) == 0x100_0000
    ensures Pow2(28) == 0x1000_0000
  {
    Pow2Byte(0);
    Pow2Byte(8);
    Pow2Byte(16);
    Pow2Byte(24);
  }

  lemma BlockSizesV6()
    ensures Pow2(0) == 1
    ensures Pow2(118) == 0x0040_0000_0000_0000_0000_0000_0000_0000
    ensures Pow2(120) == 0x0100_0000_0000_0000_0000_0000_0000_0000
    ensures Pow2(121) == 0x0200_0000_0000_0000_0000_0000_0000_0000
  {
    BlockSizesV4();
    Pow2Byte(24);
    Pow2Byte(32);
    Pow2Byte(40);
    Pow2Byte(48);
    Pow2Byte(56);
    Pow2Byte(64);
    Pow2Byte(72);
    Pow2Byte(80);
    Pow2Byte(88);
    Pow2Byte(96);
    Pow2Byte(104);
    Pow2Byte(112);
    Pow2Byte(116);
    assert Pow2(121) == 2 * Pow2(120);
  }

  lemma PrivateV4(ip: Ip)
    ensures Contains(LOCAL_CIDRS[0], ip) <==> Between(ip, V4, 0x0A00_0000, 0x0AFF_FFFF)
    ensures Contains(LOCAL_CIDRS[1], ip) <==> Between(ip, V4, 0xAC10_0000, 0xAC1F_FFFF)
    ensures Contains(LOCAL_CIDRS[2], ip) <==> Between(ip, V4, 0xC0A8_0000, 0xC0A8_FFFF)
  {
    BlockSizesV4();
    PrefixIsRange(LOCAL_CIDRS[0], ip, 0x100_0000);
    PrefixIsRange(LOCAL_CIDRS[1], ip, 0x10_0000);
    PrefixIsRange(LOCAL_CIDRS[2], ip, 0x1_0000);
  }

  lemma SpecialV4(ip: Ip)
    ensures Contains(LOCAL_CIDRS[3], ip) <==> Between(ip, V4, 0xA9FE_0000, 0xA9FE_FFFF)
    ensures Contains(LOCAL_CIDRS[4], ip) <==> Between(ip, V4, 0x7F00_0000, 0x7FFF_FFFF)
    ensures Contains(LOCAL_CIDRS[5], ip) <==> Between(ip, V4, 0xE000_0000, 0xEFFF_FFFF)
    ensures Contains(LOCAL_CIDRS[6], ip) <==> Between(ip, V4, 0xFFFF_FFFF, 0xFFFF_FFFF)
  {
    BlockSizesV4();
    PrefixIsRange(LOCAL_CIDRS[3], ip, 0x1_0000);
    PrefixIsRange(LOCAL_CIDRS[4], ip, 0x100_0000);
    PrefixIsRange(LOCAL_CIDRS[5], ip, 0x1000_0000);
    PrefixIsRange(LOCAL_CIDRS[6], ip, 1);
  }

  lemma LocalV6(ip: Ip)
    ensures Contains(LOCAL_CIDRS[7], ip) <==> Between(ip, V6, 1, 1)
    ensures Contains(LOCAL_CIDRS[8], ip) <==>
            Between(ip, V6, 0xFC00_0000_0000_0000_0000_0000_0000_0000, 0xFDFF_FFFF_FFFF_FFFF_FFFF_FFFF_FFFF_FFFF)
    ensures Contains(LOCAL_CIDRS[9], ip) <==>
            Between(ip, V6, 0xFE80_0000_0000_0000_0000_0000_0000_0000, 0xFEBF_FFFF_FFFF_FFFF_FFFF_FFFF_FFFF_FFFF)
    ensures Contains(LOCAL_CIDRS[10], ip) <==>
            Between(ip, V6, 0xFF00_0000_0000_0000_0000_0000_0000_0000, 0xFFFF_FFFF_FFFF_FFFF_FFFF_FFFF_FFFF_FFFF)
  {
    BlockSizesV6();
    PrefixIsRange(LOCAL_CIDRS[7], ip, 1);
    PrefixIsRange(LOCAL_CIDRS[8], ip, 0x0200_0000_0000_0000_0000_0000_0000_0000);
    PrefixIsRange(LOCAL_CIDRS[9], ip, 0x0040_0000_0000_0000_0000_0000_0000_0000);
    PrefixIsRange(LOCAL_CIDRS[10], ip, 0x0100_0000_0000_0000_0000_0000_0000_0000);
  }

  /** The prefixes of the LAN bypass are these ranges, and no more. */
  lemma LocalExactly(ip: Ip)
    ensures AnyContains(LOCAL_CIDRS, ip) <==> LocalAddress(ip)
  {
    PrivateV4(ip);
    SpecialV4(ip);
    LocalV6(ip);
    assert |LOCAL_CIDRS| == 11;
  }

  // ------------------------------------------------------------- the first match

  predicate RuleDecides(s: Settings, c: Connection, i: nat) {
    && i < |s.customRules| && CustomRuleMatches(s.customRules, i, c)
    && forall j :: 0 <= j < i ==> !CustomRuleMatches(s.customRules, j, c)
  }

  predicate NoRule(s: Settings, c: Connection) {
    forall j :: 0 <= j < |s.customRules| ==> !CustomRuleMatches(s.customRules, j, c)
  }

  predicate GroupMatches(cats: Catalogs, c: Connection, i: nat)
    requires i < |cats.regional|
  {
    ServiceMatches(cats.regional[i], c.process, c.domain)
  }

  predicate GroupDecides(cats: Catalogs, c: Connection, i: nat) {
    && i < |cats.regional| && GroupMatches(cats, c, i)
    && forall j :: 0 <= j < i ==> !GroupMatches(cats, c, j)
  }

  predicate NoGroup(cats: Catalogs, c: Connection) {
    forall j :: 0 <= j < |cats.regional| ==> !GroupMatches(cats, c, j)
  }

  predicate Local(c: Connection) {
    c.ip.Some? && LocalAddress(c.ip.value)
  }

  /** The user's choice for a group in the current mode; one never touched follows the mode. */
  predicate GroupTunnelled(s: Settings, id: string) {
    if s.mode in s.serviceRoutes && id in s.serviceRoutes[s.mode] then s.serviceRoutes[s.mode][id]
    else s.mode == "all"
  }

  lemma {:induction false} FirstRuleHit(rules: seq<CustomRule>, c: Connection, i: nat)
    requires i < |rules| && CustomRuleMatches(rules, i, c)
    requires forall j :: 0 <= j < i ==> !CustomRuleMatches(rules, j, c)
    ensures var hits := CustomHits(rules, c.process, c.domain, c.ip);
            hits != [] && hits[0] == Match(rules[i].target, rules[i].name)
  {
    if i > 0 {
      assert !CustomRuleMatches(rules, 0, c);
      forall j | 0 <= j < i - 1 ensures !CustomRuleMatches(rules[1..], j, c) {
        assert !CustomRuleMatches(rules, j + 1, c);
      }
      FirstRuleHit(rules[1..], c, i - 1);
    }
  }

  lemma {:induction false} FirstGroupHit(s: Settings, vs: seq<Service>, c: Connection, i: nat)
    requires i < |vs| && ServiceMatches(vs[i], c.process, c.domain)
    requires forall j :: 0 <= j < i ==> !ServiceMatches(vs[j], c.process, c.domain)
    ensures var hits := RegionalHits(s, vs, c.process, c.domain);
            hits != [] && hits[0] == Match(ServiceTarget(s, vs[i]), vs[i].name)
  {
    if i > 0 { FirstGroupHit(s, vs[1..], c, i - 1); }
  }

  lemma NoRuleHit(s: Settings, c: Connection)
    requires NoRule(s, c)
    ensures CustomHits(s.customRules, c.process, c.domain, c.ip) == []
  {
    CustomHitOrigin(s.customRules, c);
  }

  lemma NoGroupHit(s: Settings, cats: Catalogs, c: Connection)
    requires NoGroup(cats, c)
    ensures RegionalHits(s, cats.regional, c.process, c.domain) == []
  {
    RegionalHitOrigin(s, cats.regional, c);
    forall i | 0 <= i < |cats.regional| ensures !ServiceMatches(cats.regional[i], c.process, c.domain) {
      assert !GroupMatches(cats, c, i);
    }
  }

  // ---------------------------------------------------------- what a match is

  ghost predicate EndsIn(s: string, t: string) {
    exists k :: 0 <= k <= |s| && s[k..] == t
  }

  lemma EndsInExactly(s: string, t: string)
    ensures EndsIn(s, t) <==> HasSuffix(s, t)
  {
    if HasSuffix(s, t) { assert s[|s| - |t|..] == t; }
  }

  /** A rule matches when it is enabled and names the program, the domain or one above it, or the address. */
  lemma RuleMatchesExactly(r: CustomRule, c: Connection)
    requires NormalRule(r)
    ensures CustomMatches(r, c.process, c.domain, c.ip) <==>
            r.enabled &&
            match r.value
            case Application(n) =>
              if exists k :: 0 <= k < |n| && n[k] in {'\\', '/', ':'} then Lower(c.process) == Lower(n)
              else Lower(Base(c.process)) == Lower(n)
            case Domain(d) => c.domain == d || EndsIn(c.domain, "." + d)
            case Cidr(p) =>
              && c.ip.Some? && c.ip.value.family == p.family
              && c.ip.value.addr / Pow2(p.family.Width() - p.bits) == p.addr / Pow2(p.family.Width() - p.bits)
  {
    match r.value
    case Application(n) =>
      assert IsPath(n) <==> exists k :: 0 <= k < |n| && n[k] in {'\\', '/', ':'};
      if c.process == "" {
        CustomAgrees(r, c);
        assert Lower("") == "" && |Lower(n)| == |n| > 0;
      }
    case Domain(d) =>
      RootOfDomain(d);
      EndsInExactly(c.domain, "." + d);
    case Cidr(p) =>
  }

  /** A service matches by a program, a listed domain, or a domain at or below one of its suffixes. */
  lemma ServiceMatchesExactly(v: Service, c: Connection)
    requires WellFormedService(v)
    ensures ServiceMatches(v, c.process, c.domain) <==>
            || (exists n :: n in v.processNames && Lower(Base(c.process)) == Lower(n))
            || c.domain in v.domains
            || (c.domain != "" && exists x :: x in v.suffixes && (c.domain == x[1..] || EndsIn(c.domain, x)))
  {
    if NameMatches(v.processNames, c.process) {
      var i :| 0 <= i < |v.processNames| && SameName(Base(c.process), v.processNames[i]);
      assert v.processNames[i] in v.processNames;
    }
    forall x | x in v.suffixes
      ensures NormalSuffix(x)
      ensures DomainMatches(c.domain, x) <==> c.domain == x[1..] || EndsIn(c.domain, x)
    {
      SuffixMatchExactly(x, c.domain);
    }
    if SuffixMatches(v.suffixes, c.domain) {
      var i :| 0 <= i < |v.suffixes| && DomainMatches(c.domain, v.suffixes[i]);
      assert v.suffixes[i] in v.suffixes;
    }
  }

  lemma SuffixMatchExactly(x: string, domain: string)
    requires NormalSuffix(x)
    ensures DomainMatches(domain, x) <==> domain == x[1..] || EndsIn(domain, x)
  {
    RootOfSuffix(x);
    EndsInExactly(domain, x);
    assert "." + x[1..] == x;
  }

  // ------------------------------------------------------- where a connection goes

  /** The first enabled rule of the user's own that matches decides, and is the one named. */
  lemma RuleRoutes(s: Settings, cats: Catalogs, families: Families, c: Connection, i: nat)
    requires NormalSettings(s) && WellFormed(cats) && !c.dns && RuleDecides(s, c, i)
    ensures RouteOf(s, cats, families, c) == Route(if s.customRules[i].target == Vpn then "awg-out" else "direct")
    ensures HitsOf(s, cats, c) != [] && HitsOf(s, cats, c)[0].name == s.customRules[i].name
  {
    CompilerAgreesWithInterpreter(s, cats, families, c);
    FirstRuleHit(s.customRules, c, i);
    assert HitsOf(s, cats, c)[0] == CustomHits(s.customRules, c.process, c.domain, c.ip)[0];
  }

  /** Failing that, the first group that matches goes where the user sent it. */
  lemma GroupRoutes(s: Settings, cats: Catalogs, families: Families, c: Connection, i: nat)
    requires NormalSettings(s) && WellFormed(cats) && !c.dns && NoRule(s, c) && GroupDecides(cats, c, i)
    ensures RouteOf(s, cats, families, c)
            == Route(if GroupTunnelled(s, cats.regional[i].id) then "awg-out" else "direct")
    ensures HitsOf(s, cats, c) != [] && HitsOf(s, cats, c)[0].name == cats.regional[i].name
  {
    CompilerAgreesWithInterpreter(s, cats, families, c);
    NormalModes();
    NoRuleHit(s, c);
    forall j | 0 <= j < i ensures !ServiceMatches(cats.regional[j], c.process, c.domain) {
      assert !GroupMatches(cats, c, j);
    }
    FirstGroupHit(s, cats.regional, c, i);
    assert cats.regional[i] in cats.regional;
    assert HitsOf(s, cats, c)[0] == RegionalHits(s, cats.regional, c.process, c.domain)[0];
  }

  /** Failing that, local addresses stay outside, whatever the mode. */
  lemma LocalRoutes(s: Settings, cats: Catalogs, families: Families, c: Connection)
    requires NormalSettings(s) && WellFormed(cats) && !c.dns && NoRule(s, c) && NoGroup(cats, c) && Local(c)
    ensures RouteOf(s, cats, families, c) == Route("direct")
  {
    CompilerAgreesWithInterpreter(s, cats, families, c);
    NoRuleHit(s, c);
    NoGroupHit(s, cats, c);
    LocalExactly(c.ip.value);
    assert HitsOf(s, cats, c)[0] == LAN_MATCH;
  }

  lemma TailHits(s: Settings, cats: Catalogs, c: Connection)
    requires NoRule(s, c) && NoGroup(cats, c) && !Local(c)
    ensures HitsOf(s, cats, c) == ModeHits(s, cats, c.process, c.domain)
  {
    NoRuleHit(s, c);
    NoGroupHit(s, cats, c);
    if c.ip.Some? { LocalExactly(c.ip.value); }
  }

  lemma SelectedHits(s: Settings, cats: Catalogs, c: Connection)
    requires s.mode == MODE_SELECTED
    ensures var hits := ModeHits(s, cats, c.process, c.domain);
            && (hits != [] <==> SelectedMatches(s, cats, c) || c.domain in {"github.com", "raw.githubusercontent.com"})
            && (hits != [] ==> hits[0].target == Vpn)
  {
    var vs := SelectedServices(cats.services, s.selectedApps);
    SelectionExactly(s, cats, c);
    ServiceHitsExactly(vs, c);
    var sh := ServiceHits(vs, c.process, c.domain);
    if sh != [] { assert sh[0] in sh && (sh + UpdateHits(c.domain))[0] == sh[0]; }
  }

  /** Failing that, the selected services and the two update hosts use the tunnel, and nothing else does. */
  lemma SelectedRoutes(s: Settings, cats: Catalogs, families: Families, c: Connection)
    requires NormalSettings(s) && WellFormed(cats) && !c.dns && s.mode == "selected"
    requires NoRule(s, c) && NoGroup(cats, c) && !Local(c)
    ensures RouteOf(s, cats, families, c)
            == Route(if SelectedMatches(s, cats, c) || c.domain in {"github.com", "raw.githubusercontent.com"}
                     then "awg-out" else "direct")
  {
    CompilerAgreesWithInterpreter(s, cats, families, c);
    TailHits(s, cats, c);
    SelectedHits(s, cats, c);
  }

  /** Or, in full-tunnel mode, everything does that the profile can carry, and the rest is rejected. */
  lemma FullTunnelRoutes(s: Settings, cats: Catalogs, families: Families, c: Connection)
    requires NormalSettings(s) && WellFormed(cats) && !c.dns && s.mode == "all"
    requires NoRule(s, c) && NoGroup(cats, c) && !Local(c)
    ensures RouteOf(s, cats, families, c) ==
            if c.ip.Some? && (if c.ip.value.family == V4 then !families.ipv4 else !families.ipv6) then Reject
            else Route("awg-out")
  {
    CompilerAgreesWithInterpreter(s, cats, families, c);
    TailHits(s, cats, c);
  }

  /** And a DNS query never gets that far: it is answered by the policy's own resolvers. */
  lemma DnsIsHijacked(s: Settings, cats: Catalogs, families: Families, c: Connection)
    requires c.dns
    ensures RouteOf(s, cats, families, c) == HijackDns
  {
    var hijack := ANY.(dnsOnly := true, action := HijackDns);
    var rest := CustomRuleObjects(s.customRules) + RegionalRuleObjects(s, cats.regional)
                + LanRules() + ModeRules(s, cats, families);
    assert RouteRules(s, cats, families) == Preamble() + rest;
    assert Preamble()[1..] == [hijack];
    assert Decide([hijack], c) == Some(HijackDns);
    assert Decide(Preamble(), c) == Some(HijackDns);
    DecideAppend(Preamble(), rest, c);
  }

  // ------------------------------------------------------------ the explanation

  ghost predicate ListedService(s: Settings, cats: Catalogs, c: Connection, m: Match) {
    exists v :: v in cats.services && v.id in s.selectedApps && ServiceMatches(v, c.process, c.domain)
                && m == Match(Vpn, v.name)
  }

  /** The interpreter lists a rule, a group, the LAN, a service or the updates exactly when it matches. */
  lemma ListedExactly(s: Settings, cats: Catalogs, c: Connection, m: Match)
    ensures m in HitsOf(s, cats, c) <==>
            || (exists r :: r in s.customRules && CustomMatches(r, c.process, c.domain, c.ip)
                            && m == Match(r.target, r.name))
            || (exists v :: v in cats.regional && ServiceMatches(v, c.process, c.domain)
                            && m == Match(ServiceTarget(s, v), v.name))
            || (Local(c) && m == Match(Direct, "LAN"))
            || (s.mode == "selected" && ListedService(s, cats, c, m))
            || (s.mode == "selected" && c.domain in {"github.com", "raw.githubusercontent.com"}
                && m == Match(Vpn, "preset updates"))
  {
    CustomListed(s.customRules, c, m);
    GroupsListed(s, cats.regional, c, m);
    var vs := SelectedServices(cats.services, s.selectedApps);
    ServicesListed(vs, c, m);
    forall v ensures v in vs <==> v in cats.services && v.id in s.selectedApps {
      SelectedExactly(cats.services, s.selectedApps, v);
    }
    if c.ip.Some? { LocalExactly(c.ip.value); }
  }

  lemma {:induction false} CustomListed(rules: seq<CustomRule>, c: Connection, m: Match)
    ensures m in CustomHits(rules, c.process, c.domain, c.ip) <==>
            exists r :: r in rules && CustomMatches(r, c.process, c.domain, c.ip) && m == Match(r.target, r.name)
  {
    if rules != [] {
      CustomListed(rules[1..], c, m);
      assert forall r :: r in rules <==> r == rules[0] || r in rules[1..];
    }
  }

  lemma {:induction false} GroupsListed(s: Settings, vs: seq<Service>, c: Connection, m: Match)
    ensures m in RegionalHits(s, vs, c.process, c.domain) <==>
            exists v :: v in vs && ServiceMatches(v, c.process, c.domain) && m == Match(ServiceTarget(s, v), v.name)
  {
    if vs != [] {
      GroupsListed(s, vs[1..], c, m);
      assert forall v :: v in vs <==> v == vs[0] || v in vs[1..];
    }
  }

  lemma {:induction false} ServicesListed(vs: seq<Service>, c: Connection, m: Match)
    ensures m in ServiceHits(vs, c.process, c.domain) <==>
            exists v :: v in vs && ServiceMatches(v, c.process, c.domain) && m == Match(Vpn, v.name)
  {
    if vs != [] {
      ServicesListed(vs[1..], c, m);
      assert forall v :: v in vs <==> v == vs[0] || v in vs[1..];
    }
  }
}
