/**
 What the compiled policy means. The central result: the rule list `BuildConfig`
 emits and the interpreter `ExplainRoute` decide every ordinary connection alike,
 except where the compiler rejects an address family the profile cannot carry.
 */
module PolicyTheorems {
  import opened Options
  import opened Addresses
  import opened Text
  import opened Policy
  import opened Compiler
  import opened Explain

  // -------------------------------------------------- one condition at a time

  /** A missing application is "." to the interpreter, and "." is nobody's executable. */
  lemma NamesAgree(names: seq<string>, process: string)
    requires forall n :: n in names ==> ExeName(n)
    ensures NameMatches(names, process) <==> NameListed(names, process)
  {
    if process == "" {
      forall i | 0 <= i < |names| ensures !SameName(Base(process), names[i]) {
        assert ExeName(names[i]);
      }
    }
  }

  lemma PathsAgree(path: string, process: string)
    requires ExeName(path)
    ensures SameName(Clean(process), Clean(path)) <==> PathListed([path], process)
  {
    if SameName(Clean(process), Clean(path)) && process != "" {
      assert SameName(process, [path][0]);
    }
  }

  lemma RootOfDomain(d: string)
    requires NormalDomain(d)
    ensures TrimPrefix(TrimSuffix(Lower(d), "."), ".") == d
  {
    assert d[|d| - 1..] == [d[|d| - 1]] && d[..1] == [d[0]];
  }

  lemma RootOfSuffix(x: string)
    requires NormalSuffix(x)
    ensures TrimPrefix(TrimSuffix(Lower(x), "."), ".") == x[1..] == TrimPrefix(x, ".")
    ensures "." + x[1..] == x
  {
  }

  lemma DomainsAgree(d: string, domain: string)
    requires NormalDomain(d)
    ensures domain != "" && DomainMatches(domain, d) <==> DomainListed([d], ["." + d], domain)
  {
    RootOfDomain(d);
    assert ["." + d][0] == "." + d;
  }

  lemma {:induction false} RootsMembers(suffixes: seq<string>)
    ensures |Roots(suffixes)| == |suffixes|
    ensures forall i :: 0 <= i < |suffixes| ==> Roots(suffixes)[i] == TrimPrefix(suffixes[i], ".")
  {
    if suffixes != [] { RootsMembers(suffixes[1..]); }
  }

  /** A suffix entry and its root entry together cover what one interpreter suffix covers. */
  lemma SuffixesAgree(suffixes: seq<string>, domain: string)
    requires forall x :: x in suffixes ==> NormalSuffix(x)
    ensures SuffixMatches(suffixes, domain) <==> DomainListed(Roots(suffixes), suffixes, domain)
  {
    RootsMembers(suffixes);
    forall i | 0 <= i < |suffixes|
      ensures DomainMatches(domain, suffixes[i]) <==> domain == Roots(suffixes)[i] || HasSuffix(domain, suffixes[i])
    {
      RootOfSuffix(suffixes[i]);
    }
    if SuffixMatches(suffixes, domain) {
      var i :| 0 <= i < |suffixes| && DomainMatches(domain, suffixes[i]);
      assert domain == Roots(suffixes)[i] || HasSuffix(domain, suffixes[i]);
    }
    if domain in Roots(suffixes) {
      var i :| 0 <= i < |Roots(suffixes)| && Roots(suffixes)[i] == domain;
      assert domain != "" ==> DomainMatches(domain, suffixes[i]);
    }
  }

  // ------------------------------------------------------------- custom rules

  function FirstAction(hits: seq<Match>): Option<Action> {
    if hits == [] then None else Some(Route(OutboundOf(hits[0].target)))
  }

  lemma FirstActionAppend(a: seq<Match>, b: seq<Match>)
    ensures FirstAction(a + b) == if FirstAction(a).Some? then FirstAction(a) else FirstAction(b)
  {
    if a == [] { assert a + b == b; }
  }

  lemma CustomAgrees(r: CustomRule, c: Connection)
    requires NormalRule(r)
    ensures CustomMatches(r, c.process, c.domain, c.ip) <==> r.enabled && Matches(CustomRuleObject(r), c)
  {
    match r.value
    case Application(n) =>
      if IsPath(n) {
        PathsAgree(n, c.process);
      } else {
        NamesAgree([n], c.process);
        assert NameMatches([n], c.process) <==> SameName(Base(c.process), [n][0]);
      }
    case Domain(d) => DomainsAgree(d, c.domain);
    case Cidr(p) =>
      assert c.ip.Some? ==> (AnyContains([p], c.ip.value) <==> Contains([p][0], c.ip.value));
  }

  lemma {:induction false} CustomRulesAgree(rules: seq<CustomRule>, c: Connection)
    requires forall r :: r in rules ==> NormalRule(r)
    ensures Decide(CustomRuleObjects(rules), c) == FirstAction(CustomHits(rules, c.process, c.domain, c.ip))
  {
    if rules != [] {
      var r := rules[0];
      CustomAgrees(r, c);
      CustomRulesAgree(rules[1..], c);
      if r.enabled {
        assert CustomRuleObjects(rules) == [CustomRuleObject(r)] + CustomRuleObjects(rules[1..]);
        assert CustomRuleObjects(rules)[1..] == CustomRuleObjects(rules[1..]);
      } else {
        assert CustomRuleObjects(rules) == CustomRuleObjects(rules[1..]);
      }
      FirstActionAppend(CustomHit(r, c.process, c.domain, c.ip), CustomHits(rules[1..], c.process, c.domain, c.ip));
    }
  }

  // ---------------------------------------------------------- regional groups

  /** The process rule and the domain rule of one service, seen as one condition. */
  predicate ServiceListed(v: Service, c: Connection) {
    || NameListed(v.processNames, c.process)
    || DomainListed(v.domains + Roots(v.suffixes), v.suffixes, c.domain)
  }

  lemma ServiceAgrees(v: Service, c: Connection)
    requires WellFormedService(v)
    ensures ServiceMatches(v, c.process, c.domain) <==> ServiceListed(v, c)
  {
    NamesAgree(v.processNames, c.process);
    SuffixesAgree(v.suffixes, c.domain);
    assert c.domain in v.domains ==> c.domain != "";
  }

  lemma DecideProcessRule(names: seq<string>, action: Action, c: Connection)
    requires names != [] && action != Sniff
    ensures Decide([ANY.(processNames := names, action := action)], c)
            == if NameListed(names, c.process) then Some(action) else None
  {
  }

  lemma DecideDomainRule(domains: seq<string>, suffixes: seq<string>, action: Action, c: Connection)
    requires domains + suffixes != [] && action != Sniff
    ensures Decide([ANY.(domains := domains, suffixes := suffixes, action := action)], c)
            == if DomainListed(domains, suffixes, c.domain) then Some(action) else None
  {
  }

  lemma GroupDecides(s: Settings, v: Service, c: Connection)
    requires v.domains + v.suffixes != []
    ensures Decide(RegionalRules(s, v), c)
            == if ServiceListed(v, c) then Some(Route(RegionalOutbound(s, v))) else None
  {
    var action := Route(RegionalOutbound(s, v));
    var domains := v.domains + Roots(v.suffixes);
    var names := if v.processNames != [] then [ANY.(processNames := v.processNames, action := action)] else [];
    var rest := [ANY.(domains := domains, suffixes := v.suffixes, action := action)];
    assert domains + v.suffixes != [];
    DecideDomainRule(domains, v.suffixes, action, c);
    DecideAppend(names, rest, c);
    if v.processNames != [] { DecideProcessRule(v.processNames, action, c); }
  }

  lemma {:induction false} RegionalAgrees(s: Settings, vs: seq<Service>, c: Connection)
    requires forall v :: v in vs ==> WellFormedService(v) && v.domains + v.suffixes != []
    ensures Decide(RegionalRuleObjects(s, vs), c) == FirstAction(RegionalHits(s, vs, c.process, c.domain))
  {
    if vs != [] {
      ServiceAgrees(vs[0], c);
      GroupDecides(s, vs[0], c);
      RegionalAgrees(s, vs[1..], c);
      DecideAppend(RegionalRules(s, vs[0]), RegionalRuleObjects(s, vs[1..]), c);
      FirstActionAppend(ServiceHit(vs[0], ServiceTarget(s, vs[0]), c.process, c.domain),
                        RegionalHits(s, vs[1..], c.process, c.domain));
    }
  }

  // --------------------------------------------- selected services, merged

  lemma {:induction false} MergedProcessMembers(acc: seq<string>, vs: seq<Service>, x: string)
    ensures x in MergedProcesses(acc, vs) <==> x in acc || exists i :: 0 <= i < |vs| && x in vs[i].processNames
    decreases |vs|
  {
    if vs != [] {
      AddNewMembers(acc, vs[0].processNames);
      MergedProcessMembers(AddNew(acc, vs[0].processNames), vs[1..], x);
      forall i | 0 <= i < |vs| && x in vs[i].processNames
        ensures x in vs[0].processNames || exists k :: 0 <= k < |vs[1..]| && x in vs[1..][k].processNames
      {
        if i > 0 { assert vs[1..][i - 1] == vs[i]; }
      }
    }
  }

  lemma {:induction false} MergedSuffixMembers(acc: seq<string>, vs: seq<Service>, x: string)
    ensures x in MergedSuffixes(acc, vs) <==> x in acc || exists i :: 0 <= i < |vs| && x in vs[i].suffixes
    decreases |vs|
  {
    if vs != [] {
      AddNewMembers(acc, vs[0].suffixes);
      MergedSuffixMembers(AddNew(acc, vs[0].suffixes), vs[1..], x);
      forall i | 0 <= i < |vs| && x in vs[i].suffixes
        ensures x in vs[0].suffixes || exists k :: 0 <= k < |vs[1..]| && x in vs[1..][k].suffixes
      {
        if i > 0 { assert vs[1..][i - 1] == vs[i]; }
      }
    }
  }

  lemma {:induction false} NonEmptyMembers(xs: seq<string>, x: string)
    ensures x in NonEmpty(xs) <==> x in xs && x != ""
  {
    if xs != [] {
      NonEmptyMembers(xs[1..], x);
      assert x in xs <==> x == xs[0] || x in xs[1..];
    }
  }

  predicate NamesDomain(v: Service, d: string) {
    d in v.domains || (d in Roots(v.suffixes) && d != "")
  }

  lemma {:induction false} MergedDomainMembers(acc: seq<string>, vs: seq<Service>, x: string)
    ensures x in MergedDomains(acc, vs) <==> x in acc || exists i :: 0 <= i < |vs| && NamesDomain(vs[i], x)
    decreases |vs|
  {
    if vs != [] {
      var own := AddNew(acc, vs[0].domains);
      AddNewMembers(acc, vs[0].domains);
      AddNewMembers(own, NonEmpty(Roots(vs[0].suffixes)));
      NonEmptyMembers(Roots(vs[0].suffixes), x);
      MergedDomainMembers(AddNew(own, NonEmpty(Roots(vs[0].suffixes))), vs[1..], x);
      forall i | 0 <= i < |vs| && NamesDomain(vs[i], x)
        ensures NamesDomain(vs[0], x) || exists k :: 0 <= k < |vs[1..]| && NamesDomain(vs[1..][k], x)
      {
        if i > 0 { assert vs[1..][i - 1] == vs[i]; }
      }
    }
  }

  lemma MergedNamesCover(vs: seq<Service>, process: string)
    ensures NameListed(MergedProcesses([], vs), process)
            <==> exists i :: 0 <= i < |vs| && NameListed(vs[i].processNames, process)
  {
    var merged := MergedProcesses([], vs);
    if NameListed(merged, process) {
      var k :| 0 <= k < |merged| && SameName(Base(process), merged[k]);
      MergedProcessMembers([], vs, merged[k]);
      var i :| 0 <= i < |vs| && merged[k] in vs[i].processNames;
      assert NameListed(vs[i].processNames, process);
    }
    if i :| 0 <= i < |vs| && NameListed(vs[i].processNames, process) {
      var k :| 0 <= k < |vs[i].processNames| && SameName(Base(process), vs[i].processNames[k]);
      MergedProcessMembers([], vs, vs[i].processNames[k]);
      assert vs[i].processNames[k] in merged;
    }
  }

  lemma MergedDomainsCover(vs: seq<Service>, domain: string)
    ensures DomainListed(MergedDomains([], vs), MergedSuffixes([], vs), domain)
            <==> exists i ::
                   0 <= i < |vs| && DomainListed(vs[i].domains + Roots(vs[i].suffixes), vs[i].suffixes, domain)
  {
    var domains, suffixes := MergedDomains([], vs), MergedSuffixes([], vs);
    MergedDomainMembers([], vs, domain);
    if DomainListed(domains, suffixes, domain) {
      if domain in domains {
        var i :| 0 <= i < |vs| && NamesDomain(vs[i], domain);
        assert DomainListed(vs[i].domains + Roots(vs[i].suffixes), vs[i].suffixes, domain);
      } else {
        var k :| 0 <= k < |suffixes| && HasSuffix(domain, suffixes[k]);
        MergedSuffixMembers([], vs, suffixes[k]);
        var i :| 0 <= i < |vs| && suffixes[k] in vs[i].suffixes;
        assert DomainListed(vs[i].domains + Roots(vs[i].suffixes), vs[i].suffixes, domain);
      }
    }
    if i :| 0 <= i < |vs| && DomainListed(vs[i].domains + Roots(vs[i].suffixes), vs[i].suffixes, domain) {
      if domain in vs[i].domains + Roots(vs[i].suffixes) {
        assert NamesDomain(vs[i], domain);
      } else {
        var k :| 0 <= k < |vs[i].suffixes| && HasSuffix(domain, vs[i].suffixes[k]);
        MergedSuffixMembers([], vs, vs[i].suffixes[k]);
        assert vs[i].suffixes[k] in suffixes;
      }
    }
  }

  predicate AnyListed(vs: seq<Service>, c: Connection) {
    exists i :: 0 <= i < |vs| && ServiceListed(vs[i], c)
  }

  /** Merging and deduplicating every selected service changes no verdict. */
  lemma MergedServicesDecide(vs: seq<Service>, outbound: string, c: Connection)
    ensures Decide(ServiceRuleObjects(vs, outbound), c) == if AnyListed(vs, c) then Some(Route(outbound)) else None
  {
    var action := Route(outbound);
    var processes, domains, suffixes := MergedProcesses([], vs), MergedDomains([], vs), MergedSuffixes([], vs);
    var a := if processes != [] then [ANY.(processNames := processes, action := action)] else [];
    var b := if domains != [] || suffixes != []
             then [ANY.(domains := domains, suffixes := suffixes, action := action)] else [];
    DecideAppend(a, b, c);
    if processes != [] { DecideProcessRule(processes, action, c); }
    if domains != [] || suffixes != [] {
      assert domains + suffixes != [];
      DecideDomainRule(domains, suffixes, action, c);
    }
    MergedNamesCover(vs, c.process);
    MergedDomainsCover(vs, c.domain);
    AnyListedSplits(vs, c);
  }

  lemma AnyListedSplits(vs: seq<Service>, c: Connection)
    ensures AnyListed(vs, c) <==>
            || (exists i :: 0 <= i < |vs| && NameListed(vs[i].processNames, c.process))
            || (exists i ::
                  0 <= i < |vs| && DomainListed(vs[i].domains + Roots(vs[i].suffixes), vs[i].suffixes, c.domain))
  {
  }

  lemma {:induction false} ServiceHitsAgree(vs: seq<Service>, c: Connection)
    requires forall v :: v in vs ==> WellFormedService(v)
    ensures FirstAction(ServiceHits(vs, c.process, c.domain)) == if AnyListed(vs, c) then Some(Route(AWG_OUT)) else None
  {
    if vs != [] {
      ServiceAgrees(vs[0], c);
      ServiceHitsAgree(vs[1..], c);
      FirstActionAppend(ServiceHit(vs[0], Vpn, c.process, c.domain), ServiceHits(vs[1..], c.process, c.domain));
      if i :| 0 <= i < |vs| && ServiceListed(vs[i], c) {
        if i > 0 { assert ServiceListed(vs[1..][i - 1], c); }
      }
      if i :| 0 <= i < |vs[1..]| && ServiceListed(vs[1..][i], c) {
        assert ServiceListed(vs[i + 1], c);
      }
    }
  }

  lemma {:induction false} SelectedWellFormed(services: seq<Service>, ids: seq<string>)
    requires forall v :: v in services ==> WellFormedService(v)
    ensures forall v :: v in SelectedServices(services, ids) ==> WellFormedService(v)
  {
    if services != [] { SelectedWellFormed(services[1..], ids); }
  }

  // ------------------------------------------------ LAN, update hosts, guards

  lemma LanAgrees(c: Connection)
    ensures Decide(LanRules(), c) == FirstAction(LanHits(c.ip))
  {
  }

  lemma UpdatesAgree(c: Connection)
    ensures Decide([ANY.(domains := PRESET_HOSTS, action := Route(AWG_OUT))], c) == FirstAction(UpdateHits(c.domain))
  {
  }

  /** The address family of the destination is one the profile cannot carry. */
  predicate Uncarried(families: Families, c: Connection) {
    c.ip.Some? && !families.Carries(c.ip.value.family)
  }

  lemma GuardsDecide(families: Families, c: Connection)
    ensures Decide(FamilyGuards(families), c) == if Uncarried(families, c) then Some(Reject) else None
  {
    var g4 := if !families.ipv4 then [ANY.(ipVersion := Some(V4), action := Reject)] else [];
    var g6 := if !families.ipv6 then [ANY.(ipVersion := Some(V6), action := Reject)] else [];
    DecideAppend(g4, g6, c);
    assert g4 != [] ==> g4[1..] == [];
    assert g6 != [] ==> g6[1..] == [];
  }

  // ------------------------------------------------------ the compiled policy

  function RouteOf(s: Settings, cats: Catalogs, families: Families, c: Connection): Action {
    Verdict(RouteRules(s, cats, families), FinalOutbound(s), c)
  }

  function HitsOf(s: Settings, cats: Catalogs, c: Connection): seq<Match> {
    Hits(s, cats, c.process, c.domain, c.ip)
  }

  function QueryOf(c: Connection): Query {
    Query(c.process,
          if c.domain == "" then Missing else Given(c.domain),
          if c.ip.None? then Missing else Given(c.ip.value))
  }

  lemma PreambleDecides(c: Connection)
    requires !c.dns
    ensures Decide(Preamble(), c) == None
  {
    var hijack := ANY.(dnsOnly := true, action := HijackDns);
    assert Preamble()[1..] == [hijack] && [hijack][1..] == [];
    assert Decide([hijack], c) == None;
  }

  lemma ModeRulesAgree(s: Settings, cats: Catalogs, families: Families, c: Connection)
    requires NormalSettings(s) && WellFormed(cats)
    ensures Decide(ModeRules(s, cats, families), c) ==
            if s.mode == MODE_SELECTED then
              FirstAction(ServiceHits(SelectedServices(cats.services, s.selectedApps), c.process, c.domain)
                  + UpdateHits(c.domain))
            else if Uncarried(families, c) then Some(Reject) else None
  {
    if s.mode == MODE_SELECTED {
      var vs := SelectedServices(cats.services, s.selectedApps);
      SelectedWellFormed(cats.services, s.selectedApps);
      MergedServicesDecide(vs, AWG_OUT, c);
      ServiceHitsAgree(vs, c);
      UpdatesAgree(c);
      DecideAppend(ServiceRuleObjects(vs, AWG_OUT), [ANY.(domains := PRESET_HOSTS, action := Route(AWG_OUT))], c);
      FirstActionAppend(ServiceHits(vs, c.process, c.domain), UpdateHits(c.domain));
    } else {
      GuardsDecide(families, c);
    }
  }

  /** The rules above the mode-specific tail decide as the hits above it do. */
  lemma HeadAgrees(s: Settings, cats: Catalogs, c: Connection)
    requires NormalSettings(s) && WellFormed(cats) && !c.dns
    ensures Decide(Preamble() + CustomRuleObjects(s.customRules)
                   + RegionalRuleObjects(s, cats.regional) + LanRules(), c)
            == FirstAction(CustomHits(s.customRules, c.process, c.domain, c.ip)
                           + RegionalHits(s, cats.regional, c.process, c.domain) + LanHits(c.ip))
  {
    var custom, regional := CustomRuleObjects(s.customRules), RegionalRuleObjects(s, cats.regional);
    PreambleDecides(c);
    CustomRulesAgree(s.customRules, c);
    RegionalAgrees(s, cats.regional, c);
    LanAgrees(c);
    DecideAppend(Preamble(), custom, c);
    DecideAppend(Preamble() + custom, regional, c);
    DecideAppend(Preamble() + custom + regional, LanRules(), c);
    var ch, rh := CustomHits(s.customRules, c.process, c.domain, c.ip),
                  RegionalHits(s, cats.regional, c.process, c.domain);
    FirstActionAppend(ch, rh);
    FirstActionAppend(ch + rh, LanHits(c.ip));
  }

  /**
   Compiler correctness. For all normalised settings, all well-formed catalogs,
   all profiles and every non-DNS connection, the compiled first-match verdict is
   the interpreter's target, or a rejection exactly when the policy tunnels
   everything, nothing matched and the profile cannot carry the family.
   */
  lemma CompilerAgreesWithInterpreter(s: Settings, cats: Catalogs, families: Families, c: Connection)
    requires NormalSettings(s) && WellFormed(cats) && !c.dns
    ensures RouteOf(s, cats, families, c) ==
            if HitsOf(s, cats, c) != [] then Route(OutboundOf(HitsOf(s, cats, c)[0].target))
            else if s.mode == MODE_ALL && Uncarried(families, c) then Reject
            else Route(OutboundOf(DefaultTarget(s)))
  {
    var head := Preamble() + CustomRuleObjects(s.customRules) + RegionalRuleObjects(s, cats.regional) + LanRules();
    HeadAgrees(s, cats, c);
    ModeRulesAgree(s, cats, families, c);
    DecideAppend(head, ModeRules(s, cats, families), c);
    var above := CustomHits(s.customRules, c.process, c.domain, c.ip)
                 + RegionalHits(s, cats.regional, c.process, c.domain) + LanHits(c.ip);
    if s.mode == MODE_SELECTED {
      FirstActionAppend(above, ServiceHits(SelectedServices(cats.services, s.selectedApps), c.process, c.domain)
          + UpdateHits(c.domain));
    } else {
      assert HitsOf(s, cats, c) == above;
    }
  }

  /** The verdict, read off an explanation. */
  lemma ExplanationPredicts(e: Explanation, s: Settings, cats: Catalogs, families: Families, c: Connection)
    requires NormalSettings(s) && WellFormed(cats) && !c.dns && Explains(e, s, HitsOf(s, cats, c))
    ensures RouteOf(s, cats, families, c)
            == if e.matched == [] && s.mode == MODE_ALL && Uncarried(families, c) then Reject
               else Route(OutboundOf(e.target))
  {
    CompilerAgreesWithInterpreter(s, cats, families, c);
    assert |e.matched| == |HitsOf(s, cats, c)|;
  }

  /** The same, about the two programs: run both on one connection and compare what they return. */
  method CompareCompilerAndInterpreter(p: Profile, s: Settings, cats: Catalogs, c: Connection)
    returns (built: BuildResult, explained: ExplainResult)
    requires NormalSettings(s) && WellFormed(cats) && !c.dns
    ensures built.Built? <==> Buildable(p)
    ensures explained.Explained? <==> c.process != "" || c.domain != "" || c.ip.Some?
    ensures built.Built? && explained.Explained? ==>
              var e := explained.explanation;
              Verdict(built.config.rules, built.config.final, c)
              == if e.matched == [] && s.mode == MODE_ALL && Uncarried(ProfileFamilies(p), c) then Reject
                 else Route(OutboundOf(e.target))
  {
    explained := ExplainConnection(s, cats, ProfileFamilies(p), c);
    built := BuildConfig(p, s, cats);
  }

  method ExplainConnection(s: Settings, cats: Catalogs, families: Families, c: Connection)
    returns (explained: ExplainResult)
    requires NormalSettings(s) && WellFormed(cats) && !c.dns
    ensures explained.Explained? <==> c.process != "" || c.domain != "" || c.ip.Some?
    ensures explained.Explained? ==>
              var e := explained.explanation;
              RouteOf(s, cats, families, c)
              == if e.matched == [] && s.mode == MODE_ALL && Uncarried(families, c) then Reject
                 else Route(OutboundOf(e.target))
  {
    explained := ExplainRoute(s, cats, QueryOf(c));
    if explained.Explained? {
      ExplanationPredicts(explained.explanation, s, cats, families, c);
    }
  }
}
