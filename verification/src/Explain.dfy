/**
 The route interpreter of client/smart/explain.go. It reads the settings
 directly: no rule objects, no merging of services, no split of a service into a
 process rule and a domain rule.
 */
module Explain {
  import opened Options
  import opened Addresses
  import opened Text
  import opened Policy

  /** What `normalizeDomain` and `net.ParseIP` made of the user's input. */
  datatype Input<T> = Missing | Malformed | Given(value: T)

  datatype Query = Query(application: string, domain: Input<string>, ip: Input<Ip>)

  datatype QueryError = BadDomain | BadIp | EmptyQuery

  datatype Match = Match(target: Target, name: string)

  datatype Explanation = Explanation(target: Target, rule: string, matched: seq<string>)

  datatype ExplainResult = Explained(explanation: Explanation) | Refused(error: QueryError)

  predicate DomainMatches(domain: string, rule: string) {
    var root := TrimPrefix(TrimSuffix(Lower(rule), "."), ".");
    domain == root || HasSuffix(domain, "." + root)
  }

  predicate CustomMatches(r: CustomRule, application: string, domain: string, ip: Option<Ip>) {
    && r.enabled
    && match r.value
       case Application(n) =>
         if IsPath(n) then SameName(Clean(application), Clean(n)) else SameName(Base(application), n)
       case Domain(d) => domain != "" && DomainMatches(domain, d)
       case Cidr(p) => ip.Some? && Contains(p, ip.value)
  }

  predicate NameMatches(names: seq<string>, application: string) {
    exists i :: 0 <= i < |names| && SameName(Base(application), names[i])
  }

  predicate SuffixMatches(suffixes: seq<string>, domain: string) {
    domain != "" && exists i :: 0 <= i < |suffixes| && DomainMatches(domain, suffixes[i])
  }

  predicate ServiceMatches(v: Service, application: string, domain: string) {
    NameMatches(v.processNames, application) || domain in v.domains || SuffixMatches(v.suffixes, domain)
  }

  function CustomHit(r: CustomRule, application: string, domain: string, ip: Option<Ip>): seq<Match> {
    if CustomMatches(r, application, domain, ip) then [Match(r.target, r.name)] else []
  }

  function CustomHits(rules: seq<CustomRule>, application: string, domain: string, ip: Option<Ip>): seq<Match> {
    if rules == [] then []
    else CustomHit(rules[0], application, domain, ip) + CustomHits(rules[1..], application, domain, ip)
  }

  function ServiceTarget(s: Settings, v: Service): Target {
    if ServiceUsesVpn(s, v.id) then Vpn else Direct
  }

  function ServiceHit(v: Service, target: Target, application: string, domain: string): seq<Match> {
    if ServiceMatches(v, application, domain) then [Match(target, v.name)] else []
  }

  function RegionalHits(s: Settings, vs: seq<Service>, application: string, domain: string): seq<Match> {
    if vs == [] then []
    else ServiceHit(vs[0], ServiceTarget(s, vs[0]), application, domain) + RegionalHits(s, vs[1..], application, domain)
  }

  function ServiceHits(vs: seq<Service>, application: string, domain: string): seq<Match> {
    if vs == [] then []
    else ServiceHit(vs[0], Vpn, application, domain) + ServiceHits(vs[1..], application, domain)
  }

  const LAN_MATCH := Match(Direct, "LAN")
  const UPDATE_MATCH := Match(Vpn, "preset updates")

  function LanHits(ip: Option<Ip>): seq<Match> {
    if ip.Some? && AnyContains(LOCAL_CIDRS, ip.value) then [LAN_MATCH] else []
  }

  function UpdateHits(domain: string): seq<Match> {
    if domain == "github.com" || domain == "raw.githubusercontent.com" then [UPDATE_MATCH] else []
  }

  function HeadHits(s: Settings, cats: Catalogs, application: string, domain: string, ip: Option<Ip>): seq<Match> {
    CustomHits(s.customRules, application, domain, ip) + RegionalHits(s, cats.regional, application, domain)
        + LanHits(ip)
  }

  function ModeHits(s: Settings, cats: Catalogs, application: string, domain: string): seq<Match> {
    if s.mode == MODE_SELECTED
    then ServiceHits(SelectedServices(cats.services, s.selectedApps), application, domain) + UpdateHits(domain)
    else []
  }

  /** Every entry of the policy that matches, in priority order. */
  function Hits(s: Settings, cats: Catalogs, application: string, domain: string, ip: Option<Ip>): seq<Match> {
    HeadHits(s, cats, application, domain, ip) + ModeHits(s, cats, application, domain)
  }

  function DefaultTarget(s: Settings): Target {
    if s.mode == MODE_SELECTED then Direct else Vpn
  }

  function Names(ms: seq<Match>): seq<string> {
    seq(|ms|, i requires 0 <= i < |ms| => ms[i].name)
  }

  /** The first hit decides, the default does when there is none, and every hit is listed. */
  predicate Explains(e: Explanation, s: Settings, hits: seq<Match>) {
    && e.matched == Names(hits)
    && e.target == (if hits == [] then DefaultTarget(s) else hits[0].target)
    && (hits != [] ==> e.rule == hits[0].name)
  }

  function Record(e: Explanation, m: Match): Explanation {
    (if e.matched == [] then e.(target := m.target, rule := m.name) else e).(matched := e.matched + [m.name])
  }

  lemma RecordExplains(e: Explanation, s: Settings, hits: seq<Match>, m: Match)
    requires Explains(e, s, hits)
    ensures Explains(Record(e, m), s, hits + [m])
  {
  }

  method MatchNames(names: seq<string>, application: string) returns (matched: bool)
    ensures matched == NameMatches(names, application)
  {
    matched := false;
    for i := 0 to |names|
      invariant matched <==> exists k :: 0 <= k < i && SameName(Base(application), names[k])
    {
      matched := matched || SameName(Base(application), names[i]);
    }
  }

  method MatchDomains(domains: seq<string>, domain: string) returns (matched: bool)
    ensures matched == (domain in domains)
  {
    matched := false;
    for i := 0 to |domains|
      invariant matched <==> domain in domains[..i]
    {
      matched := matched || domain == domains[i];
    }
  }

  method MatchSuffixes(suffixes: seq<string>, domain: string) returns (matched: bool)
    ensures matched == SuffixMatches(suffixes, domain)
  {
    matched := false;
    for i := 0 to |suffixes|
      invariant matched ==> SuffixMatches(suffixes, domain)
      invariant matched || domain == "" || NoneMatches(suffixes, i, domain)
    {
      var hit := domain != "" && DomainMatches(domain, suffixes[i]);
      matched := matched || hit;
    }
  }

  predicate NoneMatches(suffixes: seq<string>, n: nat, domain: string)
    requires n <= |suffixes|
  {
    forall k :: 0 <= k < n ==> !DomainMatches(domain, suffixes[k])
  }

  /** Tries one service and, when it matches, records it. */
  method TryService(e0: Explanation, s: Settings, v: Service, target: Target, application: string, domain: string,
                    ghost done: seq<Match>)
    returns (e: Explanation)
    requires Explains(e0, s, done)
    ensures Explains(e, s, done + ServiceHit(v, target, application, domain))
  {
    var byName := MatchNames(v.processNames, application);
    var byDomain := MatchDomains(v.domains, domain);
    var bySuffix := MatchSuffixes(v.suffixes, domain);
    e := e0;
    if byName || byDomain || bySuffix {
      RecordExplains(e, s, done, Match(target, v.name));
      e := Record(e, Match(target, v.name));
    } else {
      assert done + [] == done;
    }
  }

  method TryCustom(e0: Explanation, s: Settings, r: CustomRule, application: string, domain: string, ip: Option<Ip>,
                   ghost done: seq<Match>)
    returns (e: Explanation)
    requires Explains(e0, s, done)
    ensures Explains(e, s, done + CustomHit(r, application, domain, ip))
  {
    e := e0;
    if CustomMatches(r, application, domain, ip) {
      RecordExplains(e, s, done, Match(r.target, r.name));
      e := Record(e, Match(r.target, r.name));
    } else {
      assert done + [] == done;
    }
  }

  lemma CustomStep(done: seq<Match>, rules: seq<CustomRule>, i: nat, application: string, domain: string,
                   ip: Option<Ip>)
    requires i < |rules|
    ensures done + CustomHits(rules[i..], application, domain, ip)
         == done + CustomHit(rules[i], application, domain, ip) + CustomHits(rules[i + 1..], application, domain, ip)
  {
  }

  method ExplainCustom(e0: Explanation, s: Settings, application: string, domain: string, ip: Option<Ip>)
    returns (e: Explanation)
    requires Explains(e0, s, [])
    ensures Explains(e, s, CustomHits(s.customRules, application, domain, ip))
  {
    e := e0;
    var rules := s.customRules;
    ghost var done: seq<Match> := [];
    for i := 0 to |rules|
      invariant done + CustomHits(rules[i..], application, domain, ip) == CustomHits(rules, application, domain, ip)
      invariant Explains(e, s, done)
    {
      e := TryCustom(e, s, rules[i], application, domain, ip, done);
      CustomStep(done, rules, i, application, domain, ip);
      done := done + CustomHit(rules[i], application, domain, ip);
    }
    assert done + [] == done;
  }

  lemma RegionalStep(done: seq<Match>, s: Settings, vs: seq<Service>, i: nat, application: string, domain: string)
    requires i < |vs|
    ensures done + RegionalHits(s, vs[i..], application, domain)
         == done + ServiceHit(vs[i], ServiceTarget(s, vs[i]), application, domain)
             + RegionalHits(s, vs[i + 1..], application, domain)
  {
    var rest := vs[i..];
    assert rest[1..] == vs[i + 1..] && rest[0] == vs[i];
    Reassociate(done, ServiceHit(rest[0], ServiceTarget(s, rest[0]), application, domain),
                RegionalHits(s, rest[1..], application, domain));
  }

  lemma ServiceStep(done: seq<Match>, vs: seq<Service>, i: nat, application: string, domain: string)
    requires i < |vs|
    ensures done + ServiceHits(vs[i..], application, domain)
         == done + ServiceHit(vs[i], Vpn, application, domain) + ServiceHits(vs[i + 1..], application, domain)
  {
    var rest := vs[i..];
    assert rest[1..] == vs[i + 1..] && rest[0] == vs[i];
    Reassociate(done, ServiceHit(rest[0], Vpn, application, domain), ServiceHits(rest[1..], application, domain));
  }

  method ExplainRegional(e0: Explanation, s: Settings, vs: seq<Service>, application: string, domain: string,
                         ghost hits: seq<Match>)
    returns (e: Explanation)
    requires Explains(e0, s, hits)
    ensures Explains(e, s, hits + RegionalHits(s, vs, application, domain))
  {
    e := e0;
    ghost var done := hits;
    for i := 0 to |vs|
      invariant done + RegionalHits(s, vs[i..], application, domain) == hits + RegionalHits(s, vs, application, domain)
      invariant Explains(e, s, done)
    {
      e := TryService(e, s, vs[i], ServiceTarget(s, vs[i]), application, domain, done);
      RegionalStep(done, s, vs, i, application, domain);
      done := done + ServiceHit(vs[i], ServiceTarget(s, vs[i]), application, domain);
    }
    assert done + [] == done;
  }

  method ExplainLan(e0: Explanation, s: Settings, ip: Option<Ip>, ghost hits: seq<Match>) returns (e: Explanation)
    requires Explains(e0, s, hits)
    ensures Explains(e, s, hits + LanHits(ip))
  {
    e := e0;
    if ip.Some? {
      for i := 0 to |LOCAL_CIDRS|
        invariant e == e0
        invariant forall k :: 0 <= k < i ==> !Contains(LOCAL_CIDRS[k], ip.value)
      {
        if Contains(LOCAL_CIDRS[i], ip.value) {
          RecordExplains(e, s, hits, LAN_MATCH);
          e := Record(e, LAN_MATCH);
          return;
        }
      }
    }
    assert hits + LanHits(ip) == hits;
  }

  method ExplainServices(e0: Explanation, s: Settings, vs: seq<Service>, application: string, domain: string,
                         ghost hits: seq<Match>)
    returns (e: Explanation)
    requires Explains(e0, s, hits)
    ensures Explains(e, s, hits + ServiceHits(vs, application, domain))
  {
    e := e0;
    ghost var done := hits;
    for i := 0 to |vs|
      invariant done + ServiceHits(vs[i..], application, domain) == hits + ServiceHits(vs, application, domain)
      invariant Explains(e, s, done)
    {
      e := TryService(e, s, vs[i], Vpn, application, domain, done);
      ServiceStep(done, vs, i, application, domain);
      done := done + ServiceHit(vs[i], Vpn, application, domain);
    }
    assert done + [] == done;
  }

  method ExplainHead(e0: Explanation, s: Settings, cats: Catalogs, application: string, domain: string, ip: Option<Ip>)
    returns (e: Explanation)
    requires Explains(e0, s, [])
    ensures Explains(e, s, HeadHits(s, cats, application, domain, ip))
  {
    e := ExplainCustom(e0, s, application, domain, ip);
    ghost var hits := CustomHits(s.customRules, application, domain, ip);
    e := ExplainRegional(e, s, cats.regional, application, domain, hits);
    e := ExplainLan(e, s, ip, hits + RegionalHits(s, cats.regional, application, domain));
  }

  method ExplainMode(e0: Explanation, s: Settings, cats: Catalogs, application: string, domain: string,
                     ghost hits: seq<Match>)
    returns (e: Explanation)
    requires Explains(e0, s, hits)
    ensures Explains(e, s, hits + ModeHits(s, cats, application, domain))
  {
    e := e0;
    if s.mode == MODE_SELECTED {
      var selected := SelectedServices(cats.services, s.selectedApps);
      e := ExplainServices(e, s, selected, application, domain, hits);
      ghost var found := ServiceHits(selected, application, domain);
      if domain == "github.com" || domain == "raw.githubusercontent.com" {
        RecordExplains(e, s, hits + found, UPDATE_MATCH);
        e := Record(e, UPDATE_MATCH);
      }
      Reassociate(hits, found, UpdateHits(domain));
      assert hits + found + [] == hits + found;
    } else {
      assert hits + [] == hits;
    }
  }

  function DomainOf(q: Query): string {
    if q.domain.Given? then q.domain.value else ""
  }

  function IpOf(q: Query): Option<Ip> {
    if q.ip.Given? then Some(q.ip.value) else None
  }

  predicate Answerable(q: Query) {
    && !q.domain.Malformed? && !q.ip.Malformed?
    && (q.application != "" || DomainOf(q) != "" || q.ip.Given?)
  }

  method ExplainRoute(s: Settings, cats: Catalogs, q: Query) returns (r: ExplainResult)
    ensures r.Explained? <==> Answerable(q)
    ensures r == Refused(BadDomain) <==> q.domain.Malformed?
    ensures r == Refused(BadIp) <==> !q.domain.Malformed? && q.ip.Malformed?
    ensures r.Explained? ==> Explains(r.explanation, s, Hits(s, cats, q.application, DomainOf(q), IpOf(q)))
  {
    if q.domain.Malformed? { return Refused(BadDomain); }
    if q.ip.Malformed? { return Refused(BadIp); }
    var application, domain, ip := q.application, DomainOf(q), IpOf(q);
    if application == "" && domain == "" && ip.None? { return Refused(EmptyQuery); }
    var e := Explanation(Vpn, "all through VPN", []);
    if s.mode == MODE_SELECTED {
      e := Explanation(Direct, "not selected for VPN", []);
    }
    e := ExplainHead(e, s, cats, application, domain, ip);
    e := ExplainMode(e, s, cats, application, domain, HeadHits(s, cats, application, domain, ip));
    assert Hits(s, cats, application, domain, ip)
           == HeadHits(s, cats, application, domain, ip) + ModeHits(s, cats, application, domain);
    r := Explained(e);
  }
}
