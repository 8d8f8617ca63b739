/**
 Routing settings, service groups, and the rule language the engine runs.
 The engine's semantics are an assumption of this model: rules are tried in
 order, the first match that routes, rejects or hijacks decides, the domain and
 suffix lists of one rule are alternatives, and an attribute the connection
 does not have never matches.
 */
module Policy {
  import opened Options
  import opened Addresses
  import opened Text

  // ---------------------------------------------------------------- settings

  datatype Target = Vpn | Direct

  datatype RuleValue = Application(name: string) | Domain(domain: string) | Cidr(prefix: Prefix)

  datatype CustomRule = CustomRule(name: string, value: RuleValue, target: Target, enabled: bool)

  datatype Service = Service(
    id: string,
    name: string,
    processNames: seq<string>,
    domains: seq<string>,
    suffixes: seq<string>)

  datatype Settings = Settings(
    version: int,
    mode: string,
    protection: string,
    fallbackProfiles: seq<string>,
    serviceRoutes: map<string, map<string, bool>>,
    selectedApps: seq<string>,
    customRules: seq<CustomRule>)

  /** The bundled regional groups and the verified service catalog. */
  datatype Catalogs = Catalogs(regional: seq<Service>, services: seq<Service>)

  const MODE_ALL := "all"
  const MODE_SELECTED := "selected"
  const VK_SERVICE_ID := "vk"
  const RUSSIAN_SERVICE_ID := "russian-services"

  function NormalizeMode(mode: string): string {
    var m := Lower(TrimSpace(mode));
    if m == MODE_SELECTED || m == "social" || m == "native" then MODE_SELECTED else MODE_ALL
  }

  predicate IsRegional(id: string) {
    id == VK_SERVICE_ID || id == RUSSIAN_SERVICE_ID
  }

  function ServiceUsesVpn(s: Settings, id: string): bool {
    var mode := NormalizeMode(s.mode);
    if IsRegional(id) then
      if mode in s.serviceRoutes && id in s.serviceRoutes[mode] then s.serviceRoutes[mode][id]
      else mode == MODE_ALL
    else mode == MODE_ALL || id in s.selectedApps
  }

  function SelectedServices(services: seq<Service>, ids: seq<string>): seq<Service> {
    if services == [] then []
    else (if services[0].id in ids then [services[0]] else []) + SelectedServices(services[1..], ids)
  }

  // ------------------------------------------------ what normalisation leaves

  /** A name or path the normaliser accepts for an application ends in ".exe". */
  predicate ExeName(n: string) {
    HasSuffix(Lower(n), ".exe")
  }

  predicate NormalDomain(d: string) {
    d != "" && Lower(d) == d && d[0] != '.' && d[|d| - 1] != '.'
  }

  predicate NormalRule(r: CustomRule) {
    match r.value
    case Application(n) => ExeName(n)
    case Domain(d) => NormalDomain(d)
    case Cidr(p) => ValidPrefix(p)
  }

  predicate NormalSuffix(x: string) {
    x != "" && x[0] == '.' && NormalDomain(x[1..])
  }

  predicate WellFormedService(v: Service) {
    && (forall n :: n in v.processNames ==> ExeName(n))
    && (forall d :: d in v.domains ==> NormalDomain(d))
    && (forall x :: x in v.suffixes ==> NormalSuffix(x))
  }

  predicate WellFormed(cats: Catalogs) {
    && (forall v :: v in cats.regional ==> WellFormedService(v) && IsRegional(v.id) && v.domains + v.suffixes != [])
    && (forall v :: v in cats.services ==> WellFormedService(v))
  }

  predicate NormalSettings(s: Settings) {
    && (s.mode == MODE_ALL || s.mode == MODE_SELECTED)
    && (forall r :: r in s.customRules ==> NormalRule(r))
  }

  // ------------------------------------------------------------- the engine

  const AWG_OUT := "awg-out"
  const DIRECT_OUT := "direct"
  const PROBE_INBOUND := "pinus-probe"

  /** An empty string or `None` is an attribute the engine could not determine. */
  datatype Connection = Connection(
    inbound: string,
    dns: bool,
    process: string,
    domain: string,
    ip: Option<Ip>)

  datatype Action = Sniff | HijackDns | Reject | Route(outbound: string)

  /** An empty list, `None` or `false` is a condition the rule does not have. */
  datatype Rule = Rule(
    inbounds: seq<string>,
    dnsOnly: bool,
    processNames: seq<string>,
    processPaths: seq<string>,
    domains: seq<string>,
    suffixes: seq<string>,
    cidrs: seq<Prefix>,
    ipVersion: Option<Family>,
    action: Action)

  const ANY := Rule([], false, [], [], [], [], [], None, Sniff)

  predicate NameListed(names: seq<string>, process: string) {
    process != "" && exists i :: 0 <= i < |names| && SameName(Base(process), names[i])
  }

  predicate PathListed(paths: seq<string>, process: string) {
    process != "" && exists i :: 0 <= i < |paths| && SameName(process, paths[i])
  }

  predicate DomainListed(domains: seq<string>, suffixes: seq<string>, domain: string) {
    && domain != ""
    && (domain in domains || exists i :: 0 <= i < |suffixes| && HasSuffix(domain, suffixes[i]))
  }

  predicate Matches(r: Rule, c: Connection) {
    && (r.inbounds == [] || c.inbound in r.inbounds)
    && (r.dnsOnly ==> c.dns)
    && (r.processNames == [] || NameListed(r.processNames, c.process))
    && (r.processPaths == [] || PathListed(r.processPaths, c.process))
    && ((r.domains == [] && r.suffixes == []) || DomainListed(r.domains, r.suffixes, c.domain))
    && (r.cidrs == [] || (c.ip.Some? && AnyContains(r.cidrs, c.ip.value)))
    && (r.ipVersion.Some? ==> c.ip.Some? && c.ip.value.family == r.ipVersion.value)
  }

  function Decide(rules: seq<Rule>, c: Connection): Option<Action> {
    if rules == [] then None
    else if Matches(rules[0], c) && rules[0].action != Sniff then Some(rules[0].action)
    else Decide(rules[1..], c)
  }

  lemma {:induction false} DecideAppend(a: seq<Rule>, b: seq<Rule>, c: Connection)
    ensures Decide(a + b, c) == if Decide(a, c).Some? then Decide(a, c) else Decide(b, c)
  {
    if a == [] {
      assert a + b == b;
    } else {
      assert (a + b)[1..] == a[1..] + b;
      DecideAppend(a[1..], b, c);
    }
  }

  function Verdict(rules: seq<Rule>, final: string, c: Connection): Action {
    var d := Decide(rules, c);
    if d.Some? then d.value else Route(final)
  }

  // ------------------------------------------------------------ DNS rules

  datatype DnsRule = DnsRule(domains: seq<string>, suffixes: seq<string>, server: string, strategy: string)

  function DnsServerFor(rules: seq<DnsRule>, final: string, domain: string): string {
    if rules == [] then final
    else if DomainListed(rules[0].domains, rules[0].suffixes, domain) then rules[0].server
    else DnsServerFor(rules[1..], final, domain)
  }
}
