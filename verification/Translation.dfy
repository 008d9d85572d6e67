// What the passes of the translator share: the input they read and the
// configuration they build up in place.
module TranslationState {
  import opened Wrappers
  import DnsTable
  import RouteTable

  // ---------------------------------------------------------------------
  // Input
  // ---------------------------------------------------------------------

  // A proxy entry. `deadServer`: the server is a loopback address or the port is
  // out of range; `endpoint`: it has a server and a port; `node`: what the
  // translator of its protocol produces, nothing for an unsupported one. Every such
  // translator copies `dialerProxy`, the outbound this one connects through.
  datatype RawProxy = RawProxy(
    name: string, kind: string, deadServer: bool, endpoint: bool, node: Option<Node>, dialerProxy: string)

  // The fields of a translated proxy that later passes and restarts look at.
  datatype Node = Node(kind: string, server: string, port: int, username: string, echName: string)

  // A proxy-group. Entries of `proxies` that are not strings are None.
  datatype RawGroup = RawGroup(
    name: string, kind: string, proxies: seq<Option<string>>, interval: Option<int>, tolerance: Option<int>)

  // The host of a name server: a domain name, or an address. `bare` holds if the
  // address is recognized without trimming the entry first.
  datatype Host = Domain(name: string) | Ip(text: string, bare: bool)

  datatype Nameserver =
    | Blank
    | System
    | FakeIp
    | Rcode
    | Dhcp
    | Url(scheme: string, h3: Option<string>, host: Host)

  datatype RawDns = RawDns(
    enable: bool,
    nameservers: seq<Nameserver>,
    fallback: seq<Nameserver>,
    defaults: seq<Nameserver>,        // default-nameserver
    proxyServers: seq<Nameserver>,    // proxy-server-nameserver
    enhancedMode: string,
    fakeIPFilter: seq<string>,
    fakeIPFilterMode: string,
    useHosts: Option<bool>,
    preferH3: bool)

  datatype RawConfig = RawConfig(
    proxies: seq<RawProxy>,
    groups: seq<RawGroup>,
    dns: RawDns,
    hosts: seq<string>)               // the names of the hosts table, sorted

  // ---------------------------------------------------------------------
  // Output
  // ---------------------------------------------------------------------

  datatype Probe = Probe(interval: string, idleTimeout: string, tolerance: Option<int>)

  datatype Group = Group(
    kind: string, tag: string, members: seq<string>, chosen: Option<string>, probe: Option<Probe>)

  datatype Outbound =
    | Direct(tag: string)
    | Proxy(tag: string, node: Node, detour: string)
    | Grouped(group: Group)

  datatype Server = Server(
    kind: string, tag: string, addr: Option<Host>, detour: Option<string>, resolver: Option<string>)

  datatype Dns = Dns(servers: seq<Server>, rules: seq<DnsTable.Rule>, final: string)

  datatype RuleSetDef = RuleSetDef(tag: string, url: string, detour: Option<string>)

  const GITHUB_HOST := "raw.githubusercontent.com"
  const RAW_GITHUB_PREFIX := "https://" + GITHUB_HOST + "/"

  function OutboundTag(ob: Outbound): string {
    match ob
    case Direct(tag) => tag
    case Proxy(tag, _, _) => tag
    case Grouped(g) => g.tag
  }

  class Translation {
    var outbounds: seq<Outbound>
    var proxyTags: set<string>
    var stubTags: map<string, string>
    var deadTags: set<string>                      // invalidHealthCheckProxyTags
    var groupTagOrder: seq<string>
    var groupTags: set<string>
    var ruleSetDefs: map<string, RuleSetDef>
    var echQueryServers: seq<string>
    var dnsTerminalRules: seq<DnsTable.Rule>
    var dnsEnabled: bool
    var country: string
    var rules: seq<RouteTable.RouteRule>           // route.rules
    var ruleSet: seq<RuleSetDef>                   // route.rule_set
    var final: string                              // route.final
    var defaultDomainResolver: string              // route.default_domain_resolver
    var dns: Option<Dns>

    constructor (country: string)
      ensures outbounds == [] && proxyTags == {} && stubTags == map[] && deadTags == {}
      ensures groupTagOrder == [] && groupTags == {} && ruleSetDefs == map[] && echQueryServers == []
      ensures dnsTerminalRules == [] && !dnsEnabled && this.country == country
      ensures rules == [] && ruleSet == [] && final == "" && defaultDomainResolver == "" && dns == None
    {
      outbounds, proxyTags, stubTags, deadTags := [], {}, map[], {};
      groupTagOrder, groupTags, ruleSetDefs, echQueryServers := [], {}, map[], [];
      dnsTerminalRules, dnsEnabled, this.country := [], false, country;
      rules, ruleSet, final, defaultDomainResolver, dns := [], [], "", "", None;
    }

    // firstGroupTag
    function FirstGroupTag(): string
      reads this`groupTagOrder
    {
      if groupTagOrder == [] then "" else groupTagOrder[0]
    }
  }

  // ---------------------------------------------------------------------
  // Rule-set definitions
  // ---------------------------------------------------------------------

  // registerRuleSet: the first definition of a tag stays
  function Registered(defs: map<string, RuleSetDef>, tag: string, url: string): map<string, RuleSetDef> {
    if tag in defs then defs else defs[tag := RuleSetDef(tag, url, Some("DIRECT"))]
  }

  function GeositeUrl(name: string): string {
    RAW_GITHUB_PREFIX + "SagerNet/sing-geosite/rule-set/geosite-" + name + ".srs"
  }

  function GeoipUrl(name: string): string {
    RAW_GITHUB_PREFIX + "SagerNet/sing-geoip/rule-set/geoip-" + name + ".srs"
  }

  method RegisterRuleSet(tag: string, url: string, t: Translation)
    modifies t`ruleSetDefs
    ensures t.ruleSetDefs == Registered(old(t.ruleSetDefs), tag, url)
  {
    if tag in t.ruleSetDefs {
      return;
    }
    t.ruleSetDefs := t.ruleSetDefs[tag := RuleSetDef(tag, url, Some("DIRECT"))];
  }

  // ---------------------------------------------------------------------
  // Filtering a list of names
  // ---------------------------------------------------------------------

  function Keep(names: seq<string>, ok: set<string>): seq<string> {
    if names == [] then []
    else (if names[0] in ok then [names[0]] else []) + Keep(names[1..], ok)
  }

  lemma KeepMembers(names: seq<string>, ok: set<string>)
    ensures forall n :: n in Keep(names, ok) <==> n in names && n in ok
  {
  }

  lemma {:induction false} KeepKeep(names: seq<string>, wide: set<string>, ok: set<string>)
    requires ok <= wide
    ensures Keep(Keep(names, wide), ok) == Keep(names, ok)
  {
    if names == [] {
    } else {
      KeepKeep(names[1..], wide, ok);
      var rest := Keep(names[1..], wide);
      if names[0] in wide {
        assert ([names[0]] + rest)[1..] == rest;
      } else {
        assert [] + rest == rest;
      }
    }
  }

  // If the first name kept by a wide filter passes a narrow one, it is the first
  // there too.
  lemma KeepFirst(names: seq<string>, wide: set<string>, ok: set<string>)
    requires ok <= wide && Keep(names, wide) != [] && Keep(names, wide)[0] in ok
    ensures Keep(names, ok) != [] && Keep(names, ok)[0] == Keep(names, wide)[0]
  {
  }
}
