// The DNS module of the output: servers, the user's own rules, and the generated
// rules around them.
module DnsRules {
  import opened Wrappers
  import opened TranslationState
  import opened DnsTable
  import opened DnsServers

  // ---------------------------------------------------------------------
  // The user's rules
  // ---------------------------------------------------------------------

  function NamesRule(domains: seq<string>, suffixes: seq<string>, server: string): Rule {
    Rule("", "", server, Unset, NoSets, None, Cond(None, domains, suffixes, None))
  }

  predicate IsPattern(f: string) {
    HasPrefix(f, "*.") || Contains(f, "*")
  }

  function Suffix(f: string): string {
    if HasPrefix(f, "*.") then f[1..]
    else "." + if HasPrefix(f, "*") then f[1..] else f
  }

  function Suffixes(filter: seq<string>): seq<string> {
    if filter == [] then []
    else (if IsPattern(filter[0]) then [Suffix(filter[0])] else []) + Suffixes(filter[1..])
  }

  function Domains(filter: seq<string>): seq<string> {
    if filter == [] then []
    else (if IsPattern(filter[0]) then [] else [filter[0]]) + Domains(filter[1..])
  }

  lemma FilterStep(suffixes: seq<string>, domains: seq<string>, filter: seq<string>, i: int)
    requires 0 <= i < |filter|
    ensures suffixes + Suffixes(filter[i..])
         == (if IsPattern(filter[i]) then suffixes + [Suffix(filter[i])] else suffixes) + Suffixes(filter[i + 1..])
    ensures domains + Domains(filter[i..])
         == (if IsPattern(filter[i]) then domains else domains + [filter[i]]) + Domains(filter[i + 1..])
  {
    assert filter[i..][1..] == filter[i + 1..];
  }

  method SplitFilter(filter: seq<string>) returns (suffixes: seq<string>, domains: seq<string>)
    ensures suffixes == Suffixes(filter) && domains == Domains(filter)
  {
    suffixes, domains := [], [];
    for i := 0 to |filter|
      invariant suffixes + Suffixes(filter[i..]) == Suffixes(filter)
      invariant domains + Domains(filter[i..]) == Domains(filter)
    {
      var f := filter[i];
      FilterStep(suffixes, domains, filter, i);
      if HasPrefix(f, "*.") {
        suffixes := suffixes + [f[1..]];
      } else if Contains(f, "*") {
        suffixes := suffixes + ["." + if HasPrefix(f, "*") then f[1..] else f];
      } else {
        domains := domains + [f];
      }
    }
  }

  function FirstTag(servers: seq<Server>): string {
    if servers == [] then "" else servers[0].tag
  }

  function FirstNameserver(d: RawDns, detour: string): string {
    FirstTag(NameserverEntries(d, detour))
  }

  predicate Filters(d: RawDns, detour: string) {
    UsesFakeIP(d) && d.fakeIPFilter != [] && FirstNameserver(d, detour) != ""
  }

  predicate Whitelist(d: RawDns) {
    d.fakeIPFilterMode == "whitelist"
  }

  function FilterRules(filter: seq<string>, server: string): seq<Rule> {
    (if Suffixes(filter) == [] then [] else [NamesRule([], Suffixes(filter), server)])
    + if Domains(filter) == [] then [] else [NamesRule(Domains(filter), [], server)]
  }

  function FilterPart(d: RawDns, detour: string): seq<Rule> {
    if !Filters(d, detour) then []
    else FilterRules(d.fakeIPFilter, if Whitelist(d) then FAKEIP_SERVER.tag else FirstNameserver(d, detour))
  }

  function UserRules(cfg: RawConfig, detour: string): seq<Rule> {
    FilterPart(cfg.dns, detour) + if UsesHosts(cfg) then [NamesRule(cfg.hosts, [], HOSTS_SERVER.tag)] else []
  }

  // The rule that must come after all others.
  function Terminal(d: RawDns, detour: string): seq<Rule> {
    if Filters(d, detour) && Whitelist(d) then [NamesRule([], [], FirstNameserver(d, detour))] else []
  }

  function FinalServer(d: RawDns, detour: string): string {
    if FallbackEntries(d, detour) != [] then FirstTag(FallbackEntries(d, detour)) else FirstNameserver(d, detour)
  }

  function TranslatedDns(cfg: RawConfig, detour: string): Dns {
    if !cfg.dns.enable then Dns([BOOTSTRAP], [], BOOTSTRAP.tag)
    else Dns(Servers(cfg, detour), UserRules(cfg, detour), FinalServer(cfg.dns, detour))
  }

  // The fake-ip server and its filter.
  method HandleFakeIP(d: RawDns, firstNSTag: string, servers: seq<Server>, detour: string, t: Translation)
    returns (servers': seq<Server>, rules: seq<Rule>)
    requires firstNSTag == FirstNameserver(d, detour)
    modifies t`dnsTerminalRules
    ensures servers' == servers + if UsesFakeIP(d) then [FAKEIP_SERVER] else []
    ensures rules == FilterPart(d, detour)
    ensures t.dnsTerminalRules == old(t.dnsTerminalRules) + Terminal(d, detour)
  {
    servers', rules := servers, [];
    if d.enhancedMode == "fake-ip" {
      servers' := servers' + [FAKEIP_SERVER];
      if |d.fakeIPFilter| > 0 && firstNSTag != "" {
        var suffixes, domains := SplitFilter(d.fakeIPFilter);
        var target := firstNSTag;
        if d.fakeIPFilterMode == "whitelist" {
          target := FAKEIP_SERVER.tag;
          t.dnsTerminalRules := t.dnsTerminalRules + [NamesRule([], [], firstNSTag)];
        }
        if |suffixes| > 0 {
          rules := rules + [NamesRule([], suffixes, target)];
        }
        if |domains| > 0 {
          rules := rules + [NamesRule(domains, [], target)];
        }
      }
    }
  }

  method BuildAll(d: RawDns, detour: string)
    returns (servers: seq<Server>, defaultTags: seq<string>, nameserverTags: seq<string>, fallbackTags: seq<string>)
    ensures servers == DefaultEntries(d) + NameserverEntries(d, detour) + FallbackEntries(d, detour)
      + Entries(d.proxyServers, "psn-", "", 0)
    ensures defaultTags == Tags(DefaultEntries(d))
    ensures nameserverTags == Tags(NameserverEntries(d, detour))
    ensures fallbackTags == Tags(FallbackEntries(d, detour))
  {
    servers, defaultTags := BuildDNSServerEntries(d.defaults, "def-", "", []);
    servers, nameserverTags := BuildDNSServerEntries(d.nameservers, "ns-", detour, servers);
    servers, fallbackTags := BuildDNSServerEntries(d.fallback, "fb-", detour, servers);
    var unused;
    servers, unused := BuildDNSServerEntries(d.proxyServers, "psn-", "", servers);
  }

  // The servers named in the input with their resolvers, and the candidate for
  // default_domain_resolver.
  method NamedServersOf(d: RawDns, detour: string)
    returns (servers: seq<Server>, nameserverTags: seq<string>, fallbackTags: seq<string>, candidate: string)
    ensures servers == WithResolvers(NamedServers(d, detour), Tags(Resolvers(d)))
    ensures nameserverTags == Tags(NameserverEntries(d, detour))
    ensures fallbackTags == Tags(FallbackEntries(d, detour))
    ensures candidate == Candidate(d, detour)
  {
    var defaultServerTags;
    servers, defaultServerTags, nameserverTags, fallbackTags := BuildAll(d, detour);
    var domainResolverTags := defaultServerTags;
    candidate := "";
    if |defaultServerTags| > 0 {
      candidate := PreferUDPServer(defaultServerTags, servers);
    } else {
      servers, defaultServerTags := AutoBootstrap(d.nameservers, servers);
      if |defaultServerTags| > 0 {
        candidate := PreferUDPServer(defaultServerTags, servers);
        domainResolverTags := defaultServerTags;
      }
    }
    assert domainResolverTags == Tags(Resolvers(d));
    assert servers == NamedServers(d, detour);
    NoneResolvedYet(d, detour);
    servers := SetResolvers(servers, domainResolverTags, defaultServerTags);
  }

  lemma NoneResolvedYet(d: RawDns, detour: string)
    ensures forall s | s in NamedServers(d, detour) :: s.resolver == None
  {
    EntriesUnresolved(d.defaults, "def-", "", 0);
    EntriesUnresolved(d.nameservers, "ns-", detour, 0);
    EntriesUnresolved(d.fallback, "fb-", detour, 0);
    EntriesUnresolved(d.proxyServers, "psn-", "", 0);
    AutoUnresolved(d.nameservers, 0);
  }

  lemma EntriesUnresolved(list: seq<Nameserver>, prefix: string, detour: string, i: nat)
    requires i <= |list|
    ensures forall s | s in Entries(list, prefix, detour, i) :: s.resolver == None
    decreases |list| - i
  {
    if i < |list| {
      EntriesUnresolved(list, prefix, detour, i + 1);
    }
  }

  lemma AutoUnresolved(list: seq<Nameserver>, n: nat)
    ensures forall s | s in AutoEntries(list, n) :: s.resolver == None
    decreases |list|
  {
    if list != [] && n < MAX_BOOTSTRAP {
      AutoUnresolved(list[1..], n);
      AutoUnresolved(list[1..], n + 1);
    }
  }

  // prefer-h3, and a bootstrap server if the candidate will not do.
  method FinishServers(cfg: RawConfig, named: seq<Server>, candidate: string, detour: string)
    returns (servers: seq<Server>, resolver: string)
    requires cfg.dns.enable && candidate == Candidate(cfg.dns, detour)
    requires named
      == WithResolvers(NamedServers(cfg.dns, detour), Tags(Resolvers(cfg.dns))) + SpecialServers(cfg)
    ensures servers == Servers(cfg, detour) && resolver == DefaultResolver(cfg, detour)
  {
    servers, resolver := named, candidate;
    if cfg.dns.preferH3 {
      servers := UpgradeToH3(servers);
    }
    var local := IsLocalDNSServer(resolver, servers);
    if resolver == "" || local {
      servers := servers + [BOOTSTRAP];
      resolver := BOOTSTRAP.tag;
    }
  }

  method AddHosts(cfg: RawConfig, servers: seq<Server>, rules: seq<Rule>)
    returns (servers': seq<Server>, rules': seq<Rule>)
    ensures servers' == servers + if UsesHosts(cfg) then [HOSTS_SERVER] else []
    ensures rules' == rules + if UsesHosts(cfg) then [NamesRule(cfg.hosts, [], HOSTS_SERVER.tag)] else []
  {
    servers', rules' := servers, rules;
    if |cfg.hosts| > 0 && (cfg.dns.useHosts == None || cfg.dns.useHosts.value) {
      servers' := servers' + [HOSTS_SERVER];
      rules' := rules' + [NamesRule(cfg.hosts, [], HOSTS_SERVER.tag)];
    }
  }

  method TranslateDNS(cfg: RawConfig, t: Translation)
    modifies t`dns, t`dnsEnabled, t`defaultDomainResolver, t`dnsTerminalRules
    ensures t.dnsEnabled == cfg.dns.enable
    ensures t.dns == Some(TranslatedDns(cfg, t.FirstGroupTag()))
    ensures t.defaultDomainResolver == DefaultResolver(cfg, t.FirstGroupTag())
    ensures t.dnsTerminalRules == old(t.dnsTerminalRules)
      + if cfg.dns.enable then Terminal(cfg.dns, t.FirstGroupTag()) else []
  {
    var dns := cfg.dns;
    if !dns.enable {
      t.dns := Some(Dns([BOOTSTRAP], [], BOOTSTRAP.tag));
      t.defaultDomainResolver := BOOTSTRAP.tag;
      t.dnsEnabled := false;
      return;
    }
    t.dnsEnabled := true;
    var detour := t.FirstGroupTag();
    var servers, nameserverTags, fallbackTags, candidate := NamedServersOf(dns, detour);
    var firstNSTag := "";
    if |nameserverTags| > 0 {
      firstNSTag := nameserverTags[0];
    }
    var rules, resolver;
    servers, rules := HandleFakeIP(dns, firstNSTag, servers, detour, t);
    servers, rules := AddHosts(cfg, servers, rules);
    var final := "";
    if |fallbackTags| > 0 {
      final := fallbackTags[0];
    } else if firstNSTag != "" {
      final := firstNSTag;
    }
    servers, resolver := FinishServers(cfg, servers, candidate, detour);
    t.defaultDomainResolver := resolver;
    t.dns := Some(Dns(servers, rules, final));
  }

  // ---------------------------------------------------------------------
  // Servers for the generated rules
  // ---------------------------------------------------------------------

  // Asked directly, and answers from the network.
  predicate Eligible(s: Server) {
    s.kind != "fakeip" && s.kind != "hosts" && s.detour == None && s.tag != ""
  }

  // The tag of the first eligible server of one of the kinds, or else of the first
  // eligible server.
  function FirstEligible(servers: seq<Server>, kinds: set<string>, fallback: string): string {
    if servers == [] then fallback
    else if Eligible(servers[0]) && servers[0].kind in kinds then servers[0].tag
    else FirstEligible(servers[1..], kinds,
      if Eligible(servers[0]) && fallback == "" then servers[0].tag else fallback)
  }

  const PLAIN: set<string> := {"udp"}
  const ENCRYPTED: set<string> := {"https", "tls", "quic", "h3"}

  // findFirstDirectDNSTag and findFirstECHCapableDNSTag
  method FindFirst(servers: seq<Server>, kinds: set<string>) returns (tag: string)
    ensures tag == FirstEligible(servers, kinds, "")
  {
    var fallback := "";
    for i := 0 to |servers|
      invariant FirstEligible(servers[i..], kinds, fallback) == FirstEligible(servers, kinds, "")
    {
      var srv := servers[i];
      assert servers[i..][1..] == servers[i + 1..];
      if srv.kind == "fakeip" || srv.kind == "hosts" {
        continue;
      }
      if srv.detour.Some? {
        continue;
      }
      if srv.tag == "" {
        continue;
      }
      if srv.kind in kinds {
        return srv.tag;
      }
      if fallback == "" {
        fallback := srv.tag;
      }
    }
    return fallback;
  }

  function FakeTag(servers: seq<Server>): string {
    if servers == [] then ""
    else if servers[0].kind == "fakeip" && servers[0].tag != "" then servers[0].tag
    else FakeTag(servers[1..])
  }

  method FindFakeIPTag(servers: seq<Server>) returns (tag: string)
    ensures tag == FakeTag(servers)
  {
    for i := 0 to |servers|
      invariant FakeTag(servers[i..]) == FakeTag(servers)
    {
      assert servers[i..][1..] == servers[i + 1..];
      if servers[i].kind == "fakeip" && servers[i].tag != "" {
        return servers[i].tag;
      }
    }
    return "";
  }

  // ---------------------------------------------------------------------
  // The generated rules
  // ---------------------------------------------------------------------

  function ModeRule(direct: string): Rule {
    Rule("", "", direct, Unset, NoSets, None, Cond(Some("Direct"), [], [], None))
  }

  function GeoTags(cc: string): seq<string> {
    ["geosite-private"] + (if cc == "cn" then ["geosite-cn"] else []) + ["geoip-" + cc]
  }

  function EvaluateRule(direct: string): Rule {
    Rule("", "evaluate", direct, Unset, NoSets, Some(ADDRESS_QUERY_TYPES), ANYTHING)
  }

  function ResponseRule(direct: string, cc: string): Rule {
    Rule("", "", direct, Flag(true), Many(GeoTags(cc)), Some(ADDRESS_QUERY_TYPES), ANYTHING)
  }

  function FakeRule(fake: string): Rule {
    Rule("", "", fake, Unset, NoSets, Some(["A", "AAAA"]), ANYTHING)
  }

  function EchRules(ech: seq<string>, server: string): seq<Rule> {
    if ech == [] then [] else [NamesRule(ech, [], server)]
  }

  function FakeRules(fake: string): seq<Rule> {
    if fake == "" then [] else [FakeRule(fake)]
  }

  function DirectTag(servers: seq<Server>): string {
    FirstEligible(servers, PLAIN, "")
  }

  function EchTag(servers: seq<Server>): string {
    var tag := FirstEligible(servers, ENCRYPTED, "");
    if tag == "" then DirectTag(servers) else tag
  }

  // The rules in their final order: mode switch, the user's, generated, terminal.
  function Ordered(servers: seq<Server>, user: seq<Rule>, cc: string, ech: seq<string>, terminal: seq<Rule>)
    : seq<Rule>
  {
    var direct := DirectTag(servers);
    if direct == "" then user + terminal
    else
      [ModeRule(direct)] + user + EchRules(ech, EchTag(servers))
      + [EvaluateRule(direct), ResponseRule(direct, cc)] + FakeRules(FakeTag(servers)) + terminal
  }

  function GeoDefs(defs: map<string, RuleSetDef>, cc: string): map<string, RuleSetDef> {
    var defs1 := Registered(defs, "geosite-private", GeositeUrl("private"));
    var defs2 := if cc == "cn" then Registered(defs1, "geosite-cn", GeositeUrl("cn")) else defs1;
    Registered(defs2, "geoip-" + cc, GeoipUrl(cc))
  }

  // The rules that follow the user's.
  method AutoRules(directTag: string, fakeipTag: string, servers: seq<Server>, t: Translation)
    returns (rules: seq<Rule>)
    requires directTag == DirectTag(servers)
    modifies t`ruleSetDefs
    ensures t.ruleSetDefs == GeoDefs(old(t.ruleSetDefs), t.country)
    ensures rules == EchRules(t.echQueryServers, EchTag(servers))
      + [EvaluateRule(directTag), ResponseRule(directTag, t.country)] + FakeRules(fakeipTag)
  {
    var cc := t.country;
    rules := [];
    if |t.echQueryServers| > 0 {
      var echTag := FindFirst(servers, ENCRYPTED);
      if echTag == "" {
        echTag := directTag;
      }
      rules := rules + [NamesRule(t.echQueryServers, [], echTag)];
    }
    var rsTags := ["geosite-private"];
    RegisterRuleSet("geosite-private", GeositeUrl("private"), t);
    if cc == "cn" {
      RegisterRuleSet("geosite-cn", GeositeUrl("cn"), t);
      rsTags := rsTags + ["geosite-cn"];
    }
    RegisterRuleSet("geoip-" + cc, GeoipUrl(cc), t);
    rsTags := rsTags + ["geoip-" + cc];
    assert rsTags == GeoTags(cc);
    rules := rules + [EvaluateRule(directTag)];
    rules := rules + [Rule("", "", directTag, Flag(true), Many(rsTags), Some(ADDRESS_QUERY_TYPES), ANYTHING)];
    if fakeipTag != "" {
      rules := rules + [FakeRule(fakeipTag)];
    }
  }

  method GenerateDNSRules(t: Translation)
    requires t.dns.Some?
    modifies t`dns, t`ruleSetDefs
    ensures !t.dnsEnabled || old(t.dns).value.servers == [] ==>
      t.dns == old(t.dns) && t.ruleSetDefs == old(t.ruleSetDefs)
    ensures t.dnsEnabled && old(t.dns).value.servers != [] ==>
      var dns := old(t.dns).value;
      && t.dns == Some(dns.(rules := Ordered(dns.servers, dns.rules, t.country, t.echQueryServers, t.dnsTerminalRules)))
      && t.ruleSetDefs == (if DirectTag(dns.servers) == "" then old(t.ruleSetDefs)
                           else GeoDefs(old(t.ruleSetDefs), t.country))
  {
    var dns := t.dns.value;
    if |dns.servers| == 0 || !t.dnsEnabled {
      return;
    }
    var directTag := FindFirst(dns.servers, PLAIN);
    var fakeipTag := FindFakeIPTag(dns.servers);
    if directTag == "" {
      t.dns := Some(dns.(rules := dns.rules + t.dnsTerminalRules));
      return;
    }
    var modeRules := [ModeRule(directTag)];
    var rules := AutoRules(directTag, fakeipTag, dns.servers, t);
    var ordered := modeRules + dns.rules + rules + t.dnsTerminalRules;
    OrderedIs(dns.servers, dns.rules, t.country, t.echQueryServers, t.dnsTerminalRules, rules);
    t.dns := Some(dns.(rules := ordered));
  }

  lemma OrderedIs(
    servers: seq<Server>, user: seq<Rule>, cc: string, ech: seq<string>, terminal: seq<Rule>, auto: seq<Rule>)
    requires DirectTag(servers) != ""
    requires auto == EchRules(ech, EchTag(servers))
      + [EvaluateRule(DirectTag(servers)), ResponseRule(DirectTag(servers), cc)] + FakeRules(FakeTag(servers))
    ensures Ordered(servers, user, cc, ech, terminal)
         == [ModeRule(DirectTag(servers))] + user + auto + terminal
  {
  }

  function WithAction(r: Rule): Rule {
    if r.Rule? && r.action == "" && r.server != "" then r.(action := "route") else r
  }

  function WithActions(rules: seq<Rule>): (r: seq<Rule>)
    ensures |r| == |rules| && forall i | 0 <= i < |r| :: r[i] == WithAction(rules[i])
  {
    seq(|rules|, i requires 0 <= i < |rules| => WithAction(rules[i]))
  }

  method AddDNSRouteAction(t: Translation)
    modifies t`dns
    ensures t.dns == if old(t.dns).None? then None
      else Some(old(t.dns).value.(rules := WithActions(old(t.dns).value.rules)))
  {
    if t.dns.None? {
      return;
    }
    ghost var before := t.dns.value;
    for i := 0 to |t.dns.value.rules|
      invariant t.dns.Some? && t.dns.value.(rules := before.rules) == before
      invariant |t.dns.value.rules| == |before.rules|
      invariant forall k | 0 <= k < i :: t.dns.value.rules[k] == WithAction(before.rules[k])
      invariant forall k | i <= k < |before.rules| :: t.dns.value.rules[k] == before.rules[k]
    {
      var dns := t.dns.value;
      var rule := dns.rules[i];
      if rule.Rule? && rule.action == "" && rule.server != "" {
        t.dns := Some(dns.(rules := dns.rules[i := rule.(action := "route")]));
      }
    }
    assert t.dns.value.rules == WithActions(before.rules);
  }
}
