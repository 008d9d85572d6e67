// The passes in order, and why the final check can fail for one reason only.
module Pipeline {
  import opened Wrappers
  import opened TranslationState
  import opened Groups
  import opened GroupTheorems
  import opened Proxies
  import opened Validate
  import opened OutboundTheorems
  import opened Dialers
  import DnsTable
  import DnsServers
  import DnsRules
  import DnsTheorems
  import ResolverGraph
  import RouteTable
  import Routes
  import Assemble
  import RouteTheorems

  // ---------------------------------------------------------------------
  // DNS references
  // ---------------------------------------------------------------------

  lemma EntriesDetour(list: seq<Nameserver>, prefix: string, detour: string, i: nat)
    requires i <= |list|
    ensures forall s | s in DnsServers.Entries(list, prefix, detour, i) ::
      s.detour == None || (s.detour == Some(detour) && detour != "")
    decreases |list| - i
  {
    if i < |list| {
      EntriesDetour(list, prefix, detour, i + 1);
    }
  }

  lemma ServerDetours(cfg: RawConfig, detour: string)
    ensures forall s | s in DnsServers.Servers(cfg, detour) ::
      s.detour == None || (s.detour == Some(detour) && detour != "")
  {
    var d := cfg.dns;
    EntriesDetour(d.defaults, "def-", "", 0);
    EntriesDetour(d.nameservers, "ns-", detour, 0);
    EntriesDetour(d.fallback, "fb-", detour, 0);
    EntriesDetour(d.proxyServers, "psn-", "", 0);
    ResolverGraph.AutoFresh(d.nameservers, 0);
    forall s | s in DnsServers.Servers(cfg, detour)
      ensures s.detour == None || (s.detour == Some(detour) && detour != "")
    {
      if s != DnsServers.BOOTSTRAP {
        ResolverGraph.MainServersAre(cfg, detour, s);
      }
    }
  }

  predicate HasServer(servers: seq<Server>, tag: string) {
    exists s | s in servers :: s.tag == tag
  }

  lemma NamedServerStays(cfg: RawConfig, detour: string, s: Server)
    requires cfg.dns.enable && s in DnsServers.NamedServers(cfg.dns, detour)
    ensures HasServer(DnsServers.Servers(cfg, detour), s.tag)
  {
    ResolverGraph.MainServersAre(cfg, detour, s);
    assert ResolverGraph.Finished(cfg, s) in DnsServers.Servers(cfg, detour);
  }

  lemma SpecialServersStay(cfg: RawConfig, detour: string, s: Server)
    requires cfg.dns.enable && s in DnsServers.SpecialServers(cfg)
    ensures HasServer(DnsServers.Servers(cfg, detour), s.tag)
  {
    var named := DnsServers.WithResolvers(
      DnsServers.NamedServers(cfg.dns, detour), DnsServers.Tags(DnsServers.Resolvers(cfg.dns)));
    var i :| 0 <= i < |DnsServers.SpecialServers(cfg)| && DnsServers.SpecialServers(cfg)[i] == s;
    assert DnsServers.MainServers(cfg, detour)[|named| + i] == s;
    assert s in DnsServers.Servers(cfg, detour);
  }

  lemma FinalServerExists(cfg: RawConfig, detour: string)
    requires cfg.dns.enable
    ensures
      var final := DnsRules.FinalServer(cfg.dns, detour);
      final == "" || HasServer(DnsServers.Servers(cfg, detour), final)
    ensures
      var first := DnsRules.FirstNameserver(cfg.dns, detour);
      first == "" || HasServer(DnsServers.Servers(cfg, detour), first)
  {
    var ns, fb := DnsServers.NameserverEntries(cfg.dns, detour), DnsServers.FallbackEntries(cfg.dns, detour);
    if ns != [] {
      NamedServerStays(cfg, detour, ns[0]);
    }
    if fb != [] {
      NamedServerStays(cfg, detour, fb[0]);
    }
  }

  predicate ServedBy(rules: seq<DnsTable.Rule>, servers: seq<Server>) {
    forall r | r in rules && r.Rule? :: r.server == "" || HasServer(servers, r.server)
  }

  lemma UserRulesServed(cfg: RawConfig, detour: string)
    requires cfg.dns.enable
    ensures ServedBy(DnsRules.UserRules(cfg, detour), DnsServers.Servers(cfg, detour))
    ensures ServedBy(DnsRules.Terminal(cfg.dns, detour), DnsServers.Servers(cfg, detour))
  {
    FinalServerExists(cfg, detour);
    if DnsServers.UsesFakeIP(cfg.dns) {
      assert DnsServers.SpecialServers(cfg)[0] == DnsServers.FAKEIP_SERVER;
      SpecialServersStay(cfg, detour, DnsServers.FAKEIP_SERVER);
    }
    if DnsServers.UsesHosts(cfg) {
      var special := DnsServers.SpecialServers(cfg);
      assert special[|special| - 1] == DnsServers.HOSTS_SERVER;
      SpecialServersStay(cfg, detour, DnsServers.HOSTS_SERVER);
    }
  }

  lemma ActedServed(rules: seq<DnsTable.Rule>, servers: seq<Server>)
    requires ServedBy(rules, servers)
    ensures ServedBy(DnsRules.WithActions(rules), servers)
  {
    var acted := DnsRules.WithActions(rules);
    forall r | r in acted && r.Rule? ensures r.server == "" || HasServer(servers, r.server) {
      var i :| 0 <= i < |acted| && acted[i] == r;
      assert rules[i] in rules;
    }
  }

  lemma TableServed(cfg: RawConfig, cc: string, ech: seq<string>, detour: string)
    requires cfg.dns.enable
    ensures ServedBy(DnsTheorems.Table(cfg, cc, ech, detour), DnsServers.Servers(cfg, detour))
  {
    var servers := DnsServers.Servers(cfg, detour);
    UserRulesServed(cfg, detour);
    DnsTheorems.FirstEligibleIs(servers, DnsRules.PLAIN, "");
    DnsTheorems.FirstEligibleIs(servers, DnsRules.ENCRYPTED, "");
    DnsTheorems.FakeTagIs(servers);
    ActedServed(DnsRules.UserRules(cfg, detour), servers);
    ActedServed(DnsRules.Terminal(cfg.dns, detour), servers);
    DnsTheorems.TableParts(cfg, cc, ech, detour);
    AfterUserServed(cfg, cc, ech, detour);
  }

  lemma AfterUserServed(cfg: RawConfig, cc: string, ech: seq<string>, detour: string)
    requires ServedBy(DnsRules.WithActions(DnsRules.Terminal(cfg.dns, detour)), DnsServers.Servers(cfg, detour))
    ensures ServedBy(DnsTheorems.AfterUser(cfg, cc, ech, detour), DnsServers.Servers(cfg, detour))
  {
    var servers := DnsServers.Servers(cfg, detour);
    DnsTheorems.FirstEligibleIs(servers, DnsRules.PLAIN, "");
    DnsTheorems.FirstEligibleIs(servers, DnsRules.ENCRYPTED, "");
    DnsTheorems.FakeTagIs(servers);
    ActedServed(DnsRules.EchRules(ech, DnsRules.EchTag(servers)), servers);
    ActedServed(DnsRules.FakeRules(DnsRules.FakeTag(servers)), servers);
  }

  // ---------------------------------------------------------------------
  // Rule-set references
  // ---------------------------------------------------------------------

  lemma MatchingTags(defs: map<string, RuleSetDef>)
    requires Assemble.KeysMatch(defs)
    ensures Assemble.DefinedTags(defs) == defs.Keys
  {
    forall tag | tag in defs ensures tag in Assemble.DefinedTags(defs) {
      assert defs[tag].tag == tag;
    }
  }

  lemma {:induction false} AccessDefsKeys(defs: map<string, RuleSetDef>, names: seq<string>)
    requires Assemble.KeysMatch(defs)
    ensures Assemble.KeysMatch(Routes.AccessDefs(defs, names))
    ensures defs.Keys <= Routes.AccessDefs(defs, names).Keys
    ensures forall name | name in names :: "geosite-" + name in Routes.AccessDefs(defs, names)
    decreases |names|
  {
    if names != [] {
      var next := Registered(defs, "geosite-" + names[0], GeositeUrl(names[0]));
      AccessDefsKeys(next, names[1..]);
      assert forall name :: name in names <==> name == names[0] || name in names[1..];
    }
  }

  predicate RouteSetsIn(rules: seq<RouteTable.RouteRule>, defined: set<string>) {
    forall r | r in rules :: r.Plain? && forall tag | tag in r.cond.ruleSets :: tag in defined
  }

  lemma {:induction false} AccessRulesIn(names: seq<string>, defined: set<string>)
    requires forall name | name in names :: "geosite-" + name in defined
    ensures RouteSetsIn(Routes.AccessRules(names), defined)
  {
    if names != [] {
      AccessRulesIn(names[1..], defined);
      assert Routes.AccessRules(names)
          == [Routes.SetRule("geosite-" + names[0], "DIRECT")] + Routes.AccessRules(names[1..]);
    }
  }

  lemma RegisteredKeys(defs: map<string, RuleSetDef>, tag: string, url: string)
    requires Assemble.KeysMatch(defs)
    ensures Assemble.KeysMatch(Registered(defs, tag, url))
    ensures Registered(defs, tag, url).Keys == defs.Keys + {tag}
  {
  }

  predicate CnTagsIn(defined: set<string>) {
    && "overseas-ai" in defined && "geosite-geolocation-!cn" in defined
    && "geosite-cn" in defined && "geoip-cn" in defined
    && forall name | name in Routes.ACCESS_POINTS :: "geosite-" + name in defined
  }

  lemma CnDefsKeys(defs: map<string, RuleSetDef>)
    requires Assemble.KeysMatch(defs)
    ensures Assemble.KeysMatch(Routes.CnDefs(defs)) && defs.Keys <= Routes.CnDefs(defs).Keys
    ensures CnTagsIn(Routes.CnDefs(defs).Keys)
  {
    var first := Registered(defs, "overseas-ai", Routes.OVERSEAS_AI_URL);
    var access := Routes.AccessDefs(first, Routes.ACCESS_POINTS);
    var foreign := Registered(access, "geosite-geolocation-!cn", GeositeUrl("geolocation-!cn"));
    var local := Registered(foreign, "geosite-cn", GeositeUrl("cn"));
    RegisteredKeys(defs, "overseas-ai", Routes.OVERSEAS_AI_URL);
    AccessDefsKeys(first, Routes.ACCESS_POINTS);
    RegisteredKeys(access, "geosite-geolocation-!cn", GeositeUrl("geolocation-!cn"));
    RegisteredKeys(foreign, "geosite-cn", GeositeUrl("cn"));
    RegisteredKeys(local, "geoip-cn", GeoipUrl("cn"));
  }

  lemma CnRoutesIn(proxy: string, defined: set<string>)
    requires CnTagsIn(defined)
    ensures RouteSetsIn(Routes.CnRoutes(proxy), defined)
  {
    AccessRulesIn(Routes.ACCESS_POINTS, defined);
    assert RouteSetsIn(Routes.GeoRules(proxy), defined);
    assert RouteSetsIn([Routes.SetRule("overseas-ai", proxy)], defined);
  }

  lemma CountryRoutesIn(cc: string, defined: set<string>)
    requires "geoip-" + cc in defined
    ensures RouteSetsIn(Routes.CountryRoutes(cc), defined)
  {
  }

  predicate RouteTagsIn(cc: string, defined: set<string>) {
    && "geosite-private" in defined
    && (if cc == "cn" then CnTagsIn(defined) else "geoip-" + cc in defined)
  }

  lemma RouteDefsKeys(cc: string)
    ensures Assemble.KeysMatch(Routes.RouteDefs(map[], cc)) && RouteTagsIn(cc, Routes.RouteDefs(map[], cc).Keys)
  {
    var privateDefs := Registered(map[], "geosite-private", GeositeUrl("private"));
    RegisteredKeys(map[], "geosite-private", GeositeUrl("private"));
    if cc == "cn" {
      CnDefsKeys(privateDefs);
    } else {
      RegisteredKeys(privateDefs, "geoip-" + cc, GeoipUrl(cc));
    }
  }

  lemma PrivateRulesIn(defined: set<string>)
    requires "geosite-private" in defined
    ensures RouteSetsIn(Routes.PRIVATE_RULES, defined)
  {
  }

  lemma GeneratedRoutesIn(cc: string, proxy: string, defined: set<string>)
    requires RouteTagsIn(cc, defined)
    ensures RouteSetsIn(Routes.GeneratedRoutes(cc, proxy), defined)
  {
    PrivateRulesIn(defined);
    if cc == "cn" {
      CnRoutesIn(proxy, defined);
    } else {
      CountryRoutesIn(cc, defined);
    }
  }

  lemma KeepAll(tags: seq<string>, defined: set<string>)
    requires forall tag | tag in tags :: tag in defined
    ensures Keep(tags, defined) == tags
  {
    if tags != [] {
      assert tags[0] in tags && forall tag | tag in tags[1..] :: tag in tags;
      KeepAll(tags[1..], defined);
    }
  }

  lemma {:induction false} PruneNothing(rules: seq<RouteTable.RouteRule>, defined: set<string>)
    requires RouteSetsIn(rules, defined)
    ensures Assemble.PruneRules(rules, defined) == rules
  {
    if rules != [] {
      assert rules[0] in rules && forall r | r in rules[1..] :: r in rules;
      KeepAll(rules[0].cond.ruleSets, defined);
      PruneNothing(rules[1..], defined);
      assert [rules[0]] + rules[1..] == rules;
    }
  }

  // If every rule-set is defined, nothing is dropped when assembling.
  lemma RoutesKept(rules: seq<RouteTable.RouteRule>, firstGroup: string, defined: set<string>)
    requires RouteSetsIn(rules, defined)
    ensures Assemble.AssembledRules(rules, firstGroup, defined)
         == Assemble.DefaultRules(firstGroup) + Assemble.AllPrepared(rules)
    ensures RouteSetsIn(Assemble.AssembledRules(rules, firstGroup, defined), defined)
  {
    var prepared := Assemble.AllPrepared(rules);
    forall r | r in prepared ensures r.Plain? && forall tag | tag in r.cond.ruleSets :: tag in defined {
      var i :| 0 <= i < |rules| && r == prepared[i];
      assert rules[i] in rules;
    }
    assert RouteSetsIn(Assemble.DefaultRules(firstGroup), defined);
    PruneNothing(Assemble.DefaultRules(firstGroup) + prepared, defined);
  }

  predicate DnsSetsIn(rules: seq<DnsTable.Rule>, defined: set<string>) {
    forall r | r in rules && r.Rule? :: forall tag | tag in DnsTable.SetTags(r.ruleSets) :: tag in defined
  }

  lemma {:induction false} PruneNoDnsRule(rules: seq<DnsTable.Rule>, defined: set<string>)
    requires DnsSetsIn(rules, defined)
    ensures Assemble.PruneDnsRules(rules, defined) == rules
  {
    if rules != [] {
      assert rules[0] in rules && forall r | r in rules[1..] :: r in rules;
      if rules[0].Rule? {
        KeepAll(DnsTable.SetTags(rules[0].ruleSets), defined);
      }
      PruneNoDnsRule(rules[1..], defined);
      assert [rules[0]] + rules[1..] == rules;
    }
  }

  lemma NoSetsIn(rules: seq<DnsTable.Rule>, defined: set<string>)
    requires DnsTheorems.NoSetRules(rules)
    ensures DnsSetsIn(rules, defined)
  {
  }

  lemma SetsJoin(a: seq<DnsTable.Rule>, b: seq<DnsTable.Rule>, defined: set<string>)
    requires DnsSetsIn(a, defined) && DnsSetsIn(b, defined)
    ensures DnsSetsIn(a + b, defined)
  {
  }

  lemma GeneratedSetsIn(servers: seq<Server>, cc: string, defined: set<string>)
    requires forall tag | tag in DnsRules.GeoTags(cc) :: tag in defined
    requires DnsTheorems.NoSetRules(DnsRules.WithActions(DnsRules.FakeRules(DnsRules.FakeTag(servers))))
    ensures DnsSetsIn(DnsTheorems.Generated(servers, cc), defined)
  {
    var direct := DnsRules.DirectTag(servers);
    var geo := [DnsRules.EvaluateRule(direct), DnsRules.WithAction(DnsRules.ResponseRule(direct, cc))];
    assert DnsSetsIn(geo, defined);
    NoSetsIn(DnsRules.WithActions(DnsRules.FakeRules(DnsRules.FakeTag(servers))), defined);
    SetsJoin(geo, DnsRules.WithActions(DnsRules.FakeRules(DnsRules.FakeTag(servers))), defined);
  }

  lemma TableSetsIn(cfg: RawConfig, cc: string, ech: seq<string>, detour: string, defined: set<string>)
    requires cfg.dns.enable
    requires DnsTheorems.HasDirect(DnsServers.Servers(cfg, detour)) ==>
      forall tag | tag in DnsRules.GeoTags(cc) :: tag in defined
    ensures DnsSetsIn(DnsTheorems.Table(cfg, cc, ech, detour), defined)
  {
    var servers := DnsServers.Servers(cfg, detour);
    ResolverGraph.ServerTagsDistinct(cfg, detour);
    DnsTheorems.DirectTags(servers);
    DnsTheorems.TableParts(cfg, cc, ech, detour);
    DnsTheorems.PlainParts(cfg, ech, detour);
    var mode := [DnsRules.WithAction(DnsRules.ModeRule(DnsRules.DirectTag(servers)))];
    var user := DnsRules.WithActions(DnsRules.UserRules(cfg, detour));
    var last := DnsRules.WithActions(DnsRules.Terminal(cfg.dns, detour));
    var echRules := DnsRules.WithActions(DnsRules.EchRules(ech, DnsRules.EchTag(servers)));
    NoSetsIn(mode, defined);
    NoSetsIn(user, defined);
    NoSetsIn(last, defined);
    NoSetsIn(echRules, defined);
    if DnsRules.DirectTag(servers) == "" {
      assert DnsTheorems.Table(cfg, cc, ech, detour) == user + last;
      SetsJoin(user, last, defined);
    } else {
      GeneratedSetsIn(servers, cc, defined);
      SetsJoin(echRules, DnsTheorems.Generated(servers, cc), defined);
      SetsJoin(echRules + DnsTheorems.Generated(servers, cc), last, defined);
      SetsJoin(user, DnsTheorems.AfterUser(cfg, cc, ech, detour), defined);
      SetsJoin(mode, DnsTheorems.AfterMode(cfg, cc, ech, detour), defined);
    }
  }

  lemma GeoDefsKeys(defs: map<string, RuleSetDef>, cc: string)
    requires Assemble.KeysMatch(defs)
    ensures Assemble.KeysMatch(DnsRules.GeoDefs(defs, cc)) && defs.Keys <= DnsRules.GeoDefs(defs, cc).Keys
    ensures forall tag | tag in DnsRules.GeoTags(cc) :: tag in DnsRules.GeoDefs(defs, cc)
  {
  }

  // ---------------------------------------------------------------------
  // The pipeline
  // ---------------------------------------------------------------------

  function OutputDns(cfg: RawConfig, cc: string, ech: seq<string>, firstGroup: string): Dns {
    if !cfg.dns.enable then DnsRules.TranslatedDns(cfg, firstGroup)
    else Dns(DnsServers.Servers(cfg, firstGroup), DnsTheorems.Table(cfg, cc, ech, firstGroup),
             DnsRules.FinalServer(cfg.dns, firstGroup))
  }

  // With DNS disabled nothing is generated.
  lemma DisabledDns(cfg: RawConfig, cc: string, ech: seq<string>, firstGroup: string)
    requires !cfg.dns.enable
    ensures OutputDns(cfg, cc, ech, firstGroup)
         == Dns([Server("udp", "bootstrap-dns", Some(Ip("223.5.5.5", true)), None, None)], [], "bootstrap-dns")
    ensures DnsServers.DefaultResolver(cfg, firstGroup) == "bootstrap-dns"
  {
  }

  lemma ServersNotEmpty(cfg: RawConfig, detour: string)
    ensures DnsServers.Servers(cfg, detour) != []
  {
    ResolverGraph.DefaultResolverIsDirect(cfg, detour);
  }

  lemma OutputDnsClosed(cfg: RawConfig, cc: string, ech: seq<string>, firstGroup: string, tags: set<string>)
    requires firstGroup == "" || firstGroup in tags
    ensures DnsDefined(Some(OutputDns(cfg, cc, ech, firstGroup)), tags)
  {
    var dns := OutputDns(cfg, cc, ech, firstGroup);
    ServerDetours(cfg, firstGroup);
    if cfg.dns.enable {
      TableServed(cfg, cc, ech, firstGroup);
      FinalServerExists(cfg, firstGroup);
    }
    forall tag | tag != "" && HasServer(dns.servers, tag) ensures tag in ServerTags(dns.servers) {
      var s :| s in dns.servers && s.tag == tag;
    }
  }

  // Proxies and groups are done.
  ghost predicate OutboundsDone(
    cfg: RawConfig, groups: seq<Group>,
    order: seq<string>, outbounds: seq<Outbound>, stubTags: map<string, string>, ech: seq<string>)
  {
    && AreGroups(cfg, groups, order) && [Direct("DIRECT")] + outbounds == AllOutbounds(cfg, groups)
    && stubTags == StubProtocols(cfg.proxies) && ech == EchNames(Outbounds(cfg.proxies))
  }

  method TranslateOutbounds(cfg: RawConfig, t: Translation) returns (ghost groups: seq<Group>)
    requires t.stubTags == map[] && t.echQueryServers == [] && t.proxyTags == {} && t.deadTags == {}
    requires t.groupTags == {} && t.groupTagOrder == [] && t.outbounds == []
    modifies t`proxyTags, t`stubTags, t`deadTags, t`echQueryServers, t`groupTags, t`groupTagOrder, t`outbounds
    ensures OutboundsDone(cfg, groups, t.groupTagOrder, t.outbounds, t.stubTags, t.echQueryServers)
  {
    var proxyOutbounds := TranslateProxies(cfg.proxies, t);
    assert t.proxyTags == ProxyNames(cfg.proxies);
    assert t.deadTags == DeadNames(cfg.proxies);
    CollectECHQueryServers(proxyOutbounds, t);
    var groupOutbounds := TranslateOrDefaultGroups(cfg, t);
    groups := groupOutbounds;
    Combine(proxyOutbounds, groupOutbounds, t);
    assert t.outbounds == Outbounds(cfg.proxies) + Wrap(groups);
  }

  // Proxies first, then groups.
  method Combine(proxyOutbounds: seq<Outbound>, groups: seq<Group>, t: Translation)
    modifies t`outbounds
    ensures t.outbounds == old(t.outbounds) + (proxyOutbounds + Wrap(groups))
  {
    t.outbounds := t.outbounds + proxyOutbounds;
    var wrapped := WrapGroups(groups);
    t.outbounds := t.outbounds + wrapped;
  }

  method TranslateOrDefaultGroups(cfg: RawConfig, t: Translation) returns (groups: seq<Group>)
    requires t.proxyTags == ProxyNames(cfg.proxies) && t.deadTags == DeadNames(cfg.proxies)
    requires t.groupTags == {} && t.groupTagOrder == []
    modifies t`groupTags, t`groupTagOrder
    ensures AreGroups(cfg, groups, t.groupTagOrder)
  {
    groups := TranslateGroups(cfg.groups, t);
    ghost var named := Keep(RawNames(cfg.groups), Outcome(cfg.groups, t.proxyTags, {}, t.deadTags).translated);
    assert [] + named == named;
    if |t.groupTagOrder| == 0 {
      groups := GenerateDefaultGroups(t);
    }
  }

  method WrapGroups(groups: seq<Group>) returns (obs: seq<Outbound>)
    ensures obs == Wrap(groups)
  {
    obs := [];
    for i := 0 to |groups|
      invariant |obs| == i && forall k | 0 <= k < i :: obs[k] == Grouped(groups[k])
    {
      obs := obs + [Grouped(groups[i])];
    }
  }

  // What the last two DNS passes make of the servers and the user's rules.
  function WithGenerated(dns: Dns, enabled: bool, cc: string, ech: seq<string>, terminal: seq<DnsTable.Rule>): Dns {
    dns.(rules := DnsRules.WithActions(
      if enabled then DnsRules.Ordered(dns.servers, dns.rules, cc, ech, terminal) else dns.rules))
  }

  lemma OutputDnsIs(cfg: RawConfig, cc: string, ech: seq<string>, firstGroup: string)
    ensures OutputDns(cfg, cc, ech, firstGroup)
         == WithGenerated(DnsRules.TranslatedDns(cfg, firstGroup), cfg.dns.enable, cc, ech,
              if cfg.dns.enable then DnsRules.Terminal(cfg.dns, firstGroup) else [])
    ensures DnsRules.TranslatedDns(cfg, firstGroup).servers == DnsServers.Servers(cfg, firstGroup)
    ensures DnsRules.TranslatedDns(cfg, firstGroup).servers != []
  {
    ServersNotEmpty(cfg, firstGroup);
  }

  lemma OutputDnsSetsIn(cfg: RawConfig, cc: string, ech: seq<string>, firstGroup: string, defined: set<string>)
    requires cfg.dns.enable && DnsRules.DirectTag(DnsServers.Servers(cfg, firstGroup)) != "" ==>
      forall tag | tag in DnsRules.GeoTags(cc) :: tag in defined
    ensures DnsSetsIn(OutputDns(cfg, cc, ech, firstGroup).rules, defined)
  {
    if cfg.dns.enable {
      ResolverGraph.ServerTagsDistinct(cfg, firstGroup);
      DnsTheorems.DirectTags(DnsServers.Servers(cfg, firstGroup));
      TableSetsIn(cfg, cc, ech, firstGroup, defined);
    }
  }

  // The definitions of rule-sets, with those for DNS if there are generated rules.
  function WithDnsDefs(defs: map<string, RuleSetDef>, cc: string, generated: bool): map<string, RuleSetDef> {
    if generated then DnsRules.GeoDefs(defs, cc) else defs
  }

  function OutputDefs(cfg: RawConfig, cc: string, firstGroup: string): map<string, RuleSetDef> {
    WithDnsDefs(Routes.RouteDefs(map[], cc), cc,
      cfg.dns.enable && DnsRules.DirectTag(DnsServers.Servers(cfg, firstGroup)) != "")
  }

  // The generated rules, and an action for every rule.
  method FinishDnsRules(t: Translation)
    requires t.dns.Some? && t.dns.value.servers != []
    modifies t`ruleSetDefs, t`dns
    ensures t.dns
         == Some(WithGenerated(old(t.dns).value, t.dnsEnabled, t.country, t.echQueryServers, t.dnsTerminalRules))
    ensures t.ruleSetDefs == WithDnsDefs(old(t.ruleSetDefs), t.country,
      t.dnsEnabled && DnsRules.DirectTag(old(t.dns).value.servers) != "")
  {
    DnsRules.GenerateDNSRules(t);
    DnsRules.AddDNSRouteAction(t);
  }

  // Servers and rules for DNS.
  method TranslateNames(cfg: RawConfig, t: Translation)
    requires t.dnsTerminalRules == []
    modifies t`ruleSetDefs, t`dns, t`dnsEnabled, t`defaultDomainResolver, t`dnsTerminalRules
    ensures t.dns == Some(OutputDns(cfg, t.country, t.echQueryServers, t.FirstGroupTag()))
    ensures t.defaultDomainResolver == DnsServers.DefaultResolver(cfg, t.FirstGroupTag())
    ensures t.ruleSetDefs == WithDnsDefs(old(t.ruleSetDefs), t.country,
      cfg.dns.enable && DnsRules.DirectTag(DnsServers.Servers(cfg, t.FirstGroupTag())) != "")
  {
    ghost var firstGroup := t.FirstGroupTag();
    OutputDnsIs(cfg, t.country, t.echQueryServers, firstGroup);
    DnsRules.TranslateDNS(cfg, t);
    assert t.dnsTerminalRules == if cfg.dns.enable then DnsRules.Terminal(cfg.dns, firstGroup) else [];
    FinishDnsRules(t);
  }

  lemma SetsStay(rules: seq<RouteTable.RouteRule>, defined: set<string>, more: set<string>)
    requires RouteSetsIn(rules, defined) && defined <= more
    ensures RouteSetsIn(rules, more)
  {
  }

  // Routes and DNS are done.
  ghost predicate TrafficDone(cfg: RawConfig, t: Translation)
    reads t
  {
    && t.rules == Routes.GeneratedRoutes(t.country, Routes.ProxyTag(t.FirstGroupTag()))
    && t.dns == Some(OutputDns(cfg, t.country, t.echQueryServers, t.FirstGroupTag()))
    && t.defaultDomainResolver == DnsServers.DefaultResolver(cfg, t.FirstGroupTag())
    && t.ruleSetDefs == OutputDefs(cfg, t.country, t.FirstGroupTag())
  }

  method TranslateTraffic(cfg: RawConfig, t: Translation)
    requires t.rules == [] && t.ruleSetDefs == map[] && t.dnsTerminalRules == []
    modifies t`rules, t`ruleSetDefs, t`dns, t`dnsEnabled, t`defaultDomainResolver, t`dnsTerminalRules
    ensures TrafficDone(cfg, t)
  {
    Routes.TranslateRules(t);
    ghost var rules := Routes.GeneratedRoutes(t.country, Routes.ProxyTag(t.FirstGroupTag()));
    assert [] + rules == rules;
    TranslateNames(cfg, t);
  }

  // The outbounds rules send to.
  predicate RulesSendTo(rules: seq<RouteTable.RouteRule>, tags: set<string>) {
    forall r | r in rules && r.outbound.Some? :: r.outbound.value in tags
  }

  lemma PreparedSend(rules: seq<RouteTable.RouteRule>, firstGroup: string, tags: set<string>)
    requires "DIRECT" in tags && (firstGroup == "" || firstGroup in tags)
    requires RouteTheorems.SendsTo(rules, tags)
    ensures RulesSendTo(Assemble.DefaultRules(firstGroup) + Assemble.AllPrepared(rules), tags)
  {
    forall r | r in Assemble.AllPrepared(rules) && r.outbound.Some? ensures r.outbound.value in tags {
      var i :| 0 <= i < |rules| && r == Assemble.AllPrepared(rules)[i];
      assert rules[i] in rules;
    }
  }

  // What the output is, in terms of the input.
  ghost predicate IsOutput(
    cfg: RawConfig, country: string, order: seq<string>, outbounds: seq<Outbound>, stubTags: map<string, string>,
    dns: Option<Dns>, resolver: string, rules: seq<RouteTable.RouteRule>, final: string,
    defs: map<string, RuleSetDef>, ruleSet: seq<RuleSetDef>)
  {
    var firstGroup, ech := FirstOf(order), EchNames(Outbounds(cfg.proxies));
    && (exists groups :: AreGroups(cfg, groups, order) && outbounds == AllOutbounds(cfg, groups))
    && stubTags == StubProtocols(cfg.proxies)
    && dns == Some(OutputDns(cfg, country, ech, firstGroup))
    && resolver == DnsServers.DefaultResolver(cfg, firstGroup)
    && rules == Assemble.AssembledRules(
         Routes.GeneratedRoutes(country, Routes.ProxyTag(firstGroup)), firstGroup, defs.Keys)
    && final == Assemble.FinalOutbound("", firstGroup)
    && defs == OutputDefs(cfg, country, firstGroup)
    && (forall def :: def in ruleSet <==> def in defs.Values) && Assemble.DistinctDefs(ruleSet)
  }

  ghost predicate IsTranslation(cfg: RawConfig, country: string, t: Translation)
    reads t
  {
    IsOutput(cfg, country, t.groupTagOrder, t.outbounds, t.stubTags, t.dns, t.defaultDomainResolver, t.rules, t.final,
      t.ruleSetDefs, t.ruleSet)
  }

  lemma OutputIs(
    cfg: RawConfig, country: string, groups: seq<Group>, order: seq<string>, outbounds: seq<Outbound>,
    stubTags: map<string, string>, ech: seq<string>, ruleSet: seq<RuleSetDef>)
    requires OutboundsDone(cfg, groups, order, outbounds, stubTags, ech)
    requires forall def :: def in ruleSet <==> def in OutputDefs(cfg, country, FirstOf(order)).Values
    requires Assemble.DistinctDefs(ruleSet)
    ensures
      var firstGroup, defs := FirstOf(order), OutputDefs(cfg, country, FirstOf(order));
      var rules := Assemble.AssembledRules(
        Routes.GeneratedRoutes(country, Routes.ProxyTag(firstGroup)), firstGroup, defs.Keys);
      IsOutput(cfg, country, order, [Direct("DIRECT")] + outbounds, stubTags,
        Some(OutputDns(cfg, country, ech, firstGroup)), DnsServers.DefaultResolver(cfg, firstGroup), rules,
        Assemble.FinalOutbound("", firstGroup), defs, ruleSet)
  {
  }

  // Every reference but the detours of proxies leads somewhere: group members,
  // route.final, the outbounds and rule-sets of rules, DNS servers and their detours.
  predicate ReferencesHold(t: Translation)
    reads t
  {
    && Closed(t.outbounds, t.final, t.dns) && RulesSendTo(t.rules, OutboundTags(t.outbounds))
    && RouteSetsIn(t.rules, t.ruleSetDefs.Keys)
    && (t.dns.Some? ==> DnsSetsIn(t.dns.value.rules, t.ruleSetDefs.Keys))
    && Assemble.KeysMatch(t.ruleSetDefs)
  }

  lemma OutputReferences(
    cfg: RawConfig, cc: string, ech: seq<string>, groups: seq<Group>, order: seq<string>, defined: set<string>)
    requires AreGroups(cfg, groups, order)
    requires RouteSetsIn(Routes.GeneratedRoutes(cc, Routes.ProxyTag(FirstOf(order))), defined)
    ensures
      var obs, firstGroup := AllOutbounds(cfg, groups), FirstOf(order);
      var rules := Assemble.AssembledRules(
        Routes.GeneratedRoutes(cc, Routes.ProxyTag(firstGroup)), firstGroup, defined);
      && Closed(obs, Assemble.FinalOutbound("", firstGroup), Some(OutputDns(cfg, cc, ech, firstGroup)))
      && RulesSendTo(rules, OutboundTags(obs)) && RouteSetsIn(rules, defined)
  {
    var obs, firstGroup := AllOutbounds(cfg, groups), FirstOf(order);
    var rules := Routes.GeneratedRoutes(cc, Routes.ProxyTag(firstGroup));
    OutboundsClosed(cfg, groups, order);
    RoutesKept(rules, firstGroup, defined);
    RouteTheorems.GeneratedSends(cc, Routes.ProxyTag(firstGroup));
    PreparedSend(rules, firstGroup, OutboundTags(obs));
    OutputDnsClosed(cfg, cc, ech, firstGroup, OutboundTags(obs));
  }

  predicate AllDetoured(defs: map<string, RuleSetDef>) {
    forall tag | tag in defs :: defs[tag].detour.Some?
  }

  lemma {:induction false} AccessDetoured(defs: map<string, RuleSetDef>, names: seq<string>)
    requires AllDetoured(defs)
    ensures AllDetoured(Routes.AccessDefs(defs, names))
    decreases |names|
  {
    if names != [] {
      AccessDetoured(Registered(defs, "geosite-" + names[0], GeositeUrl(names[0])), names[1..]);
    }
  }

  lemma RouteDefsDetoured(cc: string)
    ensures AllDetoured(Routes.RouteDefs(map[], cc))
  {
    var local := Registered(map[], "geosite-private", GeositeUrl("private"));
    AccessDetoured(Registered(local, "overseas-ai", Routes.OVERSEAS_AI_URL), Routes.ACCESS_POINTS);
  }

  lemma GeoDetoured(defs: map<string, RuleSetDef>, cc: string)
    requires AllDetoured(defs)
    ensures AllDetoured(DnsRules.GeoDefs(defs, cc))
  {
  }

  // Every rule-set the output refers to is defined.
  lemma DefsSuffice(cfg: RawConfig, cc: string, ech: seq<string>, firstGroup: string)
    ensures
      var defs := OutputDefs(cfg, cc, firstGroup);
      && Assemble.KeysMatch(defs) && AllDetoured(defs)
      && RouteSetsIn(Routes.GeneratedRoutes(cc, Routes.ProxyTag(firstGroup)), defs.Keys)
      && DnsSetsIn(OutputDns(cfg, cc, ech, firstGroup).rules, defs.Keys)
  {
    var routeDefs, defs := Routes.RouteDefs(map[], cc), OutputDefs(cfg, cc, firstGroup);
    var rules := Routes.GeneratedRoutes(cc, Routes.ProxyTag(firstGroup));
    RouteDefsKeys(cc);
    RouteDefsDetoured(cc);
    GeoDefsKeys(routeDefs, cc);
    GeoDetoured(routeDefs, cc);
    GeneratedRoutesIn(cc, Routes.ProxyTag(firstGroup), routeDefs.Keys);
    SetsStay(rules, routeDefs.Keys, defs.Keys);
    OutputDnsSetsIn(cfg, cc, ech, firstGroup, defs.Keys);
  }

  // Rules keep to the rule-sets that are defined.
  predicate SetsDefined(defs: map<string, RuleSetDef>, rules: seq<RouteTable.RouteRule>, dns: Option<Dns>) {
    && Assemble.KeysMatch(defs) && AllDetoured(defs) && RouteSetsIn(rules, defs.Keys)
    && dns.Some? && DnsSetsIn(dns.value.rules, defs.Keys)
  }

  // With every rule-set defined, assembling drops no rule.
  method AssembleAll(t: Translation)
    requires SetsDefined(t.ruleSetDefs, t.rules, t.dns) && t.final == "" && t.ruleSet == []
    modifies t`outbounds, t`rules, t`ruleSet, t`ruleSetDefs, t`final, t`dns
    ensures t.outbounds == [Direct("DIRECT")] + old(t.outbounds)
    ensures t.ruleSetDefs == old(t.ruleSetDefs)
    ensures t.dns == old(t.dns)
    ensures t.rules == Assemble.AssembledRules(old(t.rules), t.FirstGroupTag(), t.ruleSetDefs.Keys)
    ensures t.final == Assemble.FinalOutbound("", t.FirstGroupTag())
    ensures forall def :: def in t.ruleSet <==> def in t.ruleSetDefs.Values
    ensures Assemble.DistinctDefs(t.ruleSet)
  {
    PruneNoDnsRule(t.dns.value.rules, t.ruleSetDefs.Keys);
    Assemble.Assemble(t);
    MatchingTags(t.ruleSetDefs);
  }

  // The fields that assembling leaves alone, and what it starts from.
  ghost predicate Starts(
    t: Translation, order: seq<string>, outbounds: seq<Outbound>, stubTags: map<string, string>, dns: Option<Dns>,
    resolver: string, rules: seq<RouteTable.RouteRule>, defs: map<string, RuleSetDef>)
    reads t
  {
    && t.groupTagOrder == order && t.outbounds == outbounds && t.stubTags == stubTags && t.dns == dns
    && t.defaultDomainResolver == resolver && t.rules == rules && t.ruleSetDefs == defs
  }

  method AssembleParts(
    t: Translation, ghost order: seq<string>, ghost outbounds: seq<Outbound>, ghost stubTags: map<string, string>,
    ghost dns: Option<Dns>, ghost resolver: string, ghost rules: seq<RouteTable.RouteRule>,
    ghost defs: map<string, RuleSetDef>)
    requires Starts(t, order, outbounds, stubTags, dns, resolver, rules, defs)
    requires SetsDefined(defs, rules, dns) && t.final == "" && t.ruleSet == []
    modifies t
    ensures t.country == old(t.country)
    ensures Starts(t, order, [Direct("DIRECT")] + outbounds, stubTags, dns, resolver,
      Assemble.AssembledRules(rules, FirstOf(order), defs.Keys), defs)
    ensures t.final == Assemble.FinalOutbound("", FirstOf(order))
    ensures forall def :: def in t.ruleSet <==> def in defs.Values
    ensures Assemble.DistinctDefs(t.ruleSet)
  {
    AssembleAll(t);
  }

  lemma TranslationHolds(cfg: RawConfig, t: Translation)
    requires IsTranslation(cfg, t.country, t)
    ensures ReferencesHold(t)
  {
    var groups :| AreGroups(cfg, groups, t.groupTagOrder) && t.outbounds == AllOutbounds(cfg, groups);
    DefsSuffice(cfg, t.country, EchNames(Outbounds(cfg.proxies)), FirstOf(t.groupTagOrder));
    OutputReferences(
      cfg, t.country, EchNames(Outbounds(cfg.proxies)), groups, t.groupTagOrder, t.ruleSetDefs.Keys);
  }

  ghost predicate Untouched(t: Translation)
    reads t
  {
    && t.stubTags == map[] && t.echQueryServers == [] && t.proxyTags == {} && t.deadTags == {}
    && t.groupTags == {} && t.groupTagOrder == [] && t.outbounds == []
    && t.rules == [] && t.ruleSetDefs == map[] && t.dnsTerminalRules == []
  }

  method TranslateParts(cfg: RawConfig, t: Translation) returns (ghost groups: seq<Group>)
    requires Untouched(t)
    modifies t`proxyTags, t`stubTags, t`deadTags, t`echQueryServers, t`groupTags, t`groupTagOrder, t`outbounds
    modifies t`rules, t`ruleSetDefs, t`dns, t`dnsEnabled, t`defaultDomainResolver, t`dnsTerminalRules
    ensures OutboundsDone(cfg, groups, t.groupTagOrder, t.outbounds, t.stubTags, t.echQueryServers)
    ensures TrafficDone(cfg, t)
  {
    groups := TranslateOutbounds(cfg, t);
    TranslateTraffic(cfg, t);
  }

  // Assembles what the parts have become.
  method AssembleOutput(cfg: RawConfig, t: Translation, ghost groups: seq<Group>)
    requires OutboundsDone(cfg, groups, t.groupTagOrder, t.outbounds, t.stubTags, t.echQueryServers)
    requires TrafficDone(cfg, t) && t.final == "" && t.ruleSet == []
    modifies t
    ensures t.country == old(t.country)
    ensures IsTranslation(cfg, t.country, t)
  {
    ghost var cc, order, ech, outbounds := t.country, t.groupTagOrder, t.echQueryServers, t.outbounds;
    DefsSuffice(cfg, cc, ech, t.FirstGroupTag());
    AssembleParts(t, order, outbounds, t.stubTags, t.dns, t.defaultDomainResolver, t.rules, t.ruleSetDefs);
    OutputIs(cfg, cc, groups, order, outbounds, t.stubTags, ech, t.ruleSet);
  }

  method RunPasses(cfg: RawConfig, t: Translation)
    requires Untouched(t) && t.final == "" && t.ruleSet == []
    modifies t
    ensures t.country == old(t.country)
    ensures IsTranslation(cfg, t.country, t)
  {
    ghost var groups := TranslateParts(cfg, t);
    AssembleOutput(cfg, t, groups);
  }

  lemma OutputOutbounds(cfg: RawConfig, country: string, t: Translation)
    requires IsTranslation(cfg, country, t)
    ensures NoDuplicates(t.outbounds) <==> HasCleanNames(cfg)
    ensures DialersDefined(t.outbounds, OutboundTags(t.outbounds)) <==> DialersExist(cfg)
  {
    var groups :| AreGroups(cfg, groups, t.groupTagOrder) && t.outbounds == AllOutbounds(cfg, groups);
    TagsAreDistinctExactly(cfg, groups, t.groupTagOrder);
    DialersHoldExactly(cfg, groups, t.groupTagOrder);
  }

  // Whatever the input, the final check passes exactly if the names in it are clean.
  // The detours of proxies, which it does not check, lead somewhere exactly if the
  // input names outbounds that come out.
  method TranslateFromConfig(cfg: RawConfig, country: string) returns (t: Translation, err: Option<Error>)
    ensures fresh(t)
    ensures IsTranslation(cfg, country, t) && ReferencesHold(t)
    ensures err.None? <==> NoDuplicates(t.outbounds)
    ensures err.None? <==> HasCleanNames(cfg)
    ensures err.Some? ==> err.value.DuplicateTag?
    ensures DialersDefined(t.outbounds, OutboundTags(t.outbounds)) <==> DialersExist(cfg)
  {
    t := new Translation(country);
    RunPasses(cfg, t);
    TranslationHolds(cfg, t);
    OutputOutbounds(cfg, country, t);
    err := ValidateOutput(t);
  }
}
