// Who answers a DNS query: first-match reading of the generated table.
module DnsAnswers {
  import opened Wrappers
  import opened TranslationState
  import opened DnsTable
  import opened DnsServers
  import opened DnsRules
  import opened ResolverGraph
  import opened DnsTheorems
  import opened Wildcards
  import Proxies
  import Text

  // ---------------------------------------------------------------------
  // Is there a direct server?
  // ---------------------------------------------------------------------

  // An entry that becomes a server asked directly: the system resolver, DHCP, or one
  // with an address when nothing is to be asked through a group.
  predicate DirectEntry(ns: Nameserver, detour: string) {
    match ns
    case System => true
    case Dhcp => true
    case Url(scheme, h3, _) => ServerKind(scheme, h3) != "" && detour == ""
    case _ => false
  }

  // With default name servers that are kept but all fake, nothing is direct unless
  // some other entry is; without them there is always a server to start from.
  predicate HasDirectEntry(cfg: RawConfig, detour: string) {
    var d := cfg.dns;
    || !d.enable || DefaultEntries(d) == []
    || (exists e | e in d.defaults + d.proxyServers :: DirectEntry(e, ""))
    || (exists e | e in d.nameservers + d.fallback :: DirectEntry(e, detour))
  }

  lemma {:induction false} EligibleEntries(list: seq<Nameserver>, prefix: string, detour: string, i: nat)
    requires i <= |list| && prefix != ""
    ensures HasDirect(Entries(list, prefix, detour, i)) <==> exists k | i <= k < |list| :: DirectEntry(list[k], detour)
    decreases |list| - i
  {
    if i < |list| {
      EligibleEntries(list, prefix, detour, i + 1);
      var first, rest := Parsed(list[i], prefix + Text.Itoa(i), detour), Entries(list, prefix, detour, i + 1);
      assert Entries(list, prefix, detour, i) == first + rest;
      assert HasDirect(first) <==> DirectEntry(list[i], detour) by {
        assert first != [] ==> first[0] in first;
      }
      HasDirectJoin(first, rest);
    }
  }

  lemma HasDirectJoin(a: seq<Server>, b: seq<Server>)
    ensures HasDirect(a + b) <==> HasDirect(a) || HasDirect(b)
  {
    if HasDirect(a) || HasDirect(b) {
      var s :| (s in a || s in b) && Eligible(s);
      assert s in a + b;
    }
  }

  lemma AutoEligible(list: seq<Nameserver>, n: nat)
    ensures forall s | s in AutoEntries(list, n) :: Eligible(s)
    decreases |list|
  {
    if list != [] && n < MAX_BOOTSTRAP {
      AutoEligible(list[1..], n);
      AutoEligible(list[1..], n + 1);
    }
  }

  lemma EntriesOnInput(list: seq<Nameserver>, prefix: string, detour: string)
    requires prefix != ""
    ensures HasDirect(Entries(list, prefix, detour, 0)) <==> exists e | e in list :: DirectEntry(e, detour)
  {
    EligibleEntries(list, prefix, detour, 0);
    if e :| e in list && DirectEntry(e, detour) {
      var k :| 0 <= k < |list| && list[k] == e;
    }
  }

  // Whether a direct server is among those named in the input.
  lemma NamedOnInput(cfg: RawConfig, detour: string)
    requires DefaultEntries(cfg.dns) != [] && cfg.dns.enable
    ensures HasDirect(NamedServers(cfg.dns, detour)) <==> HasDirectEntry(cfg, detour)
  {
    var d := cfg.dns;
    var def, ns, fb, psn := DefaultEntries(d), NameserverEntries(d, detour), FallbackEntries(d, detour),
                            Entries(d.proxyServers, "psn-", "", 0);
    EntriesOnInput(d.defaults, "def-", "");
    EntriesOnInput(d.nameservers, "ns-", detour);
    EntriesOnInput(d.fallback, "fb-", detour);
    EntriesOnInput(d.proxyServers, "psn-", "");
    HasDirectJoin(def, ns);
    HasDirectJoin(def + ns, fb);
    HasDirectJoin(def + ns + fb, psn);
    assert NamedServers(d, detour) == def + ns + fb + psn + [];
    assert def + ns + fb + psn + [] == def + ns + fb + psn;
    assert forall e :: e in d.defaults + d.proxyServers <==> e in d.defaults || e in d.proxyServers;
    assert forall e :: e in d.nameservers + d.fallback <==> e in d.nameservers || e in d.fallback;
  }

  lemma FinishedEligible(cfg: RawConfig, s: Server)
    ensures Eligible(Finished(cfg, s)) == Eligible(s)
  {
  }

  // A direct server of the output is a named one or the bootstrap server.
  lemma DirectServerIs(cfg: RawConfig, detour: string)
    requires cfg.dns.enable
    ensures HasDirect(Servers(cfg, detour)) <==> HasDirect(NamedServers(cfg.dns, detour)) || NeedsBootstrap(cfg, detour)
  {
    var servers := Servers(cfg, detour);
    if HasDirect(NamedServers(cfg.dns, detour)) {
      var s :| s in NamedServers(cfg.dns, detour) && Eligible(s);
      MainServersAre(cfg, detour, s);
      FinishedEligible(cfg, s);
      assert Finished(cfg, s) in servers;
    } else if NeedsBootstrap(cfg, detour) {
      assert BOOTSTRAP in servers && Eligible(BOOTSTRAP);
    } else {
      forall s | s in servers ensures !Eligible(s) {
        MainServersAre(cfg, detour, s);
        if s !in SpecialServers(cfg) {
          var s' :| s' in NamedServers(cfg.dns, detour) && s == Finished(cfg, s');
          FinishedEligible(cfg, s');
        }
      }
    }
  }

  // A local candidate comes from a default name server "system".
  lemma BootstrapMeansSystem(cfg: RawConfig, detour: string)
    requires cfg.dns.enable && DefaultEntries(cfg.dns) != [] && NeedsBootstrap(cfg, detour)
    ensures HasDirect(NamedServers(cfg.dns, detour))
  {
    var resolvers := Resolvers(cfg.dns);
    CandidateIs(cfg.dns, detour);
    var r :| r in resolvers && Candidate(cfg.dns, detour) == r.tag && (r.kind == "udp" || r == resolvers[0]);
    ResolverTagsNonempty(cfg.dns);
    CandidateServer(cfg, detour, r);
    ResolversFresh(cfg.dns, detour);
    assert Eligible(r) && r in NamedServers(cfg.dns, detour);
  }

  // When the output has a direct server, told from the input.
  lemma HasDirectOnInput(cfg: RawConfig, detour: string)
    ensures HasDirect(Servers(cfg, detour)) <==> HasDirectEntry(cfg, detour)
  {
    if !cfg.dns.enable {
      assert Servers(cfg, detour)[0] == BOOTSTRAP && Eligible(BOOTSTRAP);
    } else if DefaultEntries(cfg.dns) == [] {
      var auto := AutoEntries(cfg.dns.nameservers, 0);
      AutoEligible(cfg.dns.nameservers, 0);
      if auto == [] {
        assert Candidate(cfg.dns, detour) == "";
      } else {
        assert auto[0] in NamedServers(cfg.dns, detour);
      }
      DirectServerIs(cfg, detour);
    } else {
      NamedOnInput(cfg, detour);
      DirectServerIs(cfg, detour);
      if NeedsBootstrap(cfg, detour) {
        BootstrapMeansSystem(cfg, detour);
      }
    }
  }

  // ---------------------------------------------------------------------
  // Direct mode
  // ---------------------------------------------------------------------

  // In Direct mode every query goes to a server that is asked directly and answers
  // from the network, whenever there is one.
  lemma DirectModeStaysDirect(
    env: Env, ipOnly: set<string>, cfg: RawConfig, cc: string, ech: seq<string>, detour: string, q: Query)
    requires HasDirect(Servers(cfg, detour)) && q.mode == "Direct"
    ensures
      var choice := Choose(env, ipOnly, Table(cfg, cc, ech, detour), q, None);
      choice.Some? && IsDirect(Servers(cfg, detour), choice.value.server)
  {
    ServerTagsDistinct(cfg, detour);
    DirectTags(Servers(cfg, detour));
    ModeDecides(env, ipOnly, cfg, cc, ech, detour, q);
  }

  // ---------------------------------------------------------------------
  // ECH names
  // ---------------------------------------------------------------------

  predicate CaughtByUser(env: Env, ipOnly: set<string>, cfg: RawConfig, detour: string, q: Query) {
    exists r | r in WithActions(UserRules(cfg, detour)) :: Decides(env, ipOnly, r, q, None)
  }

  lemma SkipUser(
    env: Env, ipOnly: set<string>, cfg: RawConfig, cc: string, ech: seq<string>, detour: string, q: Query)
    requires !CaughtByUser(env, ipOnly, cfg, detour, q)
    ensures Choose(env, ipOnly, AfterMode(cfg, cc, ech, detour), q, None)
         == Choose(env, ipOnly, AfterUser(cfg, cc, ech, detour), q, None)
  {
    UserRulesPlain(cfg, detour);
    NamesRoute(UserRules(cfg, detour));
    Skip(env, ipOnly, WithActions(UserRules(cfg, detour)), AfterUser(cfg, cc, ech, detour), q, None);
  }

  // A name that ECH needs, unless the user has a rule for it, is asked directly in
  // every mode, so that fetching the ECH configuration never waits for the proxy.
  lemma EchNamesStayDirect(
    env: Env, ipOnly: set<string>, cfg: RawConfig, cc: string, ech: seq<string>, detour: string, q: Query)
    requires HasDirect(Servers(cfg, detour)) && q.name in ech && !UserNames(cfg, detour, q.name)
    ensures
      var choice := Choose(env, ipOnly, Table(cfg, cc, ech, detour), q, None);
      choice.Some? && IsDirect(Servers(cfg, detour), choice.value.server)
  {
    var servers := Servers(cfg, detour);
    ServerTagsDistinct(cfg, detour);
    DirectTags(servers);
    ModeDecides(env, ipOnly, cfg, cc, ech, detour, q);
    UserCatches(env, ipOnly, cfg, detour, q);
    SkipUser(env, ipOnly, cfg, cc, ech, detour, q);
    FirstEligibleIs(servers, ENCRYPTED, "");
    var rule := WithAction(NamesRule(ech, [], EchTag(servers)));
    var after := AfterUser(cfg, cc, ech, detour);
    assert WithActions(EchRules(ech, EchTag(servers))) == [rule];
    assert after[0] == rule;
    assert Decides(env, ipOnly, rule, q, None);
  }

  // ---------------------------------------------------------------------
  // The fake-ip filter
  // ---------------------------------------------------------------------

  lemma {:induction false} FilterSplit(filter: seq<string>)
    ensures forall s :: s in Suffixes(filter) <==> exists f | f in filter :: IsPattern(f) && s == Suffix(f)
    ensures forall d :: d in Domains(filter) <==> d in filter && !IsPattern(d)
  {
    if filter != [] {
      FilterSplit(filter[1..]);
      assert forall f :: f in filter <==> f == filter[0] || f in filter[1..];
      var rest := Suffixes(filter[1..]);
      assert Suffixes(filter) == (if IsPattern(filter[0]) then [Suffix(filter[0])] else []) + rest;
    }
  }

  predicate FilterMatches(filter: seq<string>, server: string, name: string) {
    exists r | r in FilterRules(filter, server) :: NameMatches(r.cond, name)
  }

  // So it is for the names the supported proxies of the input need.
  lemma EchOfProxiesStaysDirect(
    env: Env, ipOnly: set<string>, cfg: RawConfig, cc: string, detour: string, p: RawProxy, q: Query)
    requires p in cfg.proxies && p.name != "" && p.endpoint && p.node.Some? && p.node.value.echName == q.name != ""
    requires HasDirectEntry(cfg, detour) && !UserNames(cfg, detour, q.name)
    ensures
      var ech := Proxies.EchNames(Proxies.Outbounds(cfg.proxies));
      var choice := Choose(env, ipOnly, Table(cfg, cc, ech, detour), q, None);
      choice.Some? && IsDirect(Servers(cfg, detour), choice.value.server)
  {
    HasDirectOnInput(cfg, detour);
    Proxies.EchNamesAre(cfg.proxies);
    EchNamesStayDirect(env, ipOnly, cfg, cc, Proxies.EchNames(Proxies.Outbounds(cfg.proxies)), detour, q);
  }

  // The emitted filter rules match exactly the names their entries catch: no name the
  // filter is not meant for, and every name it is meant for if its entries are
  // translated exactly.
  lemma FilterRulesMatch(filter: seq<string>, server: string, name: string)
    ensures FilterMatches(filter, server, name) <==> FilterCaught(filter, name)
    ensures '*' !in name && FilterMatches(filter, server, name) ==> FilterMeant(filter, name)
    ensures (forall f | f in filter :: TranslatedExactly(f)) && FilterMeant(filter, name) ==>
      FilterMatches(filter, server, name)
  {
    FilterMatchesAre(filter, server, name);
    if forall f | f in filter :: TranslatedExactly(f) {
      FilterIsExact(filter, name);
    }
    if '*' !in name && FilterCaught(filter, name) {
      FilterIsSound(filter, name);
    }
  }

  lemma CaughtMatches(filter: seq<string>, server: string, name: string)
    requires FilterCaught(filter, name)
    ensures FilterMatches(filter, server, name)
  {
    FilterSplit(filter);
    var bySuffix, byName := NamesRule([], Suffixes(filter), server), NamesRule(Domains(filter), [], server);
    var f :| f in filter && EntryCaught(f, name);
    if IsPattern(f) {
      assert Suffix(f) in Suffixes(filter);
      assert bySuffix in FilterRules(filter, server) && NameMatches(bySuffix.cond, name);
    } else {
      assert f in Domains(filter);
      assert byName in FilterRules(filter, server) && NameMatches(byName.cond, name);
    }
  }

  lemma MatchesCaught(filter: seq<string>, server: string, name: string, r: Rule)
    requires r in FilterRules(filter, server) && NameMatches(r.cond, name)
    ensures FilterCaught(filter, name)
  {
    FilterSplit(filter);
    if Suffixes(filter) != [] && r == NamesRule([], Suffixes(filter), server) {
      var s :| s in Suffixes(filter) && HasSuffix(name, s);
      var f :| f in filter && IsPattern(f) && s == Suffix(f);
      assert EntryCaught(f, name);
    } else {
      assert name in Domains(filter) && EntryCaught(name, name);
    }
  }

  lemma FilterMatchesAre(filter: seq<string>, server: string, name: string)
    ensures FilterMatches(filter, server, name) <==> FilterCaught(filter, name)
  {
    if FilterCaught(filter, name) {
      CaughtMatches(filter, server, name);
    }
    if r :| r in FilterRules(filter, server) && NameMatches(r.cond, name) {
      MatchesCaught(filter, server, name, r);
    }
  }

  predicate Routes(rules: seq<Rule>, server: string) {
    forall r | r in rules :: r.Rule? && r.action == "route" && r.server == server
  }

  lemma NamesDecide(env: Env, ipOnly: set<string>, r: Rule, q: Query)
    requires AboutNames(r)
    ensures Decides(env, ipOnly, WithAction(r), q, None) == NameMatches(r.cond, q.name)
  {
  }

  lemma FilterRulesPlain(filter: seq<string>, server: string)
    requires server != ""
    ensures forall r | r in FilterRules(filter, server) :: AboutNames(r)
    ensures Routes(WithActions(FilterRules(filter, server)), server)
  {
  }

  lemma FilterRulesDecide(env: Env, ipOnly: set<string>, filter: seq<string>, server: string, q: Query)
    requires FilterCaught(filter, q.name) && server != ""
    ensures exists r | r in WithActions(FilterRules(filter, server)) :: Decides(env, ipOnly, r, q, None)
  {
    var part := FilterRules(filter, server);
    FilterRulesMatch(filter, server, q.name);
    FilterRulesPlain(filter, server);
    var r :| r in part && NameMatches(r.cond, q.name);
    NamesDecide(env, ipOnly, r, q);
    var i :| 0 <= i < |part| && part[i] == r;
    assert WithActions(part)[i] == WithAction(r);
  }

  lemma RoutedTo(env: Env, ipOnly: set<string>, part: seq<Rule>, rest: seq<Rule>, server: string, q: Query)
    requires Routes(part, server) && exists r | r in part :: Decides(env, ipOnly, r, q, None)
    ensures
      var choice := Choose(env, ipOnly, part + rest, q, None);
      choice.Some? && choice.value.server == server
  {
    DecidedIn(env, ipOnly, part, rest, q, None);
  }

  lemma FilterDecides(
    env: Env, ipOnly: set<string>, cfg: RawConfig, cc: string, ech: seq<string>, detour: string, q: Query)
    requires Filters(cfg.dns, detour) && FilterCaught(cfg.dns.fakeIPFilter, q.name)
    ensures
      var choice := Choose(env, ipOnly, AfterMode(cfg, cc, ech, detour), q, None);
      && choice.Some?
      && choice.value.server
         == if Whitelist(cfg.dns) then FAKEIP_SERVER.tag else FirstNameserver(cfg.dns, detour)
  {
    var d := cfg.dns;
    var server := if Whitelist(d) then FAKEIP_SERVER.tag else FirstNameserver(d, detour);
    var part := FilterRules(d.fakeIPFilter, server);
    var hosts := if UsesHosts(cfg) then [NamesRule(cfg.hosts, [], HOSTS_SERVER.tag)] else [];
    var rest := WithActions(hosts) + AfterUser(cfg, cc, ech, detour);
    FilterRulesDecide(env, ipOnly, d.fakeIPFilter, server, q);
    FilterRulesPlain(d.fakeIPFilter, server);
    WithActionsJoin(part, hosts);
    SplitAfterMode(cfg, cc, ech, detour, part, hosts);
    RoutedTo(env, ipOnly, WithActions(part), rest, server, q);
  }

  lemma SplitAfterMode(
    cfg: RawConfig, cc: string, ech: seq<string>, detour: string, part: seq<Rule>, hosts: seq<Rule>)
    requires UserRules(cfg, detour) == part + hosts
    ensures AfterMode(cfg, cc, ech, detour)
         == WithActions(part) + (WithActions(hosts) + AfterUser(cfg, cc, ech, detour))
  {
    WithActionsJoin(part, hosts);
  }

  // A name the rules of the blacklist catch gets a fake address only if the first name
  // server that was kept is itself "fakeip", and then in every mode but Direct.
  lemma BlacklistedNamesAreReal(
    env: Env, ipOnly: set<string>, cfg: RawConfig, cc: string, ech: seq<string>, detour: string, q: Query)
    requires cfg.dns.enable && Filters(cfg.dns, detour) && !Whitelist(cfg.dns)
    requires FilterCaught(cfg.dns.fakeIPFilter, q.name)
    ensures
      var servers := Servers(cfg, detour);
      var choice := Choose(env, ipOnly, Table(cfg, cc, ech, detour), q, None);
      && choice.Some? && FirstWith(servers, choice.value.server).Some?
      && (IsFake(servers, choice.value.server) <==>
          NameserverEntries(cfg.dns, detour)[0].kind == "fakeip" && !(HasDirect(servers) && q.mode == "Direct"))
  {
    ServerTagsDistinct(cfg, detour);
    DirectTags(Servers(cfg, detour));
    ModeDecides(env, ipOnly, cfg, cc, ech, detour, q);
    FilterDecides(env, ipOnly, cfg, cc, ech, detour, q);
    NameserverKind(cfg, detour);
  }

  // So it is for every name the blacklist is meant for, if each of its entries is
  // translated exactly.
  lemma MeantNamesAreReal(
    env: Env, ipOnly: set<string>, cfg: RawConfig, cc: string, ech: seq<string>, detour: string, q: Query)
    requires cfg.dns.enable && Filters(cfg.dns, detour) && !Whitelist(cfg.dns)
    requires FilterMeant(cfg.dns.fakeIPFilter, q.name)
    requires forall f | f in cfg.dns.fakeIPFilter :: TranslatedExactly(f)
    ensures
      var servers := Servers(cfg, detour);
      var choice := Choose(env, ipOnly, Table(cfg, cc, ech, detour), q, None);
      choice.Some? && (IsFake(servers, choice.value.server) <==>
        NameserverEntries(cfg.dns, detour)[0].kind == "fakeip" && !(HasDirect(servers) && q.mode == "Direct"))
  {
    FilterIsExact(cfg.dns.fakeIPFilter, q.name);
    BlacklistedNamesAreReal(env, ipOnly, cfg, cc, ech, detour, q);
  }

  // The response rule after its evaluate rule.
  predicate GeoDecides(env: Env, ipOnly: set<string>, servers: seq<Server>, cc: string, q: Query) {
    var direct := DirectTag(servers);
    Decides(env, ipOnly, WithAction(ResponseRule(direct, cc)), q, DnsTable.Keep(env, EvaluateRule(direct), q, None))
  }

  // A query for addresses whose name, or the address the direct server gives, is
  // private or in a rule-set of the country.
  predicate GeoMatches(env: Env, servers: seq<Server>, cc: string, q: Query) {
    var answer := Some(env.answer(DirectServer(servers), q));
    && q.qtype in {"A", "AAAA", "HTTPS"}
    && (|| env.inSet("geosite-private", q, answer) || env.inSet("geoip-" + cc, q, answer)
        || (cc == "cn" && env.inSet("geosite-cn", q, answer)))
  }

  lemma GeoTagsAre(cc: string)
    ensures forall tag ::
      (tag in GeoTags(cc) <==> tag == "geosite-private" || tag == "geoip-" + cc || (cc == "cn" && tag == "geosite-cn"))
  {
    assert GeoTags(cc)[0] == "geosite-private" && GeoTags(cc)[|GeoTags(cc)| - 1] == "geoip-" + cc;
  }

  lemma GeoRulesMean(env: Env, ipOnly: set<string>, servers: seq<Server>, cc: string, q: Query)
    ensures GeoDecides(env, ipOnly, servers, cc, q) == GeoMatches(env, servers, cc, q)
  {
    var direct := DirectTag(servers);
    var kept := DnsTable.Keep(env, EvaluateRule(direct), q, None);
    ChosenTags(servers);
    GeoTagsAre(cc);
    assert kept == if AddressQuery(q) then Some(env.answer(direct, q)) else None;
    assert SetTags(WithAction(ResponseRule(direct, cc)).ruleSets) == GeoTags(cc);
  }

  // Nothing more specific applies to the query.
  predicate LeftOver(
    env: Env, cfg: RawConfig, cc: string, ech: seq<string>, detour: string, q: Query)
  {
    && q.mode != "Direct" && q.name !in ech
    && !UserNames(cfg, detour, q.name) && !GeoMatches(env, Servers(cfg, detour), cc, q)
  }

  // A whitelist is meant to give fake addresses to the listed names only. It does so
  // except for A and AAAA queries: those get a fake address whatever their name,
  // since the catch-all for them comes before the terminal rule.
  lemma WhitelistLeavesAddressQueries(
    env: Env, ipOnly: set<string>, cfg: RawConfig, cc: string, ech: seq<string>, detour: string, q: Query)
    requires cfg.dns.enable && Filters(cfg.dns, detour) && Whitelist(cfg.dns)
    requires HasDirect(Servers(cfg, detour)) && LeftOver(env, cfg, cc, ech, detour, q)
    requires NameserverEntries(cfg.dns, detour)[0].kind != "fakeip"
    ensures
      var choice := Choose(env, ipOnly, Table(cfg, cc, ech, detour), q, None);
      && choice.Some?
      && (IsFake(Servers(cfg, detour), choice.value.server) <==> q.qtype == "A" || q.qtype == "AAAA")
  {
    var servers := Servers(cfg, detour);
    ServerTagsDistinct(cfg, detour);
    DirectTags(servers);
    FakeTagNonempty(cfg, detour);
    ModeDecides(env, ipOnly, cfg, cc, ech, detour, q);
    UserCatches(env, ipOnly, cfg, detour, q);
    SkipUser(env, ipOnly, cfg, cc, ech, detour, q);
    NameserverKind(cfg, detour);
    FakeServerIsFake(cfg, detour);
    GeoRulesMean(env, ipOnly, servers, cc, q);
    AfterUserChooses(env, ipOnly, cfg, cc, ech, detour, q);
  }

  // What the rules after the user's choose, if there is a direct server.
  lemma AfterUserChooses(
    env: Env, ipOnly: set<string>, cfg: RawConfig, cc: string, ech: seq<string>, detour: string, q: Query)
    requires DirectTag(Servers(cfg, detour)) != ""
    ensures
      var servers := Servers(cfg, detour);
      var choice := Choose(env, ipOnly, AfterUser(cfg, cc, ech, detour), q, None);
      Chosen(choice)
      == if q.name in ech then Some(EchTag(servers))
         else if GeoDecides(env, ipOnly, servers, cc, q) then Some(DirectTag(servers))
         else if FakeTag(servers) != "" && (q.qtype == "A" || q.qtype == "AAAA") then Some(FakeTag(servers))
         else if Filters(cfg.dns, detour) && Whitelist(cfg.dns) then Some(FirstNameserver(cfg.dns, detour))
         else None
  {
    var servers := Servers(cfg, detour);
    var direct, fake := DirectTag(servers), FakeTag(servers);
    var echRules := WithActions(EchRules(ech, EchTag(servers)));
    var geo := [EvaluateRule(direct), WithAction(ResponseRule(direct, cc))];
    var tail := WithActions(FakeRules(fake)) + WithActions(Terminal(cfg.dns, detour));
    Regroup(echRules, geo, WithActions(FakeRules(fake)), WithActions(Terminal(cfg.dns, detour)));
    if q.name in ech {
      FirstEligibleIs(servers, ENCRYPTED, "");
      assert EchTag(servers) != "";
      EchDecides(env, ipOnly, ech, EchTag(servers), geo + tail, q);
    } else {
      EchPasses(env, ipOnly, ech, EchTag(servers), q);
      Skip(env, ipOnly, echRules, geo + tail, q, None);
      GeoChooses(env, ipOnly, servers, cc, tail, q);
      TailChooses(env, ipOnly, fake, Terminal(cfg.dns, detour), q, DnsTable.Keep(env, EvaluateRule(direct), q, None));
    }
  }

  function Chosen(choice: Option<Decision>): Option<string> {
    match choice case None => None case Some(d) => Some(d.server)
  }

  lemma Regroup(a: seq<Rule>, b: seq<Rule>, c: seq<Rule>, d: seq<Rule>)
    ensures a + (b + c) + d == a + (b + (c + d))
  {
  }

  lemma EchPasses(env: Env, ipOnly: set<string>, ech: seq<string>, server: string, q: Query)
    requires q.name !in ech
    ensures Passes(env, ipOnly, WithActions(EchRules(ech, server)), q, None)
  {
  }

  lemma EchDecides(env: Env, ipOnly: set<string>, ech: seq<string>, server: string, rest: seq<Rule>, q: Query)
    requires q.name in ech && server != ""
    ensures Chosen(Choose(env, ipOnly, WithActions(EchRules(ech, server)) + rest, q, None)) == Some(server)
  {
    var rule := WithAction(NamesRule(ech, [], server));
    assert WithActions(EchRules(ech, server)) == [rule];
    assert ([rule] + rest)[0] == rule;
    NamesDecide(env, ipOnly, NamesRule(ech, [], server), q);
  }

  // A configuration with one name server and one name on the whitelist, and a query
  // for the address of another name.
  const LISTED_ONLY := RawConfig([], [],
    RawDns(true, [Url("", None, Ip("8.8.8.8", true))], [], [], [], "fake-ip", ["a"], "whitelist", None, false), [])

  const NO_SETS := Env((tag, q, r) => false, (i, q, r) => false, (server, q) => 0)

  function OnlyServer(): Server {
    Server("udp", "ns-" + Text.Itoa(0), Some(Ip("8.8.8.8", true)), None, None)
  }

  lemma ListedOnlyServers()
    ensures NameserverEntries(LISTED_ONLY.dns, "") == [OnlyServer()]
  {
    var list := LISTED_ONLY.dns.nameservers;
    assert Entries(list, "ns-", "", 1) == [];
    assert Parsed(list[0], "ns-" + Text.Itoa(0), "") == [OnlyServer()];
  }

  lemma ListedOnlyIsDirect()
    ensures HasDirect(Servers(LISTED_ONLY, ""))
  {
    ListedOnlyServers();
    MainServersAre(LISTED_ONLY, "", OnlyServer());
    assert Finished(LISTED_ONLY, OnlyServer()) in Servers(LISTED_ONLY, "");
    assert Eligible(Finished(LISTED_ONLY, OnlyServer()));
  }

  lemma OnlyAIsListed()
    ensures !FilterCaught(["a"], "b")
  {
    assert "a"[0..1][0] == 'a' && "*"[0] == '*';
    assert !IsPattern("a");
    assert !EntryCaught("a", "b");
  }

  lemma NoSetDecides(servers: seq<Server>, cc: string, q: Query)
    ensures !GeoMatches(NO_SETS, servers, cc, q)
  {
  }

  lemma WhitelistFakesOthers()
    ensures
      var choice := Choose(NO_SETS, {}, Table(LISTED_ONLY, "us", [], ""), Query("Rule", "b", "A"), None);
      choice.Some? && IsFake(Servers(LISTED_ONLY, ""), choice.value.server)
  {
    var q := Query("Rule", "b", "A");
    ListedOnlyServers();
    ListedOnlyIsDirect();
    OnlyAIsListed();
    NoSetDecides(Servers(LISTED_ONLY, ""), "us", q);
    WhitelistLeavesAddressQueries(NO_SETS, {}, LISTED_ONLY, "us", [], "", q);
  }

  lemma FakeTagNonempty(cfg: RawConfig, detour: string)
    requires UsesFakeIP(cfg.dns) && cfg.dns.enable
    ensures FakeTag(Servers(cfg, detour)) != ""
  {
    FakeTagIs(Servers(cfg, detour));
    var named := WithResolvers(NamedServers(cfg.dns, detour), Tags(Resolvers(cfg.dns)));
    assert SpecialServers(cfg)[0] == FAKEIP_SERVER;
    assert MainServers(cfg, detour)[|named|] == FAKEIP_SERVER;
    assert FAKEIP_SERVER in Servers(cfg, detour);
  }

  lemma GeoChooses(env: Env, ipOnly: set<string>, servers: seq<Server>, cc: string, tail: seq<Rule>, q: Query)
    ensures
      var direct := DirectTag(servers);
      Chosen(Choose(env, ipOnly, [EvaluateRule(direct), WithAction(ResponseRule(direct, cc))] + tail, q, None))
      == if GeoDecides(env, ipOnly, servers, cc, q) then Some(direct)
         else Chosen(Choose(env, ipOnly, tail, q, DnsTable.Keep(env, EvaluateRule(direct), q, None)))
  {
    var direct := DirectTag(servers);
    var table := [EvaluateRule(direct), WithAction(ResponseRule(direct, cc))] + tail;
    assert table[1..][0] == WithAction(ResponseRule(direct, cc)) && table[1..][1..] == tail;
  }

  lemma TailChooses(
    env: Env, ipOnly: set<string>, fake: string, terminal: seq<Rule>, q: Query, kept: Option<Response>)
    requires terminal == [] || exists server :: server != "" && terminal == [NamesRule([], [], server)]
    ensures
      Chosen(Choose(env, ipOnly, WithActions(FakeRules(fake)) + WithActions(terminal), q, kept))
      == if fake != "" && (q.qtype == "A" || q.qtype == "AAAA") then Some(fake)
         else if terminal == [] then None else Some(terminal[0].server)
  {
    var last := WithActions(terminal);
    assert terminal != [] ==> last == [WithAction(terminal[0])];
    if fake == "" {
      assert WithActions(FakeRules(fake)) + last == last;
    } else {
      var first := WithAction(FakeRule(fake));
      assert WithActions(FakeRules(fake)) == [first];
      assert ([first] + last)[0] == first && ([first] + last)[1..] == last;
    }
  }

  // ---------------------------------------------------------------------
  // Every query
  // ---------------------------------------------------------------------

  // The names the user has rules for.
  predicate UserNames(cfg: RawConfig, detour: string, name: string) {
    || (Filters(cfg.dns, detour) && FilterCaught(cfg.dns.fakeIPFilter, name))
    || (UsesHosts(cfg) && name in cfg.hosts)
  }

  lemma NamesCatch(env: Env, ipOnly: set<string>, rules: seq<Rule>, q: Query)
    requires forall r | r in rules :: AboutNames(r)
    ensures (exists r | r in WithActions(rules) :: Decides(env, ipOnly, r, q, None))
      <==> exists r | r in rules && AboutNames(r) :: NameMatches(r.cond, q.name)
  {
    var acted := WithActions(rules);
    forall r | r in rules ensures Decides(env, ipOnly, WithAction(r), q, None) == NameMatches(r.cond, q.name) {
      NamesDecide(env, ipOnly, r, q);
    }
    if a :| a in acted && Decides(env, ipOnly, a, q, None) {
      var i :| 0 <= i < |acted| && acted[i] == a;
      assert rules[i] in rules;
    }
    if r :| r in rules && NameMatches(r.cond, q.name) {
      var i :| 0 <= i < |rules| && rules[i] == r;
      assert acted[i] in acted;
    }
  }

  // The user's rules catch exactly the names of the filter and of the hosts table.
  lemma UserCatches(env: Env, ipOnly: set<string>, cfg: RawConfig, detour: string, q: Query)
    ensures CaughtByUser(env, ipOnly, cfg, detour, q) <==> UserNames(cfg, detour, q.name)
  {
    var user := UserRules(cfg, detour);
    UserRulesPlain(cfg, detour);
    NamesCatch(env, ipOnly, user, q);
    var part, hosts := FilterPart(cfg.dns, detour), NamesRule(cfg.hosts, [], HOSTS_SERVER.tag);
    if Filters(cfg.dns, detour) {
      FilterRulesMatch(cfg.dns.fakeIPFilter,
        if Whitelist(cfg.dns) then FAKEIP_SERVER.tag else FirstNameserver(cfg.dns, detour), q.name);
    }
    assert forall r :: r in user <==> r in part || (UsesHosts(cfg) && r == hosts);
    assert UsesHosts(cfg) ==> hosts in user && (NameMatches(hosts.cond, q.name) <==> q.name in cfg.hosts);
  }

  lemma HostsDecide(
    env: Env, ipOnly: set<string>, cfg: RawConfig, cc: string, ech: seq<string>, detour: string, q: Query)
    requires !(Filters(cfg.dns, detour) && FilterCaught(cfg.dns.fakeIPFilter, q.name))
    requires UsesHosts(cfg) && q.name in cfg.hosts
    ensures Chosen(Choose(env, ipOnly, AfterMode(cfg, cc, ech, detour), q, None)) == Some(HOSTS_SERVER.tag)
  {
    var part, hosts := FilterPart(cfg.dns, detour), [NamesRule(cfg.hosts, [], HOSTS_SERVER.tag)];
    SplitAfterMode(cfg, cc, ech, detour, part, hosts);
    FilterPasses(env, ipOnly, cfg, detour, q);
    var rest := WithActions(hosts) + AfterUser(cfg, cc, ech, detour);
    Skip(env, ipOnly, WithActions(part), rest, q, None);
    NamesDecide(env, ipOnly, hosts[0], q);
    assert rest[0] == WithAction(hosts[0]);
  }

  lemma FilterPasses(env: Env, ipOnly: set<string>, cfg: RawConfig, detour: string, q: Query)
    requires !(Filters(cfg.dns, detour) && FilterCaught(cfg.dns.fakeIPFilter, q.name))
    ensures Passes(env, ipOnly, WithActions(FilterPart(cfg.dns, detour)), q, None)
  {
    if Filters(cfg.dns, detour) {
      var server := if Whitelist(cfg.dns) then FAKEIP_SERVER.tag else FirstNameserver(cfg.dns, detour);
      var part := FilterRules(cfg.dns.fakeIPFilter, server);
      var acted := WithActions(part);
      FilterRulesMatch(cfg.dns.fakeIPFilter, server, q.name);
      FilterRulesPlain(cfg.dns.fakeIPFilter, server);
      forall r | r in acted ensures !Decides(env, ipOnly, r, q, None) && r.Rule? && r.action != "evaluate" {
        var i :| 0 <= i < |acted| && acted[i] == r;
        assert part[i] in part && !NameMatches(part[i].cond, q.name);
      }
    }
  }

  // Who answers a query: the server chosen, or the final one.
  function Answerer(
    env: Env, ipOnly: set<string>, cfg: RawConfig, cc: string, ech: seq<string>, detour: string, q: Query): string
  {
    if !cfg.dns.enable then TranslatedDns(cfg, detour).final
    else
      match Chosen(Choose(env, ipOnly, Table(cfg, cc, ech, detour), q, None))
      case None => FinalServer(cfg.dns, detour)
      case Some(server) => server
  }

  // The first fallback or, without one and under a whitelist, the first name server.
  // With neither, the tag is empty and the choice is left to sing-box.
  function LastServer(d: RawDns, detour: string): string {
    if FallbackEntries(d, detour) != [] && !(Filtered(d, detour) && d.fakeIPFilterMode == "whitelist") then
      FallbackEntries(d, detour)[0].tag
    else if NameserverEntries(d, detour) != [] then NameserverEntries(d, detour)[0].tag
    else ""
  }

  // There is a fake-ip server and a filter for it, and a server to send the rest to.
  predicate Filtered(d: RawDns, detour: string) {
    d.enhancedMode == "fake-ip" && d.fakeIPFilter != [] && NameserverEntries(d, detour) != []
  }

  lemma FilteredIs(d: RawDns, detour: string)
    ensures Filters(d, detour) == Filtered(d, detour)
  {
    EntryTags(d.nameservers, "ns-", detour, 0);
  }

  lemma WithoutDirect(
    env: Env, ipOnly: set<string>, cfg: RawConfig, cc: string, ech: seq<string>, detour: string, q: Query)
    requires DirectTag(Servers(cfg, detour)) == ""
    ensures
      var choice := Choose(env, ipOnly, AfterUser(cfg, cc, ech, detour), q, None);
      Chosen(choice) == if Filters(cfg.dns, detour) && Whitelist(cfg.dns) then Some(FirstNameserver(cfg.dns, detour))
                        else None
  {
    var terminal := Terminal(cfg.dns, detour);
    TailChooses(env, ipOnly, "", terminal, q, None);
    assert WithActions(FakeRules("")) + WithActions(terminal) == WithActions(terminal);
    assert AfterUser(cfg, cc, ech, detour) == WithActions(terminal);
  }

  // Every query, in every mode and for every configuration: Direct mode first, then
  // the user's filter and hosts, then ECH, local names and addresses, fake addresses,
  // and what is left. Without a direct server only the user's part and what is left
  // remain, and with DNS disabled the bootstrap server answers everything.
  lemma EveryQueryIsAnswered(
    env: Env, ipOnly: set<string>, cfg: RawConfig, cc: string, ech: seq<string>, detour: string, q: Query)
    ensures
      var d, servers := cfg.dns, Servers(cfg, detour);
      var direct := HasDirectEntry(cfg, detour);
      Answerer(env, ipOnly, cfg, cc, ech, detour, q)
      == if !d.enable then "bootstrap-dns"
         else if direct && q.mode == "Direct" then DirectServer(servers)
         else if Filtered(d, detour) && FilterCaught(d.fakeIPFilter, q.name) then
           (if d.fakeIPFilterMode == "whitelist" then "fakeip-dns" else NameserverEntries(d, detour)[0].tag)
         else if d.useHosts != Some(false) && q.name in cfg.hosts then "hosts"
         else if direct && q.name in ech then EchServer(servers)
         else if direct && GeoMatches(env, servers, cc, q) then DirectServer(servers)
         else if direct && q.qtype in {"A", "AAAA"} && FakeServer(servers) != "" then FakeServer(servers)
         else LastServer(d, detour)
  {
    var servers := Servers(cfg, detour);
    ChosenTags(servers);
    ChosenFakeTag(servers);
    FilteredIs(cfg.dns, detour);
    AnswersByTag(env, ipOnly, cfg, cc, ech, detour, q);
    HostsAre(cfg, q.name);
  }

  lemma HostsAre(cfg: RawConfig, name: string)
    ensures UsesHosts(cfg) && name in cfg.hosts <==> cfg.dns.useHosts != Some(false) && name in cfg.hosts
  {
    match cfg.dns.useHosts {
      case None =>
      case Some(use) => assert use == true || use == false;
    }
  }

  lemma AnswersByTag(
    env: Env, ipOnly: set<string>, cfg: RawConfig, cc: string, ech: seq<string>, detour: string, q: Query)
    ensures
      var d, servers := cfg.dns, Servers(cfg, detour);
      var direct := HasDirectEntry(cfg, detour);
      Answerer(env, ipOnly, cfg, cc, ech, detour, q)
      == if !d.enable then "bootstrap-dns"
         else if direct && q.mode == "Direct" then DirectTag(servers)
         else if Filters(d, detour) && FilterCaught(d.fakeIPFilter, q.name) then
           (if Whitelist(d) then "fakeip-dns" else FirstTag(NameserverEntries(d, detour)))
         else if UsesHosts(cfg) && q.name in cfg.hosts then "hosts"
         else if direct && q.name in ech then EchTag(servers)
         else if direct && GeoMatches(env, servers, cc, q) then DirectTag(servers)
         else if direct && (q.qtype == "A" || q.qtype == "AAAA") && FakeTag(servers) != "" then FakeTag(servers)
         else LastServer(d, detour)
  {
    FilteredIs(cfg.dns, detour);
    var servers := Servers(cfg, detour);
    HasDirectOnInput(cfg, detour);
    ServerTagsDistinct(cfg, detour);
    DirectTags(servers);
    ModeDecides(env, ipOnly, cfg, cc, ech, detour, q);
    if cfg.dns.enable && !(HasDirect(servers) && q.mode == "Direct") {
      if Filters(cfg.dns, detour) && FilterCaught(cfg.dns.fakeIPFilter, q.name) {
        FilterDecides(env, ipOnly, cfg, cc, ech, detour, q);
      } else if UsesHosts(cfg) && q.name in cfg.hosts {
        HostsDecide(env, ipOnly, cfg, cc, ech, detour, q);
      } else {
        UserCatches(env, ipOnly, cfg, detour, q);
        SkipUser(env, ipOnly, cfg, cc, ech, detour, q);
        if HasDirect(servers) {
          GeoRulesMean(env, ipOnly, servers, cc, q);
          AfterUserChooses(env, ipOnly, cfg, cc, ech, detour, q);
        } else {
          WithoutDirect(env, ipOnly, cfg, cc, ech, detour, q);
        }
      }
    }
  }
}
