// Every DNS server of the output, in terms of the entries of the input.
module ServerList {
  import opened Wrappers
  import opened TranslationState
  import opened DnsServers
  import opened ResolverGraph
  import Text

  // ---------------------------------------------------------------------
  // One list of entries
  // ---------------------------------------------------------------------

  // The server is made from an entry of the list and named by its position.
  ghost predicate FromList(list: seq<Nameserver>, prefix: string, detour: string, s: Server) {
    exists i | 0 <= i < |list| :: Parse(list[i], prefix + Text.Itoa(i), detour) == Some(s)
  }

  lemma {:induction false} EntriesFrom(list: seq<Nameserver>, prefix: string, detour: string, i: nat, s: Server)
    requires i <= |list|
    ensures s in Entries(list, prefix, detour, i) <==>
      exists k | i <= k < |list| :: Parse(list[k], prefix + Text.Itoa(k), detour) == Some(s)
    decreases |list| - i
  {
    if i < |list| {
      EntriesFrom(list, prefix, detour, i + 1, s);
      var first, rest := Parsed(list[i], prefix + Text.Itoa(i), detour), Entries(list, prefix, detour, i + 1);
      assert s in Entries(list, prefix, detour, i) <==> s in first || s in rest;
      assert s in first <==> Parse(list[i], prefix + Text.Itoa(i), detour) == Some(s);
    }
  }

  lemma ListIs(list: seq<Nameserver>, prefix: string, detour: string, s: Server)
    ensures s in Entries(list, prefix, detour, 0) <==> FromList(list, prefix, detour, s)
  {
    EntriesFrom(list, prefix, detour, 0, s);
  }

  // The first server of a list is that of the first entry sing-box has a server for.
  lemma {:induction false} FirstEntryIs(list: seq<Nameserver>, prefix: string, detour: string, i: nat)
    requires i <= |list| && Entries(list, prefix, detour, i) != []
    ensures exists k | i <= k < |list| ::
      && Parse(list[k], prefix + Text.Itoa(k), detour) == Some(Entries(list, prefix, detour, i)[0])
      && forall j | i <= j < k :: Parse(list[j], prefix + Text.Itoa(j), detour) == None
    decreases |list| - i
  {
    if Parse(list[i], prefix + Text.Itoa(i), detour) == None {
      assert Entries(list, prefix, detour, i) == Entries(list, prefix, detour, i + 1);
      FirstEntryIs(list, prefix, detour, i + 1);
    }
  }

  // ---------------------------------------------------------------------
  // The whole list
  // ---------------------------------------------------------------------

  // Servers made from the input. Name servers and fallbacks are asked through the group;
  // the others directly.
  ghost predicate Comes(d: RawDns, group: string, s: Server) {
    || FromList(d.defaults, "def-", "", s)
    || FromList(d.nameservers, "ns-", group, s)
    || FromList(d.fallback, "fb-", group, s)
    || FromList(d.proxyServers, "psn-", "", s)
    || ((forall s' :: !FromList(d.defaults, "def-", "", s')) && s in FirstTwo(WithAddress(d.nameservers), 0))
  }

  lemma NamedIn(a: seq<Server>, b: seq<Server>, c: seq<Server>, e: seq<Server>, f: seq<Server>, s: Server)
    ensures s in a + b + c + e + f <==> s in a || s in b || s in c || s in e || s in f
  {
  }

  lemma NamedAre(d: RawDns, group: string, s: Server)
    ensures s in NamedServers(d, group) <==> Comes(d, group, s)
  {
    ListIs(d.defaults, "def-", "", s);
    ListIs(d.nameservers, "ns-", group, s);
    ListIs(d.fallback, "fb-", group, s);
    ListIs(d.proxyServers, "psn-", "", s);
    AutoEntriesAre(d.nameservers, 0);
    NoneFrom(d.defaults, "def-", "");
    NamedIn(DefaultEntries(d), NameserverEntries(d, group), FallbackEntries(d, group),
      Entries(d.proxyServers, "psn-", "", 0), if DefaultEntries(d) == [] then AutoEntries(d.nameservers, 0) else [], s);
  }

  lemma NoneFrom(list: seq<Nameserver>, prefix: string, detour: string)
    ensures Entries(list, prefix, detour, 0) == [] <==> forall s :: !FromList(list, prefix, detour, s)
  {
    forall s ensures s in Entries(list, prefix, detour, 0) <==> FromList(list, prefix, detour, s) {
      ListIs(list, prefix, detour, s);
    }
    if Entries(list, prefix, detour, 0) != [] {
      assert Entries(list, prefix, detour, 0)[0] in Entries(list, prefix, detour, 0);
    }
  }

  // Who resolves the name of a server: the first of the resolvers that is not itself.
  function ResolvedBy(s: Server, resolvers: seq<Server>): Option<string> {
    if s.addr == None || !s.addr.value.Domain? || s.addr.value.name == "" || resolvers == [] then None
    else if resolvers[0].tag != s.tag then Some(resolvers[0].tag)
    else if |resolvers| > 1 then Some(resolvers[1].tag)
    else None
  }

  // As it stands in the output.
  function Shown(d: RawDns, s: Server): Server {
    Server(if d.preferH3 && s.kind == "https" then "h3" else s.kind, s.tag, s.addr, s.detour,
      ResolvedBy(s, Resolvers(d)))
  }

  lemma OthersAre(resolvers: seq<Server>, s: Server)
    requires DistinctServers(resolvers) && NeedsResolver(s)
    ensures FirstOther(Tags(resolvers), s.tag) == ResolvedBy(s, resolvers)
  {
    var tags := Tags(resolvers);
    if resolvers != [] && tags[0] == s.tag && |resolvers| == 1 {
      assert tags[1..] == [];
    } else {
      FirstOtherTag(tags, s.tag);
    }
  }

  lemma FinishedIs(cfg: RawConfig, s: Server)
    requires s.resolver == None
    ensures Finished(cfg, s) == Shown(cfg.dns, s)
  {
    ResolversFresh(cfg.dns, "");
    if NeedsResolver(s) {
      OthersAre(Resolvers(cfg.dns), s);
    }
  }

  ghost predicate Listed(d: RawDns, group: string, t: Server) {
    exists s :: Comes(d, group, s) && t == Shown(d, s)
  }

  // The system resolver is all there is to resolve names with.
  predicate OnlyLocal(resolvers: seq<Server>) {
    resolvers == [] || (resolvers[0].kind == "local" && forall r | r in resolvers :: r.kind != "udp")
  }

  lemma BootstrapExactly(cfg: RawConfig, group: string)
    requires cfg.dns.enable
    ensures NeedsBootstrap(cfg, group) <==> OnlyLocal(Resolvers(cfg.dns))
  {
    var resolvers := Resolvers(cfg.dns);
    if resolvers != [] {
      CandidateIs(cfg.dns, group);
      var r :| r in resolvers && Candidate(cfg.dns, group) == r.tag
        && (r.kind == "udp" || (r == resolvers[0] && NoUdp(resolvers)));
      ResolverTagsNonempty(cfg.dns);
      CandidateServer(cfg, group, r);
    }
  }

  // With DNS enabled the servers are, whatever the input: one for each entry sing-box has
  // a server for, with a resolver if it is given by name and https as h3 if that is
  // preferred; the first two name servers with an address once more, asked directly, if no
  // default name server is kept; one for fake addresses and one for hosts, if they are
  // used; and 223.5.5.5, if nothing but the system resolver could resolve names.
  lemma ServersAre(cfg: RawConfig, group: string, t: Server)
    requires cfg.dns.enable
    ensures t in Servers(cfg, group) <==>
      || Listed(cfg.dns, group, t)
      || (cfg.dns.enhancedMode == "fake-ip" && t == Server("fakeip", "fakeip-dns", None, None, None))
      || (cfg.hosts != [] && cfg.dns.useHosts != Some(false) && t == Server("hosts", "hosts", None, None, None))
      || (OnlyLocal(Resolvers(cfg.dns))
          && t == Server("udp", "bootstrap-dns", Some(Ip("223.5.5.5", true)), None, None))
  {
    BootstrapExactly(cfg, group);
    MainAre(cfg, group, t);
    SpecialAre(cfg, t);
    LastServers(MainServers(cfg, group), NeedsBootstrap(cfg, group), t);
  }

  lemma LastServers(main: seq<Server>, bootstrap: bool, t: Server)
    ensures t in main + (if bootstrap then [BOOTSTRAP] else []) <==> t in main || (bootstrap && t == BOOTSTRAP)
  {
  }

  lemma SpecialAre(cfg: RawConfig, t: Server)
    ensures t in SpecialServers(cfg) <==>
      || (cfg.dns.enhancedMode == "fake-ip" && t == Server("fakeip", "fakeip-dns", None, None, None))
      || (cfg.hosts != [] && cfg.dns.useHosts != Some(false) && t == Server("hosts", "hosts", None, None, None))
  {
    match cfg.dns.useHosts {
      case None =>
      case Some(use) => assert use == true || use == false;
    }
  }

  lemma MainAre(cfg: RawConfig, group: string, t: Server)
    ensures t in MainServers(cfg, group) <==>
      || Listed(cfg.dns, group, t)
      || t in SpecialServers(cfg)
  {
    ResolversFresh(cfg.dns, group);
    MainServersAre(cfg, group, t);
    if t in MainServers(cfg, group) && t !in SpecialServers(cfg) {
      var s :| s in NamedServers(cfg.dns, group) && t == Finished(cfg, s);
      NamedAre(cfg.dns, group, s);
      FinishedIs(cfg, s);
    }
    if s :| Comes(cfg.dns, group, s) && t == Shown(cfg.dns, s) {
      NamedAre(cfg.dns, group, s);
      FinishedIs(cfg, s);
      MainServersAre(cfg, group, s);
    }
    if t in SpecialServers(cfg) {
      SpecialStays(cfg, group, t);
    }
  }

  lemma SpecialStays(cfg: RawConfig, group: string, t: Server)
    requires t in SpecialServers(cfg)
    ensures t in MainServers(cfg, group)
  {
    var named := WithResolvers(NamedServers(cfg.dns, group), Tags(Resolvers(cfg.dns)));
    var i :| 0 <= i < |SpecialServers(cfg)| && SpecialServers(cfg)[i] == t;
    assert MainServers(cfg, group)[|named| + i] == t;
  }

  function AllShown(d: RawDns, servers: seq<Server>): (r: seq<Server>)
    ensures |r| == |servers| && forall i | 0 <= i < |r| :: r[i] == Shown(d, servers[i])
  {
    seq(|servers|, i requires 0 <= i < |servers| => Shown(d, servers[i]))
  }

  lemma ShownJoin(d: RawDns, a: seq<Server>, b: seq<Server>)
    ensures AllShown(d, a + b) == AllShown(d, a) + AllShown(d, b)
  {
  }

  lemma SpecialsStay(cfg: RawConfig)
    ensures AllPreferH3(SpecialServers(cfg)) == SpecialServers(cfg)
  {
  }

  lemma MainShown(cfg: RawConfig, group: string)
    ensures MainServers(cfg, group) == AllShown(cfg.dns, NamedServers(cfg.dns, group)) + SpecialServers(cfg)
  {
    var named := NamedServers(cfg.dns, group);
    var resolved := WithResolvers(named, Tags(Resolvers(cfg.dns)));
    ResolversFresh(cfg.dns, group);
    forall i | 0 <= i < |named|
      ensures Shown(cfg.dns, named[i]) == if cfg.dns.preferH3 then PreferH3(resolved[i]) else resolved[i]
    {
      FinishedIs(cfg, named[i]);
    }
    SpecialsStay(cfg);
    if cfg.dns.preferH3 {
      assert AllPreferH3(resolved + SpecialServers(cfg)) == AllPreferH3(resolved) + AllPreferH3(SpecialServers(cfg));
      assert AllPreferH3(resolved) == AllShown(cfg.dns, named);
    } else {
      assert resolved == AllShown(cfg.dns, named);
    }
  }

  // They come in this order: default name servers, name servers, fallbacks, those for the
  // names of proxies, name servers used once more, and the ones of our own.
  lemma ServersInOrder(cfg: RawConfig, group: string)
    requires cfg.dns.enable
    ensures
      var d := cfg.dns;
      Servers(cfg, group)
      == AllShown(d, Entries(d.defaults, "def-", "", 0)) + AllShown(d, Entries(d.nameservers, "ns-", group, 0))
         + AllShown(d, Entries(d.fallback, "fb-", group, 0)) + AllShown(d, Entries(d.proxyServers, "psn-", "", 0))
         + AllShown(d, if Entries(d.defaults, "def-", "", 0) == [] then FirstTwo(WithAddress(d.nameservers), 0) else [])
         + SpecialServers(cfg)
         + if OnlyLocal(Resolvers(d)) then [Server("udp", "bootstrap-dns", Some(Ip("223.5.5.5", true)), None, None)]
           else []
  {
    var d := cfg.dns;
    var a, b, c := DefaultEntries(d), NameserverEntries(d, group), FallbackEntries(d, group);
    var e := Entries(d.proxyServers, "psn-", "", 0);
    var auto := if a == [] then AutoEntries(d.nameservers, 0) else [];
    BootstrapExactly(cfg, group);
    MainShown(cfg, group);
    AutoEntriesAre(d.nameservers, 0);
    assert NamedServers(d, group) == a + b + c + e + auto;
    ShownJoin(d, a + b + c + e, auto);
    ShownJoin(d, a + b + c, e);
    ShownJoin(d, a + b, c);
    ShownJoin(d, a, b);
  }
}
