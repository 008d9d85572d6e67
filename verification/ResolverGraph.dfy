// Who resolves whose name: the graph of domain_resolver references.
module ResolverGraph {
  import opened Wrappers
  import opened TranslationState
  import opened DnsServers
  import Text

  // ---------------------------------------------------------------------
  // Tags are distinct
  // ---------------------------------------------------------------------

  predicate DistinctServers(servers: seq<Server>) {
    forall i, j | 0 <= i < j < |servers| :: servers[i].tag != servers[j].tag
  }

  // The first two characters tell the sections of the server list apart.
  function Mark(tag: string): int {
    if |tag| < 2 then 0 else tag[0] as int * 0x1000000 + tag[1] as int
  }

  function Marks(servers: seq<Server>): set<int> {
    set s | s in servers :: Mark(s.tag)
  }

  lemma Join(a: seq<Server>, b: seq<Server>)
    requires DistinctServers(a) && DistinctServers(b) && Marks(a) !! Marks(b)
    ensures DistinctServers(a + b) && Marks(a + b) == Marks(a) + Marks(b)
  {
    forall s, s' | s in a && s' in b ensures s.tag != s'.tag {
      assert Mark(s.tag) in Marks(a) && Mark(s'.tag) in Marks(b);
    }
    assert forall s :: s in a + b <==> s in a || s in b;
  }

  ghost predicate Numbered(tag: string, prefix: string, i: nat) {
    exists k: nat :: i <= k && tag == prefix + Text.Itoa(k)
  }

  lemma NumberedLater(tag: string, prefix: string, i: nat)
    requires Numbered(tag, prefix, i + 1)
    ensures Numbered(tag, prefix, i) && tag != prefix + Text.Itoa(i)
  {
    var k: nat :| i + 1 <= k && tag == prefix + Text.Itoa(k);
    if tag == prefix + Text.Itoa(i) {
      assert Text.Itoa(k) == tag[|prefix|..] == Text.Itoa(i);
      Text.ItoaInjective(k, i);
    }
  }

  lemma NumberedMark(tag: string, prefix: string, i: nat)
    requires Numbered(tag, prefix, i) && |prefix| >= 2
    ensures Mark(tag) == Mark(prefix)
  {
  }

  lemma {:induction false} EntryTags(list: seq<Nameserver>, prefix: string, detour: string, i: nat)
    requires i <= |list|
    ensures DistinctServers(Entries(list, prefix, detour, i))
    ensures forall s | s in Entries(list, prefix, detour, i) :: Numbered(s.tag, prefix, i)
    decreases |list| - i
  {
    if i < |list| {
      EntryTags(list, prefix, detour, i + 1);
      var rest := Entries(list, prefix, detour, i + 1);
      forall s | s in rest ensures s.tag != prefix + Text.Itoa(i) && Numbered(s.tag, prefix, i) {
        NumberedLater(s.tag, prefix, i);
      }
      var first := Parse(list[i], prefix + Text.Itoa(i), detour);
      assert Entries(list, prefix, detour, i) == (if first.None? then [] else [first.value]) + rest;
      assert first.Some? ==> Numbered(first.value.tag, prefix, i);
    }
  }

  lemma {:induction false} AutoTags(list: seq<Nameserver>, n: nat)
    ensures DistinctServers(AutoEntries(list, n))
    ensures forall s | s in AutoEntries(list, n) :: Numbered(s.tag, "def-auto-", n)
    decreases |list|
  {
    if list != [] && n < MAX_BOOTSTRAP {
      var first := AutoEntry(list[0], n);
      if first.None? {
        AutoTags(list[1..], n);
      } else {
        AutoTags(list[1..], n + 1);
        var rest := AutoEntries(list[1..], n + 1);
        forall s | s in rest ensures s.tag != "def-auto-" + Text.Itoa(n) && Numbered(s.tag, "def-auto-", n) {
          NumberedLater(s.tag, "def-auto-", n);
        }
        assert AutoEntries(list, n) == [first.value] + rest;
        assert Numbered(first.value.tag, "def-auto-", n);
      }
    }
  }

  lemma EntrySection(list: seq<Nameserver>, prefix: string, detour: string)
    requires |prefix| >= 2
    ensures DistinctServers(Entries(list, prefix, detour, 0))
    ensures Marks(Entries(list, prefix, detour, 0)) <= {Mark(prefix)}
  {
    EntryTags(list, prefix, detour, 0);
    forall s | s in Entries(list, prefix, detour, 0) ensures Mark(s.tag) == Mark(prefix) {
      NumberedMark(s.tag, prefix, 0);
    }
  }

  lemma AutoSection(list: seq<Nameserver>)
    ensures DistinctServers(AutoEntries(list, 0))
    ensures Marks(AutoEntries(list, 0)) <= {Mark("def-")}
  {
    AutoTags(list, 0);
    forall s | s in AutoEntries(list, 0) ensures Mark(s.tag) == Mark("def-") {
      NumberedMark(s.tag, "def-auto-", 0);
    }
  }

  lemma JoinWithin(a: seq<Server>, b: seq<Server>, marks: set<int>, mark: int)
    requires DistinctServers(a) && DistinctServers(b) && Marks(a) <= marks && Marks(b) <= {mark} && mark !in marks
    ensures DistinctServers(a + b) && Marks(a + b) <= marks + {mark}
  {
    Join(a, b);
  }

  lemma FirstMarksApart()
    ensures Mark("ns-") != Mark("def-") && Mark("fb-") !in {Mark("def-"), Mark("ns-")}
    ensures Mark("psn-") !in {Mark("def-"), Mark("ns-"), Mark("fb-")}
  {
  }

  lemma NamedServersDistinct(d: RawDns, detour: string)
    ensures DistinctServers(NamedServers(d, detour))
    ensures Marks(NamedServers(d, detour)) <= {Mark("def-"), Mark("ns-"), Mark("fb-"), Mark("psn-")}
  {
    var def, auto := DefaultEntries(d), if DefaultEntries(d) == [] then AutoEntries(d.nameservers, 0) else [];
    var ns, fb, psn := NameserverEntries(d, detour), FallbackEntries(d, detour), Entries(d.proxyServers, "psn-", "", 0);
    EntrySection(d.defaults, "def-", "");
    EntrySection(d.nameservers, "ns-", detour);
    EntrySection(d.fallback, "fb-", detour);
    EntrySection(d.proxyServers, "psn-", "");
    AutoSection(d.nameservers);
    FirstMarksApart();
    JoinSectionsOf(def, ns, fb, psn, auto, Mark("def-"), Mark("ns-"), Mark("fb-"), Mark("psn-"));
  }

  lemma JoinSectionsOf(
    def: seq<Server>, ns: seq<Server>, fb: seq<Server>, psn: seq<Server>, auto: seq<Server>,
    d: int, n: int, f: int, p: int)
    requires DistinctServers(def) && DistinctServers(ns) && DistinctServers(fb) && DistinctServers(psn)
    requires DistinctServers(auto) && (def == [] || auto == [])
    requires Marks(def) <= {d} && Marks(ns) <= {n} && Marks(fb) <= {f} && Marks(psn) <= {p} && Marks(auto) <= {d}
    requires d != n && f !in {d, n} && p !in {d, n, f}
    ensures DistinctServers(def + ns + fb + psn + auto) && Marks(def + ns + fb + psn + auto) <= {d, n, f, p}
  {
    if def == [] {
      JoinWithin([], ns, {}, n);
      JoinWithin([] + ns, fb, {} + {n}, f);
      JoinWithin([] + ns + fb, psn, {} + {n} + {f}, p);
      JoinWithin([] + ns + fb + psn, auto, {} + {n} + {f} + {p}, d);
    } else {
      JoinWithin(def, ns, {d}, n);
      JoinWithin(def + ns, fb, {d} + {n}, f);
      JoinWithin(def + ns + fb, psn, {d} + {n} + {f}, p);
      assert def + ns + fb + psn + [] == def + ns + fb + psn;
    }
  }

  lemma SpecialServersDistinct(cfg: RawConfig)
    ensures DistinctServers(SpecialServers(cfg))
    ensures Marks(SpecialServers(cfg)) <= {Mark("fakeip-dns"), Mark("hosts")}
  {
    assert Mark("fakeip-dns") != Mark("hosts");
  }

  lemma MarksApart()
    ensures {Mark("def-"), Mark("ns-"), Mark("fb-"), Mark("psn-")} !! {Mark("fakeip-dns"), Mark("hosts")}
    ensures Mark("bootstrap-dns") !in
      {Mark("def-"), Mark("ns-"), Mark("fb-"), Mark("psn-"), Mark("fakeip-dns"), Mark("hosts")}
  {
  }

  predicate SameTags(a: seq<Server>, b: seq<Server>) {
    |a| == |b| && forall i | 0 <= i < |a| :: a[i].tag == b[i].tag
  }

  lemma SameTagsDistinct(a: seq<Server>, b: seq<Server>)
    requires SameTags(a, b) && DistinctServers(a)
    ensures DistinctServers(b) && Marks(a) == Marks(b)
  {
    forall m ensures m in Marks(a) <==> m in Marks(b) {
      if m in Marks(a) {
        var i :| 0 <= i < |a| && Mark(a[i].tag) == m;
        assert b[i] in b && Mark(b[i].tag) == m;
      }
      if m in Marks(b) {
        var i :| 0 <= i < |b| && Mark(b[i].tag) == m;
        assert a[i] in a && Mark(a[i].tag) == m;
      }
    }
  }

  lemma JoinSections(named: seq<Server>, special: seq<Server>)
    requires DistinctServers(named) && DistinctServers(special)
    requires Marks(named) <= {Mark("def-"), Mark("ns-"), Mark("fb-"), Mark("psn-")}
    requires Marks(special) <= {Mark("fakeip-dns"), Mark("hosts")}
    ensures DistinctServers(named + special) && Mark("bootstrap-dns") !in Marks(named + special)
  {
    MarksApart();
    Join(named, special);
  }

  lemma MainTags(cfg: RawConfig, detour: string)
    ensures SameTags(NamedServers(cfg.dns, detour) + SpecialServers(cfg), MainServers(cfg, detour))
  {
  }

  lemma MainServersDistinct(cfg: RawConfig, detour: string)
    ensures DistinctServers(MainServers(cfg, detour))
    ensures Mark("bootstrap-dns") !in Marks(MainServers(cfg, detour))
  {
    var named, special := NamedServers(cfg.dns, detour), SpecialServers(cfg);
    NamedServersDistinct(cfg.dns, detour);
    SpecialServersDistinct(cfg);
    JoinSections(named, special);
    MainTags(cfg, detour);
    SameTagsDistinct(named + special, MainServers(cfg, detour));
  }

  // No two DNS servers share a tag.
  lemma ServerTagsDistinct(cfg: RawConfig, detour: string)
    ensures DistinctServers(Servers(cfg, detour))
  {
    if cfg.dns.enable && NeedsBootstrap(cfg, detour) {
      MainServersDistinct(cfg, detour);
      assert Marks([BOOTSTRAP]) == {Mark("bootstrap-dns")};
      Join(MainServers(cfg, detour), [BOOTSTRAP]);
    } else if cfg.dns.enable {
      MainServersDistinct(cfg, detour);
      assert Servers(cfg, detour) == MainServers(cfg, detour) + [];
      assert MainServers(cfg, detour) + [] == MainServers(cfg, detour);
    }
  }

  // ---------------------------------------------------------------------
  // The graph
  // ---------------------------------------------------------------------

  function Target(servers: seq<Server>, tag: string): Option<string> {
    match FirstWith(servers, tag)
    case None => None
    case Some(s) => s.resolver
  }

  // Where n references lead.
  function Follow(servers: seq<Server>, tag: string, n: nat): Option<string>
    decreases n
  {
    if n == 0 then Some(tag)
    else
      match Target(servers, tag)
      case None => None
      case Some(next) => Follow(servers, next, n - 1)
  }

  ghost predicate Acyclic(servers: seq<Server>) {
    forall tag, n: nat | n > 0 :: Follow(servers, tag, n) != Some(tag)
  }

  function Wanted(s: Server, resolvers: seq<Server>): Option<string> {
    if NeedsResolver(s) then FirstOther(Tags(resolvers), s.tag) else None
  }

  predicate Present(servers: seq<Server>, r: Server) {
    exists s | s in servers :: s.tag == r.tag && s.addr == r.addr && s.detour == None
  }

  predicate Wired(servers: seq<Server>, resolvers: seq<Server>) {
    && DistinctServers(servers) && DistinctServers(resolvers)
    && (forall s | s in servers :: s.resolver == Wanted(s, resolvers))
    && (forall r | r in resolvers :: Present(servers, r))
  }

  lemma {:induction false} FindServer(servers: seq<Server>, s: Server)
    requires DistinctServers(servers) && s in servers
    ensures FirstWith(servers, s.tag) == Some(s)
  {
    if servers[0] == s {
    } else {
      var i :| 0 <= i < |servers| && servers[i] == s;
      assert servers[0].tag != servers[i].tag;
      FindServer(servers[1..], s);
    }
  }

  lemma {:induction false} FoundServer(servers: seq<Server>, tag: string)
    ensures FirstWith(servers, tag).Some? ==>
      FirstWith(servers, tag).value in servers && FirstWith(servers, tag).value.tag == tag
  {
    if servers != [] {
      FoundServer(servers[1..], tag);
    }
  }

  lemma {:induction false} FirstOtherTag(tags: seq<string>, own: string)
    ensures tags != [] && tags[0] != own ==> FirstOther(tags, own) == Some(tags[0])
    ensures |tags| >= 2 && tags[0] == own && tags[1] != own ==> FirstOther(tags, own) == Some(tags[1])
    ensures FirstOther(tags, own).Some? ==> FirstOther(tags, own).value in tags && FirstOther(tags, own) != Some(own)
  {
    if tags != [] && tags[0] == own {
      FirstOtherTag(tags[1..], own);
    }
  }

  // A reference from the first resolver leads to the second, every other to the
  // first.
  lemma Targets(servers: seq<Server>, resolvers: seq<Server>, tag: string)
    requires Wired(servers, resolvers)
    ensures resolvers == [] ==> Target(servers, tag) == None
    ensures resolvers != [] && tag != resolvers[0].tag ==>
      Target(servers, tag) == None || Target(servers, tag) == Some(resolvers[0].tag)
  {
    FoundServer(servers, tag);
    FirstOtherTag(Tags(resolvers), tag);
  }

  lemma TargetOfResolver(servers: seq<Server>, resolvers: seq<Server>, i: nat)
    requires Wired(servers, resolvers) && i < |resolvers|
    ensures !NeedsResolver(resolvers[i]) ==> Target(servers, resolvers[i].tag) == None
    ensures NeedsResolver(resolvers[i]) && i > 0 ==> Target(servers, resolvers[i].tag) == Some(resolvers[0].tag)
    ensures NeedsResolver(resolvers[i]) && i == 0 ==>
      Target(servers, resolvers[i].tag) == if |resolvers| > 1 then Some(resolvers[1].tag) else None
  {
    assert resolvers[i] in resolvers;
    var s :| s in servers && s.tag == resolvers[i].tag && s.addr == resolvers[i].addr;
    FindServer(servers, s);
    FirstOtherTag(Tags(resolvers), s.tag);
    if |resolvers| == 1 {
      assert Tags(resolvers)[1..] == [];
    }
  }

  // The first two resolvers are both reached by name.
  predicate BothNamed(resolvers: seq<Server>) {
    |resolvers| >= 2 && NeedsResolver(resolvers[0]) && NeedsResolver(resolvers[1])
  }

  lemma Circle(servers: seq<Server>, resolvers: seq<Server>)
    requires Wired(servers, resolvers) && BothNamed(resolvers)
    ensures !Acyclic(servers)
  {
    TargetOfResolver(servers, resolvers, 0);
    TargetOfResolver(servers, resolvers, 1);
    var a, b := resolvers[0].tag, resolvers[1].tag;
    assert Follow(servers, b, 1) == Follow(servers, a, 0);
    assert Follow(servers, a, 2) == Some(a);
  }

  lemma ChainsAreShort(servers: seq<Server>, resolvers: seq<Server>, tag: string, n: nat)
    requires Wired(servers, resolvers) && !BothNamed(resolvers) && n > 0
    ensures Follow(servers, tag, n) != Some(tag)
    ensures n > 2 ==> Follow(servers, tag, n) == None
  {
    Targets(servers, resolvers, tag);
    if resolvers != [] {
      var first := resolvers[0].tag;
      TargetOfResolver(servers, resolvers, 0);
      if |resolvers| > 1 {
        TargetOfResolver(servers, resolvers, 1);
        if n > 1 {
          SecondHop(servers, resolvers, n - 1);
        }
      } else if n > 1 {
        assert Follow(servers, first, n - 1) == None;
      }
    }
  }

  lemma SecondHop(servers: seq<Server>, resolvers: seq<Server>, n: nat)
    requires Wired(servers, resolvers) && !BothNamed(resolvers) && |resolvers| > 1 && n > 0
    ensures
      Follow(servers, resolvers[0].tag, n)
      == if NeedsResolver(resolvers[0]) && n == 1 then Some(resolvers[1].tag) else None
    ensures NeedsResolver(resolvers[0]) ==> Follow(servers, resolvers[1].tag, n) == None
  {
    TargetOfResolver(servers, resolvers, 0);
    TargetOfResolver(servers, resolvers, 1);
    if n > 1 {
      assert NeedsResolver(resolvers[0]) ==> Follow(servers, resolvers[1].tag, n - 1) == None;
    }
  }

  // ---------------------------------------------------------------------
  // The translated servers are wired like that
  // ---------------------------------------------------------------------

  predicate Fresh(servers: seq<Server>, direct: bool) {
    forall s | s in servers :: s.resolver == None && (direct ==> s.detour == None)
  }

  lemma EntriesFresh(list: seq<Nameserver>, prefix: string, detour: string, i: nat)
    requires i <= |list|
    ensures Fresh(Entries(list, prefix, detour, i), detour == "")
    decreases |list| - i
  {
    if i < |list| {
      EntriesFresh(list, prefix, detour, i + 1);
    }
  }

  // Address-based entries never need a resolver themselves.
  lemma AutoFresh(list: seq<Nameserver>, n: nat)
    ensures Fresh(AutoEntries(list, n), true)
    ensures forall s | s in AutoEntries(list, n) :: !NeedsResolver(s)
    decreases |list|
  {
    if list != [] && n < MAX_BOOTSTRAP {
      AutoFresh(list[1..], n);
      AutoFresh(list[1..], n + 1);
    }
  }

  lemma ResolversFresh(d: RawDns, detour: string)
    ensures Fresh(Resolvers(d), true) && DistinctServers(Resolvers(d))
    ensures forall r | r in Resolvers(d) :: r in NamedServers(d, detour)
    ensures Fresh(NamedServers(d, detour), false)
  {
    EntriesFresh(d.defaults, "def-", "", 0);
    EntriesFresh(d.nameservers, "ns-", detour, 0);
    EntriesFresh(d.fallback, "fb-", detour, 0);
    EntriesFresh(d.proxyServers, "psn-", "", 0);
    AutoFresh(d.nameservers, 0);
    EntrySection(d.defaults, "def-", "");
    AutoSection(d.nameservers);
  }

  // What becomes of a parsed server.
  function Finished(cfg: RawConfig, s: Server): Server {
    var resolved := WithResolver(s, Tags(Resolvers(cfg.dns)));
    if cfg.dns.preferH3 then PreferH3(resolved) else resolved
  }

  lemma MainServersAre(cfg: RawConfig, detour: string, s: Server)
    ensures s in NamedServers(cfg.dns, detour) ==> Finished(cfg, s) in MainServers(cfg, detour)
    ensures s in MainServers(cfg, detour) ==>
      || s in SpecialServers(cfg)
      || exists s' | s' in NamedServers(cfg.dns, detour) :: s == Finished(cfg, s')
  {
    var named := NamedServers(cfg.dns, detour);
    var resolved := WithResolvers(named, Tags(Resolvers(cfg.dns)));
    var main := MainServers(cfg, detour);
    if s in named {
      var i :| 0 <= i < |named| && named[i] == s;
      assert resolved[i] == WithResolver(s, Tags(Resolvers(cfg.dns)));
      assert main[i] == Finished(cfg, s);
    }
    if s in main {
      var i :| 0 <= i < |main| && main[i] == s;
      if i < |named| {
        assert s == Finished(cfg, named[i]) && named[i] in named;
      } else {
        var special := SpecialServers(cfg)[i - |named|];
        assert special in SpecialServers(cfg) && PreferH3(special) == special;
      }
    }
  }

  lemma FinishedWanted(cfg: RawConfig, s: Server)
    requires s.resolver == None
    ensures Finished(cfg, s).resolver == Wanted(Finished(cfg, s), Resolvers(cfg.dns))
    ensures Finished(cfg, s).tag == s.tag && Finished(cfg, s).addr == s.addr && Finished(cfg, s).detour == s.detour
  {
  }

  lemma ServersWired(cfg: RawConfig, detour: string)
    requires cfg.dns.enable
    ensures Wired(Servers(cfg, detour), Resolvers(cfg.dns))
  {
    var servers, resolvers := Servers(cfg, detour), Resolvers(cfg.dns);
    ServerTagsDistinct(cfg, detour);
    ResolversFresh(cfg.dns, detour);
    forall s | s in servers ensures s.resolver == Wanted(s, resolvers) {
      if s in MainServers(cfg, detour) {
        MainServersAre(cfg, detour, s);
        if s !in SpecialServers(cfg) {
          var s' :| s' in NamedServers(cfg.dns, detour) && s == Finished(cfg, s');
          FinishedWanted(cfg, s');
        }
      }
    }
    forall r | r in resolvers ensures Present(servers, r) {
      MainServersAre(cfg, detour, r);
      FinishedWanted(cfg, r);
      assert Finished(cfg, r) in servers;
    }
  }

  // The resolver graph has a cycle exactly when the first two default name servers
  // that were kept are both given by domain name. Otherwise no chain of references
  // is longer than two.
  lemma ResolverGraphAcyclic(cfg: RawConfig, detour: string)
    requires cfg.dns.enable
    ensures Acyclic(Servers(cfg, detour)) <==> !BothNamed(DefaultEntries(cfg.dns))
    ensures Acyclic(Servers(cfg, detour)) ==>
      forall tag, n: nat | n > 2 :: Follow(Servers(cfg, detour), tag, n) == None
  {
    var servers, resolvers := Servers(cfg, detour), Resolvers(cfg.dns);
    ServersWired(cfg, detour);
    AutoFresh(cfg.dns.nameservers, 0);
    assert BothNamed(resolvers) == BothNamed(DefaultEntries(cfg.dns));
    if BothNamed(resolvers) {
      Circle(servers, resolvers);
    } else {
      forall tag, n: nat | n > 0
        ensures Follow(servers, tag, n) != Some(tag) && (n > 2 ==> Follow(servers, tag, n) == None)
      {
        ChainsAreShort(servers, resolvers, tag, n);
      }
    }
  }

  // Whoever resolves the name of a server is itself a server of the list that is
  // asked directly, not through a proxy.
  lemma ResolverTargetsAreDirect(cfg: RawConfig, detour: string)
    ensures forall s | s in Servers(cfg, detour) && s.resolver.Some? ::
      exists r | r in Servers(cfg, detour) :: r.tag == s.resolver.value && r.detour == None && r != s
  {
    if cfg.dns.enable {
      var servers, resolvers := Servers(cfg, detour), Resolvers(cfg.dns);
      ServersWired(cfg, detour);
      forall s | s in servers && s.resolver.Some?
        ensures exists r | r in servers :: r.tag == s.resolver.value && r.detour == None && r != s
      {
        FirstOtherTag(Tags(resolvers), s.tag);
        assert s.resolver.value in Tags(resolvers);
        var i :| 0 <= i < |resolvers| && Tags(resolvers)[i] == s.resolver.value;
        assert Present(servers, resolvers[i]);
      }
    }
  }

  // The names of proxies are always resolved by a server of the list that is not
  // the system resolver and is asked directly.
  lemma DefaultResolverIsDirect(cfg: RawConfig, detour: string)
    ensures
      var found := FirstWith(Servers(cfg, detour), DefaultResolver(cfg, detour));
      found.Some? && found.value.kind != "local" && found.value.detour == None
  {
    var servers, main := Servers(cfg, detour), MainServers(cfg, detour);
    ServerTagsDistinct(cfg, detour);
    if !cfg.dns.enable || NeedsBootstrap(cfg, detour) {
      FindServer(servers, BOOTSTRAP);
    } else {
      var tag := Candidate(cfg.dns, detour);
      var resolvers := Resolvers(cfg.dns);
      ResolversFresh(cfg.dns, detour);
      assert tag in Tags(resolvers);
      var i :| 0 <= i < |resolvers| && Tags(resolvers)[i] == tag;
      MainServersAre(cfg, detour, resolvers[i]);
      FinishedWanted(cfg, resolvers[i]);
      MainServersDistinct(cfg, detour);
      FindServer(main, Finished(cfg, resolvers[i]));
      assert servers == main + [];
      assert main + [] == main;
    }
  }

  lemma {:induction false} HasUdpOf(servers: seq<Server>, r: Server)
    requires DistinctServers(servers) && r in servers
    ensures HasUdp(servers, r.tag) == (r.kind == "udp")
  {
    forall s | s in servers && s.tag == r.tag ensures s == r {
      FindServer(servers, s);
      FindServer(servers, r);
    }
  }

  lemma {:induction false} FirstUdpIs(resolvers: seq<Server>, servers: seq<Server>, fallback: string)
    requires DistinctServers(servers) && forall r | r in resolvers :: r in servers
    ensures
      var tag := FirstUdp(Tags(resolvers), servers, fallback);
      if NoUdp(resolvers) then tag == fallback
      else exists i | 0 <= i < |resolvers| :: tag == resolvers[i].tag && IsFirstUdp(resolvers, i)
  {
    if resolvers != [] {
      var rest := resolvers[1..];
      assert Tags(resolvers)[1..] == Tags(rest);
      assert resolvers[0] in resolvers && forall r :: r in resolvers <==> r == resolvers[0] || r in rest;
      HasUdpOf(servers, resolvers[0]);
      FirstUdpIs(rest, servers, fallback);
      if resolvers[0].kind == "udp" {
        assert IsFirstUdp(resolvers, 0);
      } else if !NoUdp(rest) {
        var i :| 0 <= i < |rest| && FirstUdp(Tags(rest), servers, fallback) == rest[i].tag && IsFirstUdp(rest, i);
        assert forall j | 0 < j <= i :: resolvers[j] == rest[j - 1];
        assert IsFirstUdp(resolvers, i + 1);
      }
    }
  }

  predicate NoUdp(servers: seq<Server>) {
    forall s | s in servers :: s.kind != "udp"
  }

  predicate IsFirstUdp(servers: seq<Server>, i: int) {
    0 <= i < |servers| && servers[i].kind == "udp" && forall j | 0 <= j < i :: servers[j].kind != "udp"
  }

  // The server chosen for default_domain_resolver: the first UDP server if there is one,
  // or else the first.
  lemma CandidateIsFirst(d: RawDns, detour: string)
    requires Resolvers(d) != []
    ensures exists i | 0 <= i < |Resolvers(d)| ::
      && Candidate(d, detour) == Resolvers(d)[i].tag
      && (IsFirstUdp(Resolvers(d), i) || (i == 0 && NoUdp(Resolvers(d))))
  {
    var resolvers := Resolvers(d);
    ResolversFresh(d, detour);
    NamedServersDistinct(d, detour);
    FirstUdpIs(resolvers, NamedServers(d, detour), resolvers[0].tag);
  }

  lemma CandidateIs(d: RawDns, detour: string)
    requires Resolvers(d) != []
    ensures exists r | r in Resolvers(d) ::
      Candidate(d, detour) == r.tag && (r.kind == "udp" || (r == Resolvers(d)[0] && NoUdp(Resolvers(d))))
  {
    var resolvers := Resolvers(d);
    CandidateIsFirst(d, detour);
    var i :| 0 <= i < |resolvers| && Candidate(d, detour) == resolvers[i].tag
      && (IsFirstUdp(resolvers, i) || (i == 0 && NoUdp(resolvers)));
    assert resolvers[i] in resolvers;
  }

  lemma AutoNotFake(list: seq<Nameserver>, n: nat)
    ensures forall s | s in AutoEntries(list, n) :: s.kind != "fakeip" && s.kind != "local"
    decreases |list|
  {
    if list != [] && n < MAX_BOOTSTRAP {
      AutoNotFake(list[1..], n);
      AutoNotFake(list[1..], n + 1);
    }
  }

  lemma CandidateServer(cfg: RawConfig, detour: string, r: Server)
    requires cfg.dns.enable && r in Resolvers(cfg.dns) && Candidate(cfg.dns, detour) == r.tag && r.tag != ""
    ensures NeedsBootstrap(cfg, detour) <==> r.kind == "local"
    ensures !NeedsBootstrap(cfg, detour) ==>
      FirstWith(Servers(cfg, detour), r.tag) == Some(Finished(cfg, r))
  {
    ResolversFresh(cfg.dns, detour);
    MainServersAre(cfg, detour, r);
    MainServersDistinct(cfg, detour);
    FindServer(MainServers(cfg, detour), Finished(cfg, r));
    FinishedWanted(cfg, r);
    ServerTagsDistinct(cfg, detour);
    FindServer(Servers(cfg, detour), Finished(cfg, r));
  }

  lemma ResolverTagsNonempty(d: RawDns)
    ensures forall r | r in Resolvers(d) :: r.tag != ""
  {
    EntryTags(d.defaults, "def-", "", 0);
    AutoTags(d.nameservers, 0);
  }

  // The check keeps the system resolver out, not the fake-ip server: it resolves
  // the names of proxies exactly if the first default name server that was kept is
  // "fakeip" and none of them is plain UDP.
  lemma DefaultResolverCanBeFake(cfg: RawConfig, detour: string)
    ensures
      var found := FirstWith(Servers(cfg, detour), DefaultResolver(cfg, detour));
      var defaults := DefaultEntries(cfg.dns);
      found.Some?
      && (found.value.kind == "fakeip" <==>
          cfg.dns.enable && defaults != [] && defaults[0].kind == "fakeip" && NoUdp(defaults))
  {
    DefaultResolverIsDirect(cfg, detour);
    ServerTagsDistinct(cfg, detour);
    if !cfg.dns.enable || Resolvers(cfg.dns) == [] {
      assert Servers(cfg, detour)[|Servers(cfg, detour)| - 1] == BOOTSTRAP;
      FindServer(Servers(cfg, detour), BOOTSTRAP);
    } else {
      CandidateIs(cfg.dns, detour);
      var r :| r in Resolvers(cfg.dns) && Candidate(cfg.dns, detour) == r.tag
        && (r.kind == "udp" || (r == Resolvers(cfg.dns)[0] && NoUdp(Resolvers(cfg.dns))));
      ResolverTagsNonempty(cfg.dns);
      CandidateServer(cfg, detour, r);
      AutoNotFake(cfg.dns.nameservers, 0);
      if NeedsBootstrap(cfg, detour) {
        assert BOOTSTRAP in Servers(cfg, detour);
        FindServer(Servers(cfg, detour), BOOTSTRAP);
      }
    }
  }

  lemma EntriesGoThrough(list: seq<Nameserver>, prefix: string, detour: string, i: nat)
    requires i <= |list| && detour != ""
    ensures forall s | s in Entries(list, prefix, detour, i) && s.addr.Some? :: s.detour == Some(detour)
    decreases |list| - i
  {
    if i < |list| {
      EntriesGoThrough(list, prefix, detour, i + 1);
    }
  }

  // With a group, name servers and fallbacks are asked through the first one; the
  // servers that resolve names for them never are.
  lemma NameserversGoThroughGroup(cfg: RawConfig, group: string)
    requires cfg.dns.enable && group != ""
    ensures forall s | s in NameserverEntries(cfg.dns, group) + FallbackEntries(cfg.dns, group) && s.addr.Some? ::
      exists r | r in Servers(cfg, group) :: r.tag == s.tag && r.addr == s.addr && r.detour == Some(group)
    ensures forall s | s in Resolvers(cfg.dns) :: Present(Servers(cfg, group), s)
  {
    var proxied := NameserverEntries(cfg.dns, group) + FallbackEntries(cfg.dns, group);
    EntriesGoThrough(cfg.dns.nameservers, "ns-", group, 0);
    EntriesGoThrough(cfg.dns.fallback, "fb-", group, 0);
    ServersWired(cfg, group);
    ResolversFresh(cfg.dns, group);
    forall s | s in proxied && s.addr.Some?
      ensures exists r | r in Servers(cfg, group) :: r.tag == s.tag && r.addr == s.addr && r.detour == Some(group)
    {
      assert s in NamedServers(cfg.dns, group);
      MainServersAre(cfg, group, s);
      FinishedWanted(cfg, s);
      assert Finished(cfg, s) in Servers(cfg, group);
    }
  }

  // ---------------------------------------------------------------------
  // Two such configurations
  // ---------------------------------------------------------------------

  function WithDefaults(defaults: seq<Nameserver>): RawConfig {
    RawConfig([], [], RawDns(true, [], [], defaults, [], "", [], "", None, false), [])
  }

  lemma OneDefault(ns: Nameserver)
    ensures DefaultEntries(WithDefaults([ns]).dns) == Parsed(ns, "def-" + Text.Itoa(0), "")
  {
    assert Entries([ns], "def-", "", 1) == [];
  }

  lemma TwoDefaults(a: Nameserver, b: Nameserver)
    ensures DefaultEntries(WithDefaults([a, b]).dns)
         == Parsed(a, "def-" + Text.Itoa(0), "") + Parsed(b, "def-" + Text.Itoa(1), "")
  {
    assert Entries([a, b], "def-", "", 2) == [];
    assert Entries([a, b], "def-", "", 1) == Parsed(b, "def-" + Text.Itoa(1), "");
  }

  // Two default name servers given by name resolve each other.
  lemma NamedDefaultsResolveEachOther()
    ensures
      var defaults := [Url("https", None, Domain("dns.google")), Url("https", None, Domain("one.one.one.one"))];
      !Acyclic(Servers(WithDefaults(defaults), ""))
  {
    var a, b := Url("https", None, Domain("dns.google")), Url("https", None, Domain("one.one.one.one"));
    TwoDefaults(a, b);
    ResolverGraphAcyclic(WithDefaults([a, b]), "");
  }

  // "fakeip" as the only default name server resolves the names of proxies.
  lemma FakeDefaultResolves()
    ensures
      var cfg := WithDefaults([FakeIp]);
      var found := FirstWith(Servers(cfg, ""), DefaultResolver(cfg, ""));
      found.Some? && found.value.kind == "fakeip"
  {
    OneDefault(FakeIp);
    DefaultResolverCanBeFake(WithDefaults([FakeIp]), "");
  }
}
