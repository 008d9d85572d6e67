// Turning the name servers of the input into DNS servers, and choosing who
// resolves the names of the servers themselves.
module DnsServers {
  import opened Wrappers
  import opened TranslationState
  import Text

  const MAX_BOOTSTRAP := 2

  // ---------------------------------------------------------------------
  // One name server
  // ---------------------------------------------------------------------

  // schemeToDNSType; "" if sing-box has no such server
  function ServerKind(scheme: string, h3: Option<string>): string {
    if h3.Some? && h3.value != "false" then "h3"
    else if scheme == "https" then "https"
    else if scheme == "http" then ""
    else if scheme == "tls" then "tls"
    else if scheme == "quic" then "quic"
    else if scheme == "h3" then "h3"
    else "udp"
  }

  // parseDNSServer
  function Parse(ns: Nameserver, tag: string, detour: string): Option<Server> {
    match ns
    case Blank => None
    case System => Some(Server("local", tag, None, None, None))
    case FakeIp => Some(Server("fakeip", tag, None, None, None))
    case Rcode => None
    case Dhcp => Some(Server("dhcp", tag, None, None, None))
    case Url(scheme, h3, host) =>
      if ServerKind(scheme, h3) == "" then None
      else Some(Server(ServerKind(scheme, h3), tag, Some(host), if detour == "" then None else Some(detour), None))
  }

  function Parsed(ns: Nameserver, tag: string, detour: string): seq<Server> {
    match Parse(ns, tag, detour) case None => [] case Some(s) => [s]
  }

  function Tags(servers: seq<Server>): seq<string> {
    seq(|servers|, i requires 0 <= i < |servers| => servers[i].tag)
  }

  // The servers of the entries from the i-th on, named by their position.
  function Entries(list: seq<Nameserver>, prefix: string, detour: string, i: nat): seq<Server>
    requires i <= |list|
    decreases |list| - i
  {
    if i == |list| then []
    else Parsed(list[i], prefix + Text.Itoa(i), detour) + Entries(list, prefix, detour, i + 1)
  }

  method BuildDNSServerEntries(list: seq<Nameserver>, prefix: string, detour: string, servers: seq<Server>)
    returns (servers': seq<Server>, tags: seq<string>)
    ensures servers' == servers + Entries(list, prefix, detour, 0)
    ensures tags == Tags(Entries(list, prefix, detour, 0))
  {
    servers', tags := servers, [];
    ghost var added := [];
    for i := 0 to |list|
      invariant servers' == servers + added && tags == Tags(added)
      invariant added + Entries(list, prefix, detour, i) == Entries(list, prefix, detour, 0)
    {
      var tag := prefix + Text.Itoa(i);
      var srv := Parse(list[i], tag, detour);
      if srv.Some? {
        servers' := servers' + [srv.value];
        tags := tags + [tag];
        added := added + [srv.value];
      }
    }
  }

  lemma Adds(servers: seq<Server>, added: seq<Server>, s: Server)
    ensures servers + added + [s] == servers + (added + [s]) && Tags(added + [s]) == Tags(added) + [s.tag]
  {
  }

  // Address-based entries of nameserver, used directly when there is no
  // default-nameserver.
  function AutoEntries(list: seq<Nameserver>, n: nat): seq<Server> {
    if list == [] || n >= MAX_BOOTSTRAP then []
    else
      match AutoEntry(list[0], n)
      case None => AutoEntries(list[1..], n)
      case Some(s) => [s] + AutoEntries(list[1..], n + 1)
  }

  function AutoEntry(ns: Nameserver, n: nat): Option<Server> {
    if ns.Url? && ns.host.Ip? && ns.host.bare then Parse(ns, "def-auto-" + Text.Itoa(n), "") else None
  }

  lemma AutoStep(done: seq<Server>, list: seq<Nameserver>, i: nat)
    requires i < |list| && |done| < MAX_BOOTSTRAP
    ensures
      var more := match AutoEntry(list[i], |done|) case None => done case Some(s) => done + [s];
      done + AutoEntries(list[i..], |done|) == more + AutoEntries(list[i + 1..], |more|)
  {
    assert list[i..][1..] == list[i + 1..];
  }

  method AutoBootstrap(list: seq<Nameserver>, servers: seq<Server>)
    returns (servers': seq<Server>, tags: seq<string>)
    ensures servers' == servers + AutoEntries(list, 0)
    ensures tags == Tags(AutoEntries(list, 0))
  {
    servers', tags := servers, [];
    ghost var added := [];
    for i := 0 to |list|
      invariant servers' == servers + added && tags == Tags(added)
      invariant added + AutoEntries(list[i..], |added|) == AutoEntries(list, 0)
    {
      if |tags| >= MAX_BOOTSTRAP {
        break;
      }
      AutoStep(added, list, i);
      ghost var entry := AutoEntry(list[i], |added|);
      if list[i].Url? && list[i].host.Ip? && list[i].host.bare {
        var tag := "def-auto-" + Text.Itoa(|tags|);
        var srv := Parse(list[i], tag, "");
        assert srv == entry;
        if srv.Some? {
          Adds(servers, added, srv.value);
          servers' := servers' + [srv.value];
          tags := tags + [tag];
          added := added + [srv.value];
        }
      }
    }
  }

  // ---------------------------------------------------------------------
  // Choosing servers
  // ---------------------------------------------------------------------

  predicate HasUdp(servers: seq<Server>, tag: string) {
    exists s | s in servers :: s.tag == tag && s.kind == "udp"
  }

  // The first candidate that is a UDP server, or else the first.
  function Preferred(candidates: seq<string>, servers: seq<Server>): (tag: string)
    ensures candidates != [] ==> tag in candidates
  {
    if candidates == [] then "" else FirstUdp(candidates, servers, candidates[0])
  }

  function FirstUdp(candidates: seq<string>, servers: seq<Server>, fallback: string): (tag: string)
    ensures tag in candidates || tag == fallback
  {
    if candidates == [] then fallback
    else if HasUdp(servers, candidates[0]) then candidates[0]
    else FirstUdp(candidates[1..], servers, fallback)
  }

  method PreferUDPServer(candidates: seq<string>, servers: seq<Server>) returns (tag: string)
    ensures tag == Preferred(candidates, servers)
  {
    if |candidates| == 0 {
      return "";
    }
    for i := 0 to |candidates|
      invariant FirstUdp(candidates[i..], servers, candidates[0]) == Preferred(candidates, servers)
    {
      assert candidates[i..][1..] == candidates[i + 1..];
      for j := 0 to |servers|
        invariant forall k | 0 <= k < j :: !(servers[k].tag == candidates[i] && servers[k].kind == "udp")
      {
        if servers[j].tag == candidates[i] && servers[j].kind == "udp" {
          return candidates[i];
        }
      }
    }
    return candidates[0];
  }

  function FirstWith(servers: seq<Server>, tag: string): Option<Server> {
    if servers == [] then None
    else if servers[0].tag == tag then Some(servers[0])
    else FirstWith(servers[1..], tag)
  }

  predicate IsLocal(servers: seq<Server>, tag: string) {
    FirstWith(servers, tag).Some? && FirstWith(servers, tag).value.kind == "local"
  }

  method IsLocalDNSServer(tag: string, servers: seq<Server>) returns (r: bool)
    ensures r == IsLocal(servers, tag)
  {
    for i := 0 to |servers|
      invariant FirstWith(servers[i..], tag) == FirstWith(servers, tag)
    {
      assert servers[i..][1..] == servers[i + 1..];
      if servers[i].tag == tag {
        return servers[i].kind == "local";
      }
    }
    return false;
  }

  // The first of the tags that is not the server's own.
  function FirstOther(tags: seq<string>, own: string): Option<string> {
    if tags == [] then None
    else if tags[0] != own then Some(tags[0])
    else FirstOther(tags[1..], own)
  }

  predicate NeedsResolver(s: Server) {
    s.addr.Some? && s.addr.value.Domain? && s.addr.value.name != ""
  }

  function WithResolver(s: Server, tags: seq<string>): Server {
    if NeedsResolver(s) && FirstOther(tags, s.tag).Some? then s.(resolver := FirstOther(tags, s.tag)) else s
  }

  function WithResolvers(servers: seq<Server>, tags: seq<string>): (r: seq<Server>)
    ensures |r| == |servers| && forall i | 0 <= i < |r| :: r[i] == WithResolver(servers[i], tags)
  {
    seq(|servers|, i requires 0 <= i < |servers| => WithResolver(servers[i], tags))
  }

  method ChooseOther(tags: seq<string>, own: string) returns (r: Option<string>)
    ensures r == FirstOther(tags, own)
  {
    for i := 0 to |tags|
      invariant FirstOther(tags[i..], own) == FirstOther(tags, own)
    {
      assert tags[i..][1..] == tags[i + 1..];
      if tags[i] != own {
        return Some(tags[i]);
      }
    }
    return None;
  }

  method SetResolvers(servers: seq<Server>, domainResolverTags: seq<string>, defaultServerTags: seq<string>)
    returns (out: seq<Server>)
    requires domainResolverTags == defaultServerTags
    requires forall s | s in servers :: s.resolver == None
    ensures out == WithResolvers(servers, domainResolverTags)
  {
    out := servers;
    for i := 0 to |servers|
      invariant |out| == |servers|
      invariant forall k | 0 <= k < i :: out[k] == WithResolver(servers[k], domainResolverTags)
      invariant forall k | i <= k < |servers| :: out[k] == servers[k]
    {
      var srv := out[i];
      if srv.addr.None? || srv.addr == Some(Domain("")) {
        continue;
      }
      if srv.addr.value.Domain? {
        var other := ChooseOther(domainResolverTags, srv.tag);
        if other.Some? {
          srv := srv.(resolver := other);
        }
        if srv.resolver.None? && |defaultServerTags| > 0 {
          other := ChooseOther(defaultServerTags, srv.tag);
          if other.Some? {
            srv := srv.(resolver := other);
          }
        }
        out := out[i := srv];
      }
    }
    assert out == WithResolvers(servers, domainResolverTags);
  }

  function PreferH3(s: Server): Server {
    if s.kind == "https" then s.(kind := "h3") else s
  }

  function AllPreferH3(servers: seq<Server>): (r: seq<Server>)
    ensures |r| == |servers| && forall i | 0 <= i < |r| :: r[i] == PreferH3(servers[i])
  {
    seq(|servers|, i requires 0 <= i < |servers| => PreferH3(servers[i]))
  }

  method UpgradeToH3(servers: seq<Server>) returns (out: seq<Server>)
    ensures out == AllPreferH3(servers)
  {
    out := servers;
    for i := 0 to |servers|
      invariant |out| == |servers|
      invariant forall k | 0 <= k < i :: out[k] == PreferH3(servers[k])
      invariant forall k | i <= k < |servers| :: out[k] == servers[k]
    {
      if out[i].kind == "https" {
        out := out[i := out[i].(kind := "h3")];
      }
    }
    assert out == AllPreferH3(servers);
  }

  const BOOTSTRAP := Server("udp", "bootstrap-dns", Some(Ip("223.5.5.5", true)), None, None)

  // ---------------------------------------------------------------------
  // The list of servers
  // ---------------------------------------------------------------------

  function DefaultEntries(d: RawDns): seq<Server> {
    Entries(d.defaults, "def-", "", 0)
  }

  function NameserverEntries(d: RawDns, detour: string): seq<Server> {
    Entries(d.nameservers, "ns-", detour, 0)
  }

  function FallbackEntries(d: RawDns, detour: string): seq<Server> {
    Entries(d.fallback, "fb-", detour, 0)
  }

  // Who may resolve the names of other servers: the default name servers, or else
  // address-based name servers.
  function Resolvers(d: RawDns): seq<Server> {
    if DefaultEntries(d) != [] then DefaultEntries(d) else AutoEntries(d.nameservers, 0)
  }

  function NamedServers(d: RawDns, detour: string): seq<Server> {
    DefaultEntries(d) + NameserverEntries(d, detour) + FallbackEntries(d, detour)
    + Entries(d.proxyServers, "psn-", "", 0)
    + if DefaultEntries(d) == [] then AutoEntries(d.nameservers, 0) else []
  }

  predicate UsesFakeIP(d: RawDns) {
    d.enhancedMode == "fake-ip"
  }

  predicate UsesHosts(cfg: RawConfig) {
    cfg.hosts != [] && (cfg.dns.useHosts == None || cfg.dns.useHosts == Some(true))
  }

  const FAKEIP_SERVER := Server("fakeip", "fakeip-dns", None, None, None)
  const HOSTS_SERVER := Server("hosts", "hosts", None, None, None)

  function SpecialServers(cfg: RawConfig): seq<Server> {
    (if UsesFakeIP(cfg.dns) then [FAKEIP_SERVER] else []) + (if UsesHosts(cfg) then [HOSTS_SERVER] else [])
  }

  function MainServers(cfg: RawConfig, detour: string): seq<Server> {
    var servers := WithResolvers(NamedServers(cfg.dns, detour), Tags(Resolvers(cfg.dns))) + SpecialServers(cfg);
    if cfg.dns.preferH3 then AllPreferH3(servers) else servers
  }

  // The server that should resolve the names of proxies, before it is checked.
  function Candidate(d: RawDns, detour: string): string {
    Preferred(Tags(Resolvers(d)), NamedServers(d, detour))
  }

  predicate NeedsBootstrap(cfg: RawConfig, detour: string) {
    Candidate(cfg.dns, detour) == "" || IsLocal(MainServers(cfg, detour), Candidate(cfg.dns, detour))
  }

  function Servers(cfg: RawConfig, detour: string): seq<Server> {
    if !cfg.dns.enable then [BOOTSTRAP]
    else MainServers(cfg, detour) + if NeedsBootstrap(cfg, detour) then [BOOTSTRAP] else []
  }

  function DefaultResolver(cfg: RawConfig, detour: string): string {
    if !cfg.dns.enable || NeedsBootstrap(cfg, detour) then BOOTSTRAP.tag else Candidate(cfg.dns, detour)
  }

  // ---------------------------------------------------------------------
  // What becomes of an entry
  // ---------------------------------------------------------------------

  // The kinds of servers: a scheme sing-box has a server for gives that server, http
  // gives none, and all else is plain UDP; asking for h3 overrules the scheme.
  lemma SchemesBecome(scheme: string, h3: Option<string>)
    ensures h3.Some? && h3.value != "false" ==> ServerKind(scheme, h3) == "h3"
    ensures h3 == None || h3 == Some("false") ==>
      ServerKind(scheme, h3)
      == if scheme in {"https", "tls", "quic", "h3"} then scheme else if scheme == "http" then "" else "udp"
  {
  }

  // One entry of a list of name servers.
  lemma EntriesBecome(ns: Nameserver, tag: string, detour: string)
    ensures ns.Blank? || ns.Rcode? ==> Parse(ns, tag, detour) == None
    ensures ns.System? ==> Parse(ns, tag, detour) == Some(Server("local", tag, None, None, None))
    ensures ns.Dhcp? ==> Parse(ns, tag, detour) == Some(Server("dhcp", tag, None, None, None))
    ensures ns.FakeIp? ==> Parse(ns, tag, detour) == Some(Server("fakeip", tag, None, None, None))
    ensures ns.Url? && (ns.scheme != "http" || (ns.h3.Some? && ns.h3.value != "false")) ==>
      Parse(ns, tag, detour)
      == Some(Server(
           ServerKind(ns.scheme, ns.h3), tag, Some(ns.host), if detour == "" then None else Some(detour), None))
  {
  }

  // Servers for the entries with an address, those sing-box has one for, untagged.
  function WithAddress(list: seq<Nameserver>): seq<Server> {
    if list == [] then []
    else
      var ns := list[0];
      (if ns.Url? && ns.host.Ip? && ns.host.bare && ServerKind(ns.scheme, ns.h3) != "" then
         [Server(ServerKind(ns.scheme, ns.h3), "", Some(ns.host), None, None)] else [])
      + WithAddress(list[1..])
  }

  lemma AutoEntryIs(list: seq<Nameserver>, n: nat)
    requires list != []
    ensures
      var entry, all, rest := AutoEntry(list[0], n), WithAddress(list), WithAddress(list[1..]);
      if entry.Some? then
        |all| == 1 + |rest| && all[1..] == rest && entry.value == all[0].(tag := "def-auto-" + Text.Itoa(n))
      else all == rest
  {
  }

  // The first two of them, counted from 0, each with its number in the tag.
  function FirstTwo(servers: seq<Server>, n: nat): seq<Server> {
    if servers == [] || n >= 2 then []
    else [servers[0].(tag := "def-auto-" + Text.Itoa(n))] + FirstTwo(servers[1..], n + 1)
  }

  // Without default name servers the first two with an address are used.
  lemma {:induction false} AutoEntriesAre(list: seq<Nameserver>, n: nat)
    ensures AutoEntries(list, n) == FirstTwo(WithAddress(list), n)
    decreases |list|
  {
    if list != [] && n < 2 {
      AutoEntryIs(list, n);
      AutoEntriesAre(list[1..], if AutoEntry(list[0], n).Some? then n + 1 else n);
    }
  }
}
