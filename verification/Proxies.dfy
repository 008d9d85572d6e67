// Translating the proxies: every named proxy becomes an outbound of that name, a
// dead socks stub if sing-box cannot run it.
module Proxies {
  import opened Wrappers
  import opened TranslationState
  import opened Groups

  const STUB_MARK := "unsupported:"

  predicate Stubbed(p: RawProxy) {
    !p.endpoint || p.node.None?
  }

  function Stub(name: string, kind: string): Outbound {
    Proxy(name, Node("socks", "127.0.0.1", 1, STUB_MARK + kind, ""), "")
  }

  function OutboundOf(p: RawProxy): Outbound {
    if Stubbed(p) then Stub(p.name, p.kind) else Proxy(p.name, p.node.value, p.dialerProxy)
  }

  function Outbounds(ps: seq<RawProxy>): seq<Outbound> {
    if ps == [] then []
    else (if ps[0].name == "" then [] else [OutboundOf(ps[0])]) + Outbounds(ps[1..])
  }

  function ProxyNames(ps: seq<RawProxy>): set<string> {
    set p | p in ps && p.name != "" :: p.name
  }

  // Proxies that take no part in health checks.
  function DeadNames(ps: seq<RawProxy>): set<string> {
    set p | p in ps && p.name != "" && (p.deadServer || Stubbed(p)) :: p.name
  }

  // The last stub of a name decides which protocol is reported for it.
  function StubProtocols(ps: seq<RawProxy>): map<string, string> {
    if ps == [] then map[]
    else
      var p, before := ps[|ps| - 1], StubProtocols(ps[..|ps| - 1]);
      if p.name != "" && Stubbed(p) then before[p.name := p.kind] else before
  }

  lemma OutboundsStep(done: seq<Outbound>, ps: seq<RawProxy>, i: int)
    requires 0 <= i < |ps|
    ensures done + Outbounds(ps[i..])
         == (if ps[i].name == "" then done else done + [OutboundOf(ps[i])]) + Outbounds(ps[i + 1..])
  {
    assert ps[i..][1..] == ps[i + 1..];
  }

  lemma StubStep(ps: seq<RawProxy>, i: int)
    requires 0 <= i < |ps|
    ensures StubProtocols(ps[..i + 1])
         == if ps[i].name != "" && Stubbed(ps[i]) then StubProtocols(ps[..i])[ps[i].name := ps[i].kind]
            else StubProtocols(ps[..i])
  {
    assert ps[..i + 1][..i] == ps[..i];
  }

  lemma NamesStep(ps: seq<RawProxy>, i: int)
    requires 0 <= i < |ps|
    ensures ProxyNames(ps[..i + 1]) == ProxyNames(ps[..i]) + if ps[i].name == "" then {} else {ps[i].name}
    ensures DeadNames(ps[..i + 1]) == DeadNames(ps[..i])
      + if ps[i].name != "" && (ps[i].deadServer || Stubbed(ps[i])) then {ps[i].name} else {}
  {
    assert ps[..i + 1] == ps[..i] + [ps[i]];
  }

  method TranslateProxy(p: RawProxy, t: Translation) returns (outbound: Outbound)
    requires p.name != ""
    modifies t`proxyTags, t`stubTags, t`deadTags
    ensures outbound == OutboundOf(p)
    ensures t.proxyTags == old(t.proxyTags) + {p.name}
    ensures t.deadTags == old(t.deadTags) + if p.deadServer || Stubbed(p) then {p.name} else {}
    ensures t.stubTags == if Stubbed(p) then old(t.stubTags)[p.name := p.kind] else old(t.stubTags)
  {
    if p.deadServer {
      t.deadTags := t.deadTags + {p.name};
    }
    if !p.endpoint {
      t.stubTags := t.stubTags[p.name := p.kind];
      t.proxyTags := t.proxyTags + {p.name};
      t.deadTags := t.deadTags + {p.name};
      return Stub(p.name, p.kind);
    }
    if p.node.None? {
      outbound := Stub(p.name, p.kind);
      t.stubTags := t.stubTags[p.name := p.kind];
      t.deadTags := t.deadTags + {p.name};
    } else {
      outbound := Proxy(p.name, p.node.value, p.dialerProxy);
    }
    t.proxyTags := t.proxyTags + {p.name};
  }

  method TranslateProxies(ps: seq<RawProxy>, t: Translation) returns (outbounds: seq<Outbound>)
    requires t.stubTags == map[]
    modifies t`proxyTags, t`stubTags, t`deadTags
    ensures outbounds == Outbounds(ps)
    ensures t.proxyTags == old(t.proxyTags) + ProxyNames(ps)
    ensures t.deadTags == old(t.deadTags) + DeadNames(ps)
    ensures t.stubTags == StubProtocols(ps)
  {
    outbounds := [];
    for i := 0 to |ps|
      invariant outbounds + Outbounds(ps[i..]) == Outbounds(ps)
      invariant t.proxyTags == old(t.proxyTags) + ProxyNames(ps[..i])
      invariant t.deadTags == old(t.deadTags) + DeadNames(ps[..i])
      invariant t.stubTags == StubProtocols(ps[..i])
    {
      OutboundsStep(outbounds, ps, i);
      StubStep(ps, i);
      NamesStep(ps, i);
      if ps[i].name == "" {
        continue;
      }
      var outbound := TranslateProxy(ps[i], t);
      outbounds := outbounds + [outbound];
    }
    assert ps[..|ps|] == ps;
  }

  lemma {:induction false} OutboundMembers(ps: seq<RawProxy>)
    ensures forall p | p in ps && p.name != "" :: OutboundOf(p) in Outbounds(ps)
    ensures forall ob | ob in Outbounds(ps) :: exists p | p in ps :: p.name != "" && ob == OutboundOf(p)
  {
    if ps != [] {
      OutboundMembers(ps[1..]);
      var rest := Outbounds(ps[1..]);
      assert Outbounds(ps) == (if ps[0].name == "" then [] else [OutboundOf(ps[0])]) + rest;
      assert forall p | p in ps :: p == ps[0] || p in ps[1..];
      assert ps[0] in ps && forall p | p in ps[1..] :: p in ps;
    }
  }

  // The proxy tags are exactly the tags of the emitted proxies.
  lemma ProxyTagsAreOutbounds(ps: seq<RawProxy>)
    ensures forall n :: n in ProxyNames(ps) <==> exists ob | ob in Outbounds(ps) :: OutboundTag(ob) == n
    ensures forall ob | ob in Outbounds(ps) :: ob.Proxy? && ob.tag != ""
  {
    OutboundMembers(ps);
    forall n | n in ProxyNames(ps) ensures exists ob | ob in Outbounds(ps) :: OutboundTag(ob) == n {
      var p :| p in ps && p.name != "" && p.name == n;
      assert OutboundTag(OutboundOf(p)) == n && OutboundOf(p) in Outbounds(ps);
    }
  }

  // The query-server names of ECH, each once, in the order they are first seen.
  function EchNames(obs: seq<Outbound>): seq<string> {
    if obs == [] then []
    else
      var ob, before := obs[|obs| - 1], EchNames(obs[..|obs| - 1]);
      if ob.Proxy? && ob.node.echName != "" && ob.node.echName !in before then before + [ob.node.echName]
      else before
  }

  lemma {:induction false} EchNamesOf(obs: seq<Outbound>)
    ensures forall n :: (n in EchNames(obs) <==> n != "" && exists ob | ob in obs :: ob.Proxy? && ob.node.echName == n)
    ensures forall i, j | 0 <= i < j < |EchNames(obs)| :: EchNames(obs)[i] != EchNames(obs)[j]
  {
    if obs != [] {
      var before, ob := obs[..|obs| - 1], obs[|obs| - 1];
      EchNamesOf(before);
      assert forall x :: x in obs <==> x in before || x == ob;
    }
  }

  // The names ECH needs, each once: those of the supported proxies.
  lemma EchNamesAre(ps: seq<RawProxy>)
    ensures forall n ::
      (n in EchNames(Outbounds(ps)) <==>
         n != "" && exists p | p in ps :: p.name != "" && p.endpoint && p.node.Some? && p.node.value.echName == n)
    ensures
      var ech := EchNames(Outbounds(ps));
      forall i, j | 0 <= i < j < |ech| :: ech[i] != ech[j]
  {
    EchNamesOf(Outbounds(ps));
    OutboundMembers(ps);
    forall n | n != "" && exists p | p in ps :: p.name != "" && p.endpoint && p.node.Some? && p.node.value.echName == n
      ensures n in EchNames(Outbounds(ps))
    {
      var p :| p in ps && p.name != "" && p.endpoint && p.node.Some? && p.node.value.echName == n;
      assert OutboundOf(p) in Outbounds(ps);
    }
  }

  // What becomes of a proxy: a stub that nothing listens on and that remembers the
  // protocol, or what the translator of its protocol makes of it, behind the outbound it
  // is to connect through.
  lemma ProxyBecomes(ps: seq<RawProxy>, p: RawProxy)
    requires p in ps && p.name != ""
    ensures !p.endpoint || p.node.None? ==>
      Proxy(p.name, Node("socks", "127.0.0.1", 1, "unsupported:" + p.kind, ""), "") in Outbounds(ps)
    ensures p.endpoint && p.node.Some? ==> Proxy(p.name, p.node.value, p.dialerProxy) in Outbounds(ps)
  {
    OutboundMembers(ps);
    assert OutboundOf(p) in Outbounds(ps);
  }

  method CollectECHQueryServers(obs: seq<Outbound>, t: Translation)
    requires t.echQueryServers == []
    modifies t`echQueryServers
    ensures t.echQueryServers == EchNames(obs)
  {
    for i := 0 to |obs|
      invariant t.echQueryServers == EchNames(obs[..i])
    {
      assert obs[..i + 1][..i] == obs[..i];
      if obs[i].Proxy? {
        var name := obs[i].node.echName;
        if name != "" && name !in t.echQueryServers {
          t.echQueryServers := t.echQueryServers + [name];
        }
      }
    }
    assert obs[..|obs|] == obs;
  }

  // ---------------------------------------------------------------------
  // Default groups
  // ---------------------------------------------------------------------

  const NO_OPTIONS := RawGroup("", "", [], None, None)

  ghost predicate Lists(names: seq<string>, tags: set<string>) {
    && (forall n :: n in names <==> n in tags)
    && (forall i, j | 0 <= i < j < |names| :: names[i] != names[j])
  }

  function DefaultGroups(all: seq<string>, dead: set<string>): seq<Group>
    requires all != []
  {
    var healthy := Healthy(all, dead);
    if |healthy| >= 2 then
      [TestGroup("Auto", healthy, NO_OPTIONS, None), SelectGroup("PROXY", ["Auto"] + all)]
    else [SelectGroup("PROXY", all)]
  }

  ghost predicate AreDefaultGroups(groups: seq<Group>, proxyTags: set<string>, dead: set<string>) {
    exists all :: all != [] && Lists(all, proxyTags) && groups == DefaultGroups(all, dead)
  }

  method ListTags(tags: set<string>) returns (names: seq<string>)
    ensures Lists(names, tags)
  {
    names := [];
    var left := tags;
    while left != {}
      invariant left <= tags && Lists(names, tags - left)
      decreases left
    {
      var n :| n in left;
      names, left := names + [n], left - {n};
    }
  }

  lemma DefaultGroupTags(all: seq<string>, dead: set<string>)
    requires all != []
    ensures GroupTagSet(DefaultGroups(all, dead))
         == (if |Healthy(all, dead)| >= 2 then {"Auto"} else {}) + {"PROXY"}
  {
    var groups := DefaultGroups(all, dead);
    if |Healthy(all, dead)| >= 2 {
      assert groups == [groups[0], groups[1]];
    } else {
      assert groups == [groups[0]];
    }
  }

  method GenerateDefaultGroups(t: Translation) returns (groups: seq<Group>)
    modifies t`groupTags, t`groupTagOrder
    ensures t.proxyTags == {} ==>
      groups == [] && t.groupTagOrder == old(t.groupTagOrder) && t.groupTags == old(t.groupTags)
    ensures t.proxyTags != {} ==>
      && AreDefaultGroups(groups, t.proxyTags, t.deadTags)
      && t.groupTagOrder == ["PROXY"] && t.groupTags == old(t.groupTags) + GroupTagSet(groups)
  {
    var all := ListTags(t.proxyTags);
    if |all| == 0 {
      return [];
    }
    assert all[0] in t.proxyTags;
    var healthy := FilterHealthCheckProxies(all, t);
    groups := [];
    var members := [];
    if |healthy| >= 2 {
      var auto := UrlTestGroup("Auto", healthy, NO_OPTIONS, None);
      groups := [auto];
      members := ["Auto"];
      t.groupTags := t.groupTags + {"Auto"};
    }
    members := members + all;
    assert [] + all == all;
    groups := groups + [SelectGroup("PROXY", members)];
    t.groupTags := t.groupTags + {"PROXY"};
    t.groupTagOrder := ["PROXY"];
    DefaultGroupTags(all, t.deadTags);
    assert groups == DefaultGroups(all, t.deadTags);
  }
}
