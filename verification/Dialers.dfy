// Proxies that connect through another outbound: the one reference the final check
// does not look at.
module Dialers {
  import opened Wrappers
  import opened TranslationState
  import opened Groups
  import opened Proxies
  import opened Validate
  import opened OutboundTheorems

  function OutputTags(cfg: RawConfig): set<string> {
    {"DIRECT"} + ProxyNames(cfg.proxies) + set n | n in GroupTags(cfg)
  }

  predicate DialersDefined(obs: seq<Outbound>, tags: set<string>) {
    forall ob | ob in obs && ob.Proxy? :: ob.detour == "" || ob.detour in tags
  }

  lemma TagsOfList(obs: seq<Outbound>)
    requires forall n | n in TagList(obs) :: n != ""
    ensures OutboundTags(obs) == {"DIRECT"} + set n | n in TagList(obs)
  {
    var list := TagList(obs);
    forall n ensures n in OutboundTags(obs) <==> n == "DIRECT" || n in list {
      if n in OutboundTags(obs) && n != "DIRECT" {
        var ob :| ob in obs && OutboundTag(ob) == n;
        var i :| 0 <= i < |obs| && obs[i] == ob;
        assert list[i] == n;
      }
      if n in list {
        var i :| 0 <= i < |list| && list[i] == n;
        assert obs[i] in obs;
      }
    }
  }

  lemma OutboundTagsAre(cfg: RawConfig, groups: seq<Group>, order: seq<string>)
    requires AreGroups(cfg, groups, order)
    ensures OutboundTags(AllOutbounds(cfg, groups)) == OutputTags(cfg)
  {
    NamedOutbounds(cfg, groups, order);
    AllTagsNamed(cfg);
    TagsOfList(AllOutbounds(cfg, groups));
    ProxyNamesDistinct(cfg.proxies);
  }

  predicate DialersIn(ps: seq<RawProxy>, tags: set<string>) {
    forall p | p in ps && p.name != "" && !Stubbed(p) :: p.dialerProxy == "" || p.dialerProxy in tags
  }

  lemma DialersAre(ps: seq<RawProxy>, groups: seq<Group>, tags: set<string>)
    ensures DialersDefined([Direct("DIRECT")] + (Outbounds(ps) + Wrap(groups)), tags) <==> DialersIn(ps, tags)
  {
    var obs := [Direct("DIRECT")] + (Outbounds(ps) + Wrap(groups));
    OutboundMembers(ps);
    if DialersDefined(obs, tags) {
      forall p | p in ps && p.name != "" && !Stubbed(p) ensures p.dialerProxy == "" || p.dialerProxy in tags {
        assert OutboundOf(p) in obs;
      }
    }
    if DialersIn(ps, tags) {
      forall ob | ob in obs && ob.Proxy? ensures ob.detour == "" || ob.detour in tags {
        assert ob in Outbounds(ps);
      }
    }
  }

  // What the input names is a proxy, a group that is left, or DIRECT.
  predicate DialersExist(cfg: RawConfig) {
    DialersIn(cfg.proxies, OutputTags(cfg))
  }

  // The detour of every proxy leads somewhere exactly if the input names something
  // that comes out.
  lemma DialersHoldExactly(cfg: RawConfig, groups: seq<Group>, order: seq<string>)
    requires AreGroups(cfg, groups, order)
    ensures DialersDefined(AllOutbounds(cfg, groups), OutboundTags(AllOutbounds(cfg, groups))) <==> DialersExist(cfg)
  {
    OutboundTagsAre(cfg, groups, order);
    DialersAre(cfg.proxies, groups, OutputTags(cfg));
  }

  const NO_DNS := RawDns(false, [], [], [], [], "", [], "", None, false)
  const SOME_NODE := Node("shadowsocks", "example.com", 443, "", "")

  function OneProxy(name: string, dialerProxy: string): RawConfig {
    RawConfig([RawProxy(name, "ss", false, true, Some(SOME_NODE), dialerProxy)], [], NO_DNS, [])
  }

  lemma SubsetCount(a: set<string>, b: set<string>)
    requires a <= b
    ensures |a| <= |b|
  {
    assert b == a + (b - a);
  }

  // A configuration without groups fails exactly if two proxies share a name or one
  // has a name that is taken.
  lemma Ungrouped(cfg: RawConfig)
    requires cfg.groups == []
    ensures HasCleanNames(cfg) <==>
      DistinctProxies(cfg.proxies) && "DIRECT" !in ProxyNames(cfg.proxies) && CleanDefaults(cfg)
    ensures GroupTags(cfg) == DefaultTagList(ProxyNames(cfg.proxies), HasAuto(cfg))
  {
    LeftNames(cfg);
    assert NameSet(cfg.groups) == {};
    assert GroupNames(cfg) == {};
  }

  lemma OneProxyNames(name: string, dialerProxy: string)
    requires name != ""
    ensures ProxyNames(OneProxy(name, dialerProxy).proxies) == {name} && !HasAuto(OneProxy(name, dialerProxy))
  {
    var cfg := OneProxy(name, dialerProxy);
    assert cfg.proxies[0] in cfg.proxies;
    SubsetCount(ProxyNames(cfg.proxies) - DeadNames(cfg.proxies), {name});
  }

  lemma OneProxyClean(name: string, dialerProxy: string)
    requires name != ""
    ensures HasCleanNames(OneProxy(name, dialerProxy)) <==> name != "DIRECT" && name != "PROXY"
  {
    Ungrouped(OneProxy(name, dialerProxy));
    OneProxyNames(name, dialerProxy);
  }

  lemma OneProxyTags(cfg: RawConfig, name: string)
    requires cfg.groups == [] && ProxyNames(cfg.proxies) == {name} && !HasAuto(cfg)
    ensures OutputTags(cfg) == {"DIRECT", name, "PROXY"}
  {
    Ungrouped(cfg);
    OneTag(GroupTags(cfg), "PROXY");
  }

  lemma OneTag(tags: seq<string>, tag: string)
    requires tags == [tag]
    ensures (set n | n in tags) == {tag}
  {
  }

  // A configuration with one proxy and no groups: the final check accepts it whatever
  // the proxy connects through.
  lemma OneProxyDials(name: string, dialerProxy: string)
    requires name != ""
    ensures HasCleanNames(OneProxy(name, dialerProxy)) <==> name != "DIRECT" && name != "PROXY"
    ensures DialersExist(OneProxy(name, dialerProxy)) <==> dialerProxy in {"", "DIRECT", "PROXY", name}
  {
    var cfg := OneProxy(name, dialerProxy);
    OneProxyClean(name, dialerProxy);
    OneProxyNames(name, dialerProxy);
    OneProxyTags(cfg, name);
    assert cfg.proxies[0] in cfg.proxies && cfg.proxies[0].dialerProxy == dialerProxy;
  }

  // A detour to nowhere, and a proxy that connects through itself.
  lemma DanglingDialer()
    ensures HasCleanNames(OneProxy("a", "gone")) && !DialersExist(OneProxy("a", "gone"))
  {
    OneProxyDials("a", "gone");
  }

  lemma SelfDialer()
    ensures HasCleanNames(OneProxy("a", "a")) && DialersExist(OneProxy("a", "a"))
    ensures Outbounds(OneProxy("a", "a").proxies) == [Proxy("a", SOME_NODE, "a")]
  {
    OneProxyDials("a", "a");
  }

  // A subscription without groups fails if it has a proxy called PROXY.
  lemma ProxyCalledProxy()
    ensures !HasCleanNames(OneProxy("PROXY", ""))
  {
    OneProxyDials("PROXY", "");
  }
}
