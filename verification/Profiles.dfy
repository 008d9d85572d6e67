// Running a saved profile again: prefixing rule-set URLs, recovering the stub
// marks, and what a restart with the running configuration changes.
module Profiles {
  import opened Wrappers
  import opened TranslationState
  import opened Migrate
  import opened Proxies
  import opened OutboundTheorems
  import DnsTable
  import DnsUpgrade
  import GroupTheorems
  import Pipeline
  import Validate

  // The fields of an outbound that are read back.
  datatype SavedOutbound = SavedOutbound(kind: string, tag: string, server: string, port: int, username: string)

  // A configuration as text, taken apart: the part the upgrade looks at, and the
  // outbounds.
  datatype Profile = Profile(root: Root, outbounds: seq<SavedOutbound>)

  // ---------------------------------------------------------------------
  // The rule-set proxy
  // ---------------------------------------------------------------------

  function TrimSlashes(s: string): string {
    if s != "" && s[|s| - 1] == '/' then TrimSlashes(s[..|s| - 1]) else s
  }

  function ProxyURL(url: string, proxy: string): string {
    var prefix := TrimSlashes(proxy);
    if prefix != "" && HasPrefix(url, RAW_GITHUB_PREFIX) then prefix + "/" + url else url
  }

  // The proxy is itself reached under the prefix that is rewritten.
  predicate CatchesItself(proxy: string) {
    TrimSlashes(proxy) != "" && HasPrefix(TrimSlashes(proxy) + "/", RAW_GITHUB_PREFIX)
  }

  // The GitHub prefix does not overlap itself: shifted, it differs at the last or
  // the last but one character.
  lemma NoOverlap(k: int)
    requires 0 < k < |RAW_GITHUB_PREFIX|
    ensures exists i | k <= i < |RAW_GITHUB_PREFIX| :: RAW_GITHUB_PREFIX[i] != RAW_GITHUB_PREFIX[i - k]
  {
    var raw := RAW_GITHUB_PREFIX;
    var last := |raw| - 1;
    HostChars();
    if 8 <= last - k {
      assert raw[last - k] == GITHUB_HOST[last - k - 8] && raw[last] == '/';
    } else if k < last {
      assert raw[last - k] == "https://"[last - k] && raw[last - 1 - k] == "https://"[last - 1 - k];
      assert raw[last - 1] == GITHUB_HOST[|GITHUB_HOST| - 1] == 'm';
    } else {
      assert raw[0] == 'h' && raw[last] == '/';
    }
  }

  lemma HostChars()
    ensures forall i | 0 <= i < |GITHUB_HOST| :: GITHUB_HOST[i] != '/'
    ensures GITHUB_HOST != "" && GITHUB_HOST[|GITHUB_HOST| - 1] == 'm'
  {
    assert '/' !in GITHUB_HOST;
  }

  lemma HidesUnlessOverlap(front: string, url: string, raw: string)
    requires HasPrefix(url, raw)
    requires |front| < |raw| ==> exists i | |front| <= i < |raw| :: raw[i] != raw[i - |front|]
    ensures HasPrefix(front + url, raw) <==> HasPrefix(front, raw)
  {
    var k := |front|;
    if k < |raw| {
      var i :| k <= i < |raw| && raw[i] != raw[i - k];
      assert (front + url)[i] == url[i - k] == raw[i - k];
    } else {
      assert front[..|raw|] == (front + url)[..|raw|];
    }
  }

  // A text put before the GitHub prefix hides it, unless it starts with it.
  lemma PrefixHides(front: string, url: string)
    requires front != "" && HasPrefix(url, RAW_GITHUB_PREFIX)
    ensures HasPrefix(front + url, RAW_GITHUB_PREFIX) <==> HasPrefix(front, RAW_GITHUB_PREFIX)
  {
    if |front| < |RAW_GITHUB_PREFIX| {
      NoOverlap(|front|);
    }
    HidesUnlessOverlap(front, url, RAW_GITHUB_PREFIX);
  }

  // Prefixing twice is prefixing once, for every URL, exactly when the proxy does
  // not catch itself.
  lemma ProxyURLIdempotent(proxy: string)
    ensures (forall url :: ProxyURL(ProxyURL(url, proxy), proxy) == ProxyURL(url, proxy)) <==> !CatchesItself(proxy)
  {
    var prefix := TrimSlashes(proxy);
    if CatchesItself(proxy) {
      var url := ProxyURL(RAW_GITHUB_PREFIX, proxy);
      assert url == prefix + "/" + RAW_GITHUB_PREFIX;
      assert HasPrefix(url, RAW_GITHUB_PREFIX) by {
        assert url[..|RAW_GITHUB_PREFIX|] == (prefix + "/")[..|RAW_GITHUB_PREFIX|];
      }
      assert |ProxyURL(url, proxy)| > |url|;
    } else {
      forall url ensures ProxyURL(ProxyURL(url, proxy), proxy) == ProxyURL(url, proxy) {
        if prefix != "" && HasPrefix(url, RAW_GITHUB_PREFIX) {
          PrefixHides(prefix + "/", url);
        }
      }
    }
  }

  // A download from GitHub goes through the proxy, whose trailing slashes do not matter;
  // any other address stays, and so does everything without a proxy.
  lemma ProxiedUrl(path: string, proxy: string, slashes: string)
    requires proxy != "" && proxy[|proxy| - 1] != '/' && forall c | c in slashes :: c == '/'
    ensures
      var url := "https://" + "raw.githubusercontent.com" + "/" + path;
      ProxyURL(url, proxy + slashes) == proxy + "/" + url
  {
    TrimsSlashes(proxy, slashes);
    var url := "https://" + "raw.githubusercontent.com" + "/" + path;
    assert url[..|RAW_GITHUB_PREFIX|] == RAW_GITHUB_PREFIX;
  }

  lemma {:induction false} TrimsSlashes(s: string, slashes: string)
    requires (s == "" || s[|s| - 1] != '/') && forall c | c in slashes :: c == '/'
    ensures TrimSlashes(s + slashes) == s
  {
    if slashes == "" {
      assert s + slashes == s;
    } else {
      var rest := slashes[..|slashes| - 1];
      assert slashes[|slashes| - 1] in slashes && forall c | c in rest :: c in slashes;
      assert (s + slashes)[..|s + slashes| - 1] == s + rest;
      TrimsSlashes(s, rest);
    }
  }

  lemma UnproxiedUrl(url: string, proxy: string, slashes: string)
    requires forall c | c in slashes :: c == '/'
    ensures !HasPrefix(url, "https://" + "raw.githubusercontent.com" + "/") ==> ProxyURL(url, proxy) == url
    ensures ProxyURL(url, slashes) == url
  {
    TrimsSlashes("", slashes);
    assert "" + slashes == slashes;
  }

  function ProxyDef(d: SetDef, proxy: string): SetDef {
    if d.Def? && d.url != "" then d.(url := ProxyURL(d.url, proxy)) else d
  }

  function ProxyDefs(defs: seq<SetDef>, proxy: string): (r: seq<SetDef>)
    ensures |r| == |defs| && forall i | 0 <= i < |r| :: r[i] == ProxyDef(defs[i], proxy)
  {
    seq(|defs|, i requires 0 <= i < |defs| => ProxyDef(defs[i], proxy))
  }

  function ProxyRoot(root: Root, proxy: string): Root {
    if proxy == "" || root.ruleSets == None then root
    else root.(ruleSets := Some(ProxyDefs(root.ruleSets.value, proxy)))
  }

  method ApplyRuleSetProxy(root: Root, proxy: string) returns (out: Root)
    ensures out == ProxyRoot(root, proxy)
  {
    if proxy == "" || root.ruleSets == None {
      return root;
    }
    var defs := root.ruleSets.value;
    for i := 0 to |defs|
      invariant |defs| == |root.ruleSets.value|
      invariant forall k | 0 <= k < i :: defs[k] == ProxyDef(root.ruleSets.value[k], proxy)
      invariant forall k | i <= k < |defs| :: defs[k] == root.ruleSets.value[k]
    {
      if defs[i].NotADef? {
        continue;
      }
      if defs[i].url != "" {
        defs := defs[i := defs[i].(url := ProxyURL(defs[i].url, proxy))];
      }
    }
    assert defs == ProxyDefs(root.ruleSets.value, proxy);
    out := root.(ruleSets := Some(defs));
  }

  // ---------------------------------------------------------------------
  // Stub marks
  // ---------------------------------------------------------------------

  predicate MarkedStub(ob: SavedOutbound) {
    ob.kind == "socks" && ob.server == "127.0.0.1" && ob.port == 1 && HasPrefix(ob.username, STUB_MARK)
  }

  function StubMarks(obs: seq<SavedOutbound>): map<string, string> {
    if obs == [] then map[]
    else
      var ob, before := obs[|obs| - 1], StubMarks(obs[..|obs| - 1]);
      if MarkedStub(ob) then before[ob.tag := ob.username[|STUB_MARK|..]] else before
  }

  method ExtractStubTags(obs: seq<SavedOutbound>) returns (tags: map<string, string>)
    ensures tags == StubMarks(obs)
  {
    tags := map[];
    for i := 0 to |obs|
      invariant tags == StubMarks(obs[..i])
    {
      var ob := obs[i];
      assert obs[..i + 1][..i] == obs[..i];
      if ob.kind != "socks" || ob.server != "127.0.0.1" || ob.port != 1 {
        continue;
      }
      if !HasPrefix(ob.username, STUB_MARK) {
        continue;
      }
      tags := tags[ob.tag := ob.username[|STUB_MARK|..]];
    }
    assert obs[..|obs|] == obs;
  }

  // A socks outbound to a dead port that carries the mark.
  predicate LooksLikeStub(ob: SavedOutbound, tag: string) {
    ob.tag == tag && ob.kind == "socks" && ob.server == "127.0.0.1" && ob.port == 1
    && HasPrefix(ob.username, "unsupported:")
  }

  // A tag is marked if some outbound of this tag looks like a stub, with the protocol the
  // last of them names.
  lemma {:induction false} MarksAre(obs: seq<SavedOutbound>, tag: string)
    ensures tag in StubMarks(obs) <==> exists ob | ob in obs :: LooksLikeStub(ob, tag)
    ensures tag in StubMarks(obs) ==>
      exists i | 0 <= i < |obs| ::
        && LooksLikeStub(obs[i], tag) && obs[i].username == "unsupported:" + StubMarks(obs)[tag]
        && forall j | i < j < |obs| :: !LooksLikeStub(obs[j], tag)
  {
    if obs != [] {
      var n := |obs| - 1;
      var before := obs[..n];
      MarksAre(before, tag);
      assert forall ob :: ob in obs <==> ob in before || ob == obs[n];
      assert forall i | 0 <= i < n :: before[i] == obs[i];
      if LooksLikeStub(obs[n], tag) {
        assert obs[n].username == STUB_MARK + obs[n].username[|STUB_MARK|..];
      } else if tag in StubMarks(obs) {
        var i :| 0 <= i < n && LooksLikeStub(before[i], tag)
          && before[i].username == "unsupported:" + StubMarks(before)[tag]
          && forall j | i < j < n :: !LooksLikeStub(before[j], tag);
        assert obs[i] == before[i];
      }
    }
  }

  // ---------------------------------------------------------------------
  // Starting
  // ---------------------------------------------------------------------

  datatype Input = Json(profile: Profile) | Clash(cfg: RawConfig)

  datatype Start = Started(profile: Profile, stubTags: map<string, string>) | Failed(error: Validate.Error)

  function Upgrade(root: Root): Root {
    if NeedsUpgrade(root) then
      root.(dnsRules := Some(Upgraded(IpOnlyTags(root.ruleSets.value), [], root.dnsRules.value)))
    else root
  }

  // What starting a saved profile runs.
  function Rerun(p: Profile, proxy: string): Profile {
    p.(root := ProxyRoot(Upgrade(p.root), proxy))
  }

  // Which DNS rules are upgraded is decided by the saved addresses of the rule-sets, not
  // by where the proxy takes them.
  lemma RulesIgnoreProxy(p: Profile, proxy: string)
    ensures Rerun(p, proxy).root.dnsRules == Rerun(p, "").root.dnsRules
    ensures Rerun(p, proxy).outbounds == p.outbounds
    ensures p.root.dnsRules.Some? && p.root.ruleSets.Some? ==>
      Rerun(p, proxy).root.dnsRules == Some(Upgraded(IpOnlyTags(p.root.ruleSets.value), [], p.root.dnsRules.value))
    ensures p.root.dnsRules == None || p.root.ruleSets == None ==> Rerun(p, proxy).root.dnsRules == p.root.dnsRules
  {
    if p.root.dnsRules.Some? && p.root.ruleSets.Some? && !NeedsUpgrade(p.root) {
      NothingUpgraded(IpOnlyTags(p.root.ruleSets.value), [], p.root.dnsRules.value);
      assert [] + p.root.dnsRules.value == p.root.dnsRules.value;
    }
  }

  lemma {:induction false} NothingUpgraded(ipOnly: set<string>, done: seq<DnsTable.Rule>, rest: seq<DnsTable.Rule>)
    requires !SomeUpgradable(rest, ipOnly)
    ensures Upgraded(ipOnly, done, rest) == done + rest
    decreases |rest|
  {
    if rest != [] {
      assert rest[0] in rest && forall r | r in rest[1..] :: r in rest;
      NothingUpgraded(ipOnly, done + [rest[0]], rest[1..]);
      assert done + [rest[0]] + rest[1..] == done + rest;
    }
  }

  function SavedForm(ob: Outbound): SavedOutbound {
    match ob
    case Direct(tag) => SavedOutbound("direct", tag, "", 0, "")
    case Proxy(tag, node, _) => SavedOutbound(node.kind, tag, node.server, node.port, node.username)
    case Grouped(g) => SavedOutbound(g.kind, g.tag, "", 0, "")
  }

  function SavedForms(obs: seq<Outbound>): (r: seq<SavedOutbound>)
    ensures |r| == |obs| && forall i | 0 <= i < |r| :: r[i] == SavedForm(obs[i])
  {
    seq(|obs|, i requires 0 <= i < |obs| => SavedForm(obs[i]))
  }

  function SavedDefs(defs: seq<RuleSetDef>): (r: seq<SetDef>)
    ensures |r| == |defs| && forall i | 0 <= i < |r| :: r[i] == Def(defs[i].tag, defs[i].url)
  {
    seq(|defs|, i requires 0 <= i < |defs| => Def(defs[i].tag, defs[i].url))
  }

  // An empty list is left out of the text.
  function Omit<T>(list: seq<T>): Option<seq<T>> {
    if list == [] then None else Some(list)
  }

  // The text of a translated configuration.
  function Written(dns: Option<Dns>, ruleSet: seq<RuleSetDef>, obs: seq<Outbound>): Profile {
    Profile(Root(if dns.None? then None else Omit(dns.value.rules), Omit(SavedDefs(ruleSet)), 0), SavedForms(obs))
  }

  // The stub marks of a configuration that was just translated.
  function ReportedStubs(computed: map<string, string>, p: Profile): map<string, string> {
    if computed == map[] then StubMarks(p.outbounds) else computed
  }

  // ---------------------------------------------------------------------
  // Restarting a saved profile
  // ---------------------------------------------------------------------

  const GEOIP_MARK := "sing-geoip/rule-set/"

  // The proxy makes any rule-set behind it look like one of addresses.
  predicate LooksLikeGeoip(proxy: string) {
    TrimSlashes(proxy) != "" && Contains(TrimSlashes(proxy) + "/", GEOIP_MARK)
  }

  lemma MarkChars()
    ensures 'h' !in GEOIP_MARK && '-' in GEOIP_MARK && '-' !in RAW_GITHUB_PREFIX && RAW_GITHUB_PREFIX[0] == 'h'
    ensures !HasPrefix(GEOIP_MARK, "h")
  {
    assert '-' !in GITHUB_HOST && '-' !in "https://" && '-' !in "/";
    assert GEOIP_MARK[4] == '-';
  }

  lemma PrefixedContains(front: string, url: string, mark: string)
    requires url != "" && url[0] !in mark
    ensures Contains(front + url, mark) <==> Contains(front, mark) || Contains(url, mark)
  {
    var whole := front + url;
    forall i | 0 <= i < |front| && |front| < i + |mark| <= |whole| ensures !OccursAt(whole, mark, i) {
      assert whole[i..i + |mark|][|front| - i] == url[0];
    }
    if i :| 0 <= i <= |whole| - |mark| && OccursAt(whole, mark, i) {
      if i + |mark| <= |front| {
        assert front[i..i + |mark|] == whole[i..i + |mark|];
        assert OccursAt(front, mark, i);
      } else if i >= |front| {
        assert url[i - |front|..i - |front| + |mark|] == whole[i..i + |mark|];
        assert OccursAt(url, mark, i - |front|);
      }
    }
    if i :| 0 <= i <= |front| - |mark| && OccursAt(front, mark, i) {
      assert whole[i..i + |mark|] == front[i..i + |mark|];
      assert OccursAt(whole, mark, i);
    }
    if i :| 0 <= i <= |url| - |mark| && OccursAt(url, mark, i) {
      assert whole[|front| + i..|front| + i + |mark|] == url[i..i + |mark|];
      assert OccursAt(whole, mark, |front| + i);
    }
  }

  lemma ProxyKeepsIpOnly(d: SetDef, proxy: string)
    requires !LooksLikeGeoip(proxy)
    ensures IpOnlyDef(ProxyDef(d, proxy)) == IpOnlyDef(d)
  {
    MarkChars();
    if d.Def? && HasPrefix(d.url, RAW_GITHUB_PREFIX) && TrimSlashes(proxy) != "" {
      assert d.url[0] == RAW_GITHUB_PREFIX[0];
      PrefixedContains(TrimSlashes(proxy) + "/", d.url, GEOIP_MARK);
    }
  }

  lemma ProxyKeepsIpOnlyTags(defs: seq<SetDef>, proxy: string)
    requires !LooksLikeGeoip(proxy)
    ensures IpOnlyTags(ProxyDefs(defs, proxy)) == IpOnlyTags(defs)
  {
    var out := ProxyDefs(defs, proxy);
    forall tag ensures tag in IpOnlyTags(out) <==> tag in IpOnlyTags(defs) {
      if tag in IpOnlyTags(out) {
        var i :| 0 <= i < |out| && IpOnlyDef(out[i]) && out[i].tag == tag;
        ProxyKeepsIpOnly(defs[i], proxy);
        assert defs[i] in defs;
      }
      if tag in IpOnlyTags(defs) {
        var i :| 0 <= i < |defs| && IpOnlyDef(defs[i]) && defs[i].tag == tag;
        ProxyKeepsIpOnly(defs[i], proxy);
        assert out[i] in out;
      }
    }
  }

  lemma ProxyRootIdempotent(root: Root, proxy: string)
    requires !CatchesItself(proxy)
    ensures ProxyRoot(ProxyRoot(root, proxy), proxy) == ProxyRoot(root, proxy)
  {
    ProxyURLIdempotent(proxy);
    if proxy != "" && root.ruleSets.Some? {
      var once := ProxyDefs(root.ruleSets.value, proxy);
      forall i | 0 <= i < |once| ensures ProxyDef(once[i], proxy) == once[i] {
        var d := root.ruleSets.value[i];
        assert d.Def? ==> ProxyURL(ProxyURL(d.url, proxy), proxy) == ProxyURL(d.url, proxy);
      }
      assert ProxyDefs(once, proxy) == once;
    }
  }

  lemma UpgradeSettles(root: Root, proxy: string)
    requires !LooksLikeGeoip(proxy)
    ensures !NeedsUpgrade(ProxyRoot(Upgrade(root), proxy))
  {
    var up := Upgrade(root);
    if NeedsUpgrade(root) {
      UpgradeIdempotent(root);
    }
    if proxy != "" && up.ruleSets.Some? {
      ProxyKeepsIpOnlyTags(up.ruleSets.value, proxy);
    }
  }

  lemma RerunSettles(p: Profile, proxy: string)
    requires !CatchesItself(proxy) && !LooksLikeGeoip(proxy)
    ensures Rerun(Rerun(p, proxy), proxy) == Rerun(p, proxy)
  {
    UpgradeSettles(p.root, proxy);
    ProxyRootIdempotent(Upgrade(p.root), proxy);
  }

  const SOME_DEF := Def("x", RAW_GITHUB_PREFIX)
  const SOME_RULE := DnsTable.Rule("", "route", "dns", DnsTable.Unset, DnsTable.One("x"), None, DnsTable.ANYTHING)

  // A profile whose rule-set is not one of addresses.
  const SOME_PROFILE := Profile(Root(Some([SOME_RULE]), Some([SOME_DEF]), 0), [])

  lemma SomeDefIsPlain()
    ensures !IpOnlyDef(SOME_DEF)
  {
    MarkChars();
    forall i | 0 <= i <= |RAW_GITHUB_PREFIX| - |GEOIP_MARK| ensures !OccursAt(RAW_GITHUB_PREFIX, GEOIP_MARK, i) {
      assert GEOIP_MARK[4] == '-';
      assert RAW_GITHUB_PREFIX[i..i + |GEOIP_MARK|][4] == RAW_GITHUB_PREFIX[i + 4];
    }
    assert !HasPrefix("x", "geoip-");
  }

  lemma FirstRun(proxy: string)
    requires TrimSlashes(proxy) != ""
    ensures Rerun(SOME_PROFILE, proxy)
         == Profile(Root(Some([SOME_RULE]), Some([Def("x", TrimSlashes(proxy) + "/" + RAW_GITHUB_PREFIX)]), 0), [])
  {
    SomeDefIsPlain();
    assert IpOnlyTags([SOME_DEF]) == {};
    assert !Upgradable(SOME_RULE, {});
    assert Upgrade(SOME_PROFILE.root) == SOME_PROFILE.root;
    assert ProxyDefs([SOME_DEF], proxy) == [Def("x", TrimSlashes(proxy) + "/" + RAW_GITHUB_PREFIX)];
  }

  // A proxy that catches itself is put in front once more.
  lemma SecondRunPrefixes(proxy: string)
    requires CatchesItself(proxy)
    ensures Rerun(Rerun(SOME_PROFILE, proxy), proxy) != Rerun(SOME_PROFILE, proxy)
  {
    var url := TrimSlashes(proxy) + "/" + RAW_GITHUB_PREFIX;
    var once := Rerun(SOME_PROFILE, proxy);
    FirstRun(proxy);
    PrefixHides(TrimSlashes(proxy) + "/", RAW_GITHUB_PREFIX);
    var twice := Rerun(once, proxy);
    assert twice.root.ruleSets.value[0] == ProxyDef(Def("x", url), proxy);
    assert |twice.root.ruleSets.value[0].url| > |url|;
  }

  // A proxy that looks like a rule-set of addresses makes the second run upgrade
  // rules that the first left alone.
  lemma SecondRunUpgrades(proxy: string)
    requires LooksLikeGeoip(proxy)
    ensures Rerun(Rerun(SOME_PROFILE, proxy), proxy) != Rerun(SOME_PROFILE, proxy)
  {
    var url := TrimSlashes(proxy) + "/" + RAW_GITHUB_PREFIX;
    var once := Rerun(SOME_PROFILE, proxy).root;
    FirstRun(proxy);
    MarkChars();
    PrefixedContains(TrimSlashes(proxy) + "/", RAW_GITHUB_PREFIX, GEOIP_MARK);
    var d := Def("x", url);
    assert IpOnlyDef(d) && d in once.ruleSets.value;
    assert "x" in IpOnlyTags(once.ruleSets.value);
    assert DnsTable.SetTags(SOME_RULE.ruleSets)[0] == "x";
    var ipOnly := IpOnlyTags(once.ruleSets.value);
    assert Upgradable(SOME_RULE, ipOnly) && SOME_RULE in once.dnsRules.value;
    assert NeedsUpgrade(once);
    UpgradeExtends(ipOnly, [], [SOME_RULE]);
    UpgradeRewrites(ipOnly, [], [SOME_RULE], 0);
    var up := Upgraded(ipOnly, [], [SOME_RULE]);
    var at := Positions(ipOnly, [], [SOME_RULE])[0];
    assert up[at].matchResponse == DnsTable.Flag(true) && up[at] in up;
    assert SOME_RULE != up[at] && up != [SOME_RULE];
  }

  // Restarting with the running configuration and the same proxy keeps it, whatever
  // the saved profile, exactly if the proxy neither catches itself nor looks like a
  // rule-set of addresses.
  lemma RestartKeepsProfile(proxy: string)
    ensures (forall p :: Rerun(Rerun(p, proxy), proxy) == Rerun(p, proxy))
      <==> !CatchesItself(proxy) && !LooksLikeGeoip(proxy)
  {
    if !CatchesItself(proxy) && !LooksLikeGeoip(proxy) {
      forall p ensures Rerun(Rerun(p, proxy), proxy) == Rerun(p, proxy) {
        RerunSettles(p, proxy);
      }
    } else if CatchesItself(proxy) {
      SecondRunPrefixes(proxy);
    } else {
      SecondRunUpgrades(proxy);
    }
  }

  // ---------------------------------------------------------------------
  // Restarting a translated profile
  // ---------------------------------------------------------------------

  // A supported proxy that looks like a stub once it is saved.
  predicate Imitates(p: RawProxy) {
    p.name != "" && !Stubbed(p) && MarkedStub(SavedForm(OutboundOf(p)))
  }

  predicate HasImitator(ps: seq<RawProxy>) {
    exists p | p in ps :: Imitates(p)
  }

  lemma {:induction false} OutboundsJoin(a: seq<RawProxy>, b: seq<RawProxy>)
    ensures Outbounds(a + b) == Outbounds(a) + Outbounds(b)
  {
    if a == [] {
      assert a + b == b;
    } else {
      assert (a + b)[0] == a[0] && (a + b)[1..] == a[1..] + b;
      OutboundsJoin(a[1..], b);
    }
  }

  lemma {:induction false} UnmarkedTail(obs: seq<SavedOutbound>, tail: seq<SavedOutbound>)
    requires forall ob | ob in tail :: !MarkedStub(ob)
    ensures StubMarks(obs + tail) == StubMarks(obs)
  {
    if tail == [] {
      assert obs + tail == obs;
    } else {
      var n := |obs + tail| - 1;
      assert (obs + tail)[n] == tail[|tail| - 1] && tail[|tail| - 1] in tail;
      assert (obs + tail)[..n] == obs + tail[..|tail| - 1];
      UnmarkedTail(obs, tail[..|tail| - 1]);
    }
  }

  lemma {:induction false} UnmarkedHead(ob: SavedOutbound, obs: seq<SavedOutbound>)
    requires !MarkedStub(ob)
    ensures StubMarks([ob] + obs) == StubMarks(obs)
  {
    if obs == [] {
      assert [ob] + obs == [ob] && [ob][..0] == [];
    } else {
      var n := |obs|;
      assert ([ob] + obs)[n] == obs[n - 1] && ([ob] + obs)[..n] == [ob] + obs[..n - 1];
      UnmarkedHead(ob, obs[..n - 1]);
    }
  }

  lemma MarkOf(p: RawProxy)
    requires p.name != "" && !Imitates(p)
    ensures MarkedStub(SavedForm(OutboundOf(p))) <==> Stubbed(p)
    ensures Stubbed(p) ==> SavedForm(OutboundOf(p)).username[|STUB_MARK|..] == p.kind
  {
    if Stubbed(p) {
      assert SavedForm(OutboundOf(p)).username == STUB_MARK + p.kind;
    }
  }

  lemma LoneOutbound(p: RawProxy)
    ensures Outbounds([p]) == if p.name == "" then [] else [OutboundOf(p)]
  {
    assert [p][1..] == [] && Outbounds([]) == [];
  }

  lemma LastOutbound(before: seq<RawProxy>, p: RawProxy)
    ensures Outbounds(before + [p]) == Outbounds(before) + if p.name == "" then [] else [OutboundOf(p)]
  {
    LoneOutbound(p);
    OutboundsJoin(before, [p]);
  }

  lemma {:induction false} MarksAreStubs(ps: seq<RawProxy>)
    requires !HasImitator(ps)
    ensures StubMarks(SavedForms(Outbounds(ps))) == StubProtocols(ps)
  {
    if ps != [] {
      var n := |ps| - 1;
      var p, before := ps[n], Outbounds(ps[..n]);
      assert ps == ps[..n] + [p];
      LastOutbound(ps[..n], p);
      assert forall q | q in ps[..n] :: q in ps;
      MarksAreStubs(ps[..n]);
      if p.name == "" {
        assert before + [] == before;
      } else {
        var ob, forms := SavedForm(OutboundOf(p)), SavedForms(Outbounds(ps));
        assert forms == SavedForms(before) + [ob];
        assert forms[|forms| - 1] == ob && forms[..|forms| - 1] == SavedForms(before);
        assert !Imitates(p);
        MarkOf(p);
      }
    }
  }

  lemma {:induction false} MarkKeys(obs: seq<SavedOutbound>, ob: SavedOutbound)
    requires ob in obs && MarkedStub(ob)
    ensures ob.tag in StubMarks(obs)
  {
    var n := |obs| - 1;
    if obs[n] != ob {
      assert obs == obs[..n] + [obs[n]];
      MarkKeys(obs[..n], ob);
    }
  }

  lemma {:induction false} StubKeys(ps: seq<RawProxy>, name: string)
    requires name in StubProtocols(ps)
    ensures exists i | 0 <= i < |ps| :: ps[i].name == name && name != "" && Stubbed(ps[i])
  {
    var n := |ps| - 1;
    if ps[n].name == name && name != "" && Stubbed(ps[n]) {
    } else {
      StubKeys(ps[..n], name);
      var i :| 0 <= i < n && ps[..n][i].name == name && name != "" && Stubbed(ps[..n][i]);
      assert ps[i].name == name && Stubbed(ps[i]);
    }
  }

  // With distinct names the marks in the saved text are the stubs that were made,
  // unless some proxy imitates one.
  lemma MarksAreStubsExactly(ps: seq<RawProxy>)
    requires DistinctProxies(ps)
    ensures StubMarks(SavedForms(Outbounds(ps))) == StubProtocols(ps) <==> !HasImitator(ps)
  {
    if HasImitator(ps) {
      var p :| p in ps && Imitates(p);
      var i :| 0 <= i < |ps| && ps[i] == p;
      OutboundMembers(ps);
      var obs := Outbounds(ps);
      var k :| 0 <= k < |obs| && obs[k] == OutboundOf(p);
      assert SavedForms(obs)[k] == SavedForm(OutboundOf(p));
      MarkKeys(SavedForms(obs), SavedForm(OutboundOf(p)));
      if p.name in StubProtocols(ps) {
        StubKeys(ps, p.name);
      }
    } else {
      MarksAreStubs(ps);
    }
  }

  const IMITATOR :=
    RawProxy("a", "socks5", true, true, Some(Node("socks", "127.0.0.1", 1, "unsupported:snell", "")), "")
  const UNSUPPORTED := RawProxy("b", "snell", false, true, None, "")

  // A socks proxy that looks like a stub is reported as one after a restart, next to
  // a stub that is one.
  lemma ImitatorIsMarked()
    ensures "a" !in StubProtocols([IMITATOR, UNSUPPORTED]) && "b" in StubProtocols([IMITATOR, UNSUPPORTED])
    ensures StubMarks(SavedForms(Outbounds([IMITATOR, UNSUPPORTED]))) != StubProtocols([IMITATOR, UNSUPPORTED])
  {
    var ps := [IMITATOR, UNSUPPORTED];
    assert ps[..1] == [IMITATOR] && [IMITATOR][..0] == [];
    assert !Stubbed(IMITATOR) && StubProtocols([]) == map[];
    assert StubProtocols([IMITATOR]) == map[];
    assert StubProtocols(ps) == map["b" := "snell"] && "a" != "b";
    assert "unsupported:snell"[..|STUB_MARK|] == STUB_MARK;
    assert IMITATOR in ps && Imitates(IMITATOR);
    MarksAreStubsExactly(ps);
  }

  lemma MarksIgnoreGroups(obs: seq<Outbound>, groups: seq<Group>)
    requires forall g | g in groups :: g.kind == "selector" || g.kind == "urltest"
    ensures StubMarks(SavedForms([Direct("DIRECT")] + (obs + Wrap(groups)))) == StubMarks(SavedForms(obs))
  {
    var head, tail := SavedForm(Direct("DIRECT")), SavedForms(Wrap(groups));
    forall ob | ob in tail ensures !MarkedStub(ob) {
      var i :| 0 <= i < |tail| && tail[i] == ob;
      assert groups[i] in groups;
    }
    UnmarkedTail(SavedForms(obs), tail);
    UnmarkedHead(head, SavedForms(obs) + tail);
    assert SavedForms([Direct("DIRECT")] + (obs + Wrap(groups))) == [head] + (SavedForms(obs) + tail);
  }

  // Stub marks of a whole translated configuration: groups and DIRECT carry none.
  lemma MarksOfOutput(cfg: RawConfig, groups: seq<Group>, order: seq<string>)
    requires AreGroups(cfg, groups, order)
    ensures StubMarks(SavedForms(AllOutbounds(cfg, groups))) == StubMarks(SavedForms(Outbounds(cfg.proxies)))
  {
    GroupKinds(cfg, groups, order);
    MarksIgnoreGroups(Outbounds(cfg.proxies), groups);
  }

  lemma GroupKinds(cfg: RawConfig, groups: seq<Group>, order: seq<string>)
    requires AreGroups(cfg, groups, order)
    ensures forall g | g in groups :: g.kind == "selector" || g.kind == "urltest"
  {
    GroupTheorems.GroupsAreWellMade(cfg.groups, ProxyNames(cfg.proxies), DeadNames(cfg.proxies));
  }

  // What a successful start with a Clash configuration runs and reports.
  ghost predicate IsStart(
    cfg: RawConfig, country: string, proxy: string, groups: seq<Group>, order: seq<string>,
    ruleSet: seq<RuleSetDef>, start: Start)
  {
    var dns := Pipeline.OutputDns(cfg, country, EchNames(Outbounds(cfg.proxies)), FirstOf(order));
    var written := Written(Some(dns), ruleSet, AllOutbounds(cfg, groups));
    && AreGroups(cfg, groups, order) && Validate.NoDuplicates(AllOutbounds(cfg, groups))
    && start == Started(written.(root := ProxyRoot(written.root, proxy)),
                        ReportedStubs(StubProtocols(cfg.proxies), written))
  }

  ghost predicate StartsClash(cfg: RawConfig, country: string, proxy: string, start: Start) {
    exists groups, order, ruleSet :: IsStart(cfg, country, proxy, groups, order, ruleSet, start)
  }

  // The configuration to run and the stubs to report.
  method TranslateConfig(input: Input, country: string, proxy: string) returns (start: Start)
    ensures input.Json? ==> start == Started(Rerun(input.profile, proxy), StubMarks(input.profile.outbounds))
    ensures input.Clash? ==> match start
      case Failed(error) => error.DuplicateTag?
      case Started(_, _) => StartsClash(input.cfg, country, proxy, start)
  {
    match input {
      case Json(profile) =>
        var root, changed := UpgradeLegacyDNSRules(profile.root);
        var out := ApplyRuleSetProxy(root, proxy);
        var stubs := ExtractStubTags(profile.outbounds);
        start := Started(profile.(root := out), stubs);
      case Clash(cfg) =>
        var t, err := Pipeline.TranslateFromConfig(cfg, country);
        if err.Some? {
          return Failed(err.value);
        }
        var written := Written(t.dns, t.ruleSet, t.outbounds);
        var out := ApplyRuleSetProxy(written.root, proxy);
        var stubs := t.stubTags;
        if stubs == map[] {
          stubs := ExtractStubTags(written.outbounds);
        }
        start := Started(written.(root := out), stubs);
        ghost var groups :|
          AreGroups(cfg, groups, t.groupTagOrder) && t.outbounds == AllOutbounds(cfg, groups);
        assert IsStart(cfg, country, proxy, groups, t.groupTagOrder, t.ruleSet, start);
    }
  }

  lemma ProxyRootRules(root: Root, proxy: string)
    ensures ProxyRoot(root, proxy).dnsRules == root.dnsRules
  {
  }

  // The protocol reported for a name is that of the last proxy of this name that cannot
  // be run.
  lemma {:induction false} StubsAre(ps: seq<RawProxy>, name: string)
    ensures name in StubProtocols(ps) <==>
      name != "" && exists p | p in ps :: p.name == name && (!p.endpoint || p.node.None?)
    ensures name in StubProtocols(ps) ==>
      exists i | 0 <= i < |ps| ::
        && ps[i].name == name && (!ps[i].endpoint || ps[i].node.None?) && StubProtocols(ps)[name] == ps[i].kind
        && forall j | i < j < |ps| && ps[j].name == name :: ps[j].endpoint && ps[j].node.Some?
  {
    if ps != [] {
      var n := |ps| - 1;
      var before := ps[..n];
      StubsAre(before, name);
      assert forall p :: p in ps <==> p in before || p == ps[n];
      assert forall i | 0 <= i < n :: before[i] == ps[i];
      if name in StubProtocols(ps) && !(ps[n].name == name && Stubbed(ps[n])) {
        var i :| 0 <= i < n && before[i].name == name && (!before[i].endpoint || before[i].node.None?)
          && StubProtocols(before)[name] == before[i].kind
          && forall j | i < j < n && before[j].name == name :: before[j].endpoint && before[j].node.Some?;
        assert ps[i] == before[i];
      }
    }
  }

  // A restart of a translated configuration with the text it runs: nothing is
  // rewritten a second time, and the same stubs are reported unless a proxy that is
  // no stub looks like one.
  lemma RestartKeepsTranslation(cfg: RawConfig, country: string, proxy: string, start: Start)
    requires StartsClash(cfg, country, proxy, start) && !CatchesItself(proxy)
    ensures Rerun(start.profile, proxy) == start.profile
    ensures StubMarks(start.profile.outbounds) == start.stubTags
      <==> StubProtocols(cfg.proxies) == map[] || !HasImitator(cfg.proxies)
  {
    var groups, order, ruleSet :| IsStart(cfg, country, proxy, groups, order, ruleSet, start);
    var ech, firstGroup := EchNames(Outbounds(cfg.proxies)), FirstOf(order);
    var dns := Pipeline.OutputDns(cfg, country, ech, firstGroup);
    var written := Written(Some(dns), ruleSet, AllOutbounds(cfg, groups));
    ProxyRootRules(written.root, proxy);
    if dns.rules != [] {
      DnsUpgrade.GeneratedNeedsNoUpgrade(cfg, country, ech, firstGroup, start.profile.root);
    }
    ProxyRootIdempotent(written.root, proxy);
    MarksOfOutput(cfg, groups, order);
    TagsAreDistinctExactly(cfg, groups, order);
    MarksAreStubsExactly(cfg.proxies);
  }
}
