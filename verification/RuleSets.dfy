// The rule-sets the translator defines, and what a saved profile makes of them.
module RuleSets {
  import opened Wrappers
  import opened TranslationState
  import opened Migrate
  import DnsRules
  import DnsServers
  import DnsTheorems
  import DnsUpgrade
  import Pipeline
  import Profiles
  import Routes

  // ---------------------------------------------------------------------
  // Which definitions hold addresses
  // ---------------------------------------------------------------------

  const MARK := "sing-geoip/rule-set/"

  lemma PrefixOf(front: string, rest: string)
    ensures HasPrefix(front + rest, front)
  {
  }

  // A definition is taken for one of addresses exactly if its tag starts with "geoip-"
  // or its address leads into the repository of such rule-sets.
  lemma IpOnlyExactly(tag: string, url: string)
    ensures IpOnlyDef(Def(tag, url)) <==>
      tag != "" && ((exists x :: tag == "geoip-" + x) || exists a, b :: url == a + "sing-geoip/rule-set/" + b)
  {
    if HasPrefix(tag, "geoip-") {
      assert tag == "geoip-" + tag[6..];
    }
    if Contains(url, MARK) {
      var i :| 0 <= i <= |url| - |MARK| && OccursAt(url, MARK, i);
      assert url == url[..i] + MARK + url[i + |MARK|..];
    }
    if a, b :| url == a + "sing-geoip/rule-set/" + b {
      assert url[|a|..|a| + |MARK|] == MARK;
      assert OccursAt(url, MARK, |a|);
    }
  }

  // Sets of names are not, unless they come from there.
  lemma GeositeIsNotIpOnly(x: string, url: string)
    requires !Contains(url, MARK)
    ensures !IpOnlyDef(Def("geosite-" + x, url))
  {
    assert ("geosite-" + x)[3] == 's' && "geoip-"[3] == 'i';
  }

  lemma GeoipIsIpOnly(x: string, url: string)
    ensures IpOnlyDef(Def("geoip-" + x, url))
  {
    PrefixOf("geoip-", x);
  }

  // ---------------------------------------------------------------------
  // The definitions of the output
  // ---------------------------------------------------------------------

  const GITHUB := "https://" + "raw.githubusercontent.com" + "/"
  const GEOSITE_REPOSITORY := GITHUB + "SagerNet/sing-geosite/rule-set/"
  const GEOIP_REPOSITORY := GITHUB + "SagerNet/sing-geoip/rule-set/"
  const AI_LIST := GITHUB + "viewer12/OverseasAI.list/main/" + "rule/Singbox/OverseasAI/OverseasAI.srs"

  // Where a rule-set is downloaded from, directly.
  function StandardDef(tag: string): RuleSetDef {
    RuleSetDef(tag,
      if tag == "overseas-ai" then AI_LIST
      else (if HasPrefix(tag, "geoip-") then GEOIP_REPOSITORY else GEOSITE_REPOSITORY) + tag + ".srs",
      Some("DIRECT"))
  }

  predicate AllStandard(defs: map<string, RuleSetDef>) {
    forall tag | tag in defs :: defs[tag] == StandardDef(tag)
  }

  // The sets of names for China.
  const CN_NAMES: set<string> :=
    {"cn", "geolocation-!cn", "microsoft@cn", "steam@cn", "category-games@cn", "onedrive"}

  // What is defined for a country.
  function DefinedSets(cc: string): set<string> {
    {"geosite-private", "geoip-" + cc}
    + if cc == "cn" then {"overseas-ai"} + set name | name in CN_NAMES :: "geosite-" + name else {}
  }

  lemma GeositeIsStandard(name: string)
    ensures RuleSetDef("geosite-" + name, GeositeUrl(name), Some("DIRECT")) == StandardDef("geosite-" + name)
  {
    var tag := "geosite-" + name;
    assert RAW_GITHUB_PREFIX == GITHUB;
    assert tag[3] == 's' && tag[2] == 'o' && "geoip-"[3] == 'i' && "overseas-ai"[2] == 'e';
    assert "SagerNet/sing-geosite/rule-set/geosite-" == "SagerNet/sing-geosite/rule-set/" + "geosite-";
    assert GeositeUrl(name) == GEOSITE_REPOSITORY + tag + ".srs";
  }

  lemma GeoipIsStandard(name: string)
    ensures RuleSetDef("geoip-" + name, GeoipUrl(name), Some("DIRECT")) == StandardDef("geoip-" + name)
  {
    var tag := "geoip-" + name;
    assert RAW_GITHUB_PREFIX == GITHUB;
    assert tag[2] == 'o' && "overseas-ai"[2] == 'e';
    PrefixOf("geoip-", name);
    assert "SagerNet/sing-geoip/rule-set/geoip-" == "SagerNet/sing-geoip/rule-set/" + "geoip-";
    assert GeoipUrl(name) == GEOIP_REPOSITORY + tag + ".srs";
  }

  lemma AiIsStandard()
    ensures RuleSetDef("overseas-ai", Routes.OVERSEAS_AI_URL, Some("DIRECT")) == StandardDef("overseas-ai")
  {
  }

  lemma GeositeAdds(defs: map<string, RuleSetDef>, name: string)
    requires AllStandard(defs)
    ensures
      var more := Registered(defs, "geosite-" + name, GeositeUrl(name));
      AllStandard(more) && more.Keys == defs.Keys + {"geosite-" + name}
  {
    GeositeIsStandard(name);
  }

  lemma GeoipAdds(defs: map<string, RuleSetDef>, name: string)
    requires AllStandard(defs)
    ensures
      var more := Registered(defs, "geoip-" + name, GeoipUrl(name));
      AllStandard(more) && more.Keys == defs.Keys + {"geoip-" + name}
  {
    GeoipIsStandard(name);
  }

  lemma {:induction false} AccessAdds(defs: map<string, RuleSetDef>, names: seq<string>)
    requires AllStandard(defs)
    ensures
      var more := Routes.AccessDefs(defs, names);
      AllStandard(more) && more.Keys == defs.Keys + set name | name in names :: "geosite-" + name
    decreases |names|
  {
    if names != [] {
      GeositeAdds(defs, names[0]);
      AccessAdds(Registered(defs, "geosite-" + names[0], GeositeUrl(names[0])), names[1..]);
      assert forall name :: name in names <==> name == names[0] || name in names[1..];
    }
  }

  lemma AiAdds(defs: map<string, RuleSetDef>)
    requires AllStandard(defs)
    ensures
      var more := Registered(defs, "overseas-ai", Routes.OVERSEAS_AI_URL);
      AllStandard(more) && more.Keys == defs.Keys + {"overseas-ai"}
  {
    AiIsStandard();
  }

  lemma CountrySetsAdd(defs: map<string, RuleSetDef>)
    requires AllStandard(defs)
    ensures
      var foreign := Registered(defs, "geosite-geolocation-!cn", GeositeUrl("geolocation-!cn"));
      var local := Registered(Registered(foreign, "geosite-cn", GeositeUrl("cn")), "geoip-cn", GeoipUrl("cn"));
      && AllStandard(local)
      && local.Keys == defs.Keys + {"geosite-" + "geolocation-!cn", "geosite-" + "cn", "geoip-" + "cn"}
  {
    var foreign := Registered(defs, "geosite-geolocation-!cn", GeositeUrl("geolocation-!cn"));
    assert "geosite-" + "geolocation-!cn" == "geosite-geolocation-!cn" && "geosite-" + "cn" == "geosite-cn";
    assert "geoip-" + "cn" == "geoip-cn";
    GeositeAdds(defs, "geolocation-!cn");
    GeositeAdds(foreign, "cn");
    GeoipAdds(Registered(foreign, "geosite-cn", GeositeUrl("cn")), "cn");
  }

  lemma CnAdds(defs: map<string, RuleSetDef>)
    requires AllStandard(defs)
    ensures AllStandard(Routes.CnDefs(defs))
    ensures Routes.CnDefs(defs).Keys
         == defs.Keys + {"overseas-ai"} + (set name | name in Routes.ACCESS_POINTS :: "geosite-" + name)
            + {"geosite-" + "geolocation-!cn", "geosite-" + "cn", "geoip-" + "cn"}
  {
    var first := Registered(defs, "overseas-ai", Routes.OVERSEAS_AI_URL);
    AiAdds(defs);
    AccessAdds(first, Routes.ACCESS_POINTS);
    CountrySetsAdd(Routes.AccessDefs(first, Routes.ACCESS_POINTS));
  }

  lemma CnNames()
    ensures forall name ::
      (name in CN_NAMES <==> name in Routes.ACCESS_POINTS || name == "geolocation-!cn" || name == "cn")
  {
  }

  lemma CnKeys(first: map<string, RuleSetDef>)
    requires AllStandard(first) && first.Keys == {"geosite-private"}
    ensures AllStandard(Routes.CnDefs(first)) && Routes.CnDefs(first).Keys == DefinedSets("cn")
  {
    CnAdds(first);
    CnNames();
  }

  lemma RouteDefsAre(cc: string)
    ensures AllStandard(Routes.RouteDefs(map[], cc)) && Routes.RouteDefs(map[], cc).Keys == DefinedSets(cc)
  {
    var first := Registered(map[], "geosite-private", GeositeUrl("private"));
    FirstIsStandard();
    if cc == "cn" {
      CnKeys(first);
    } else {
      GeoipAdds(first, cc);
    }
  }

  lemma FirstIsStandard()
    ensures
      var first := Registered(map[], "geosite-private", GeositeUrl("private"));
      AllStandard(first) && first.Keys == {"geosite-private"}
  {
    assert "geosite-" + "private" == "geosite-private";
    GeositeAdds(map[], "private");
  }

  lemma GeoAdds(defs: map<string, RuleSetDef>, cc: string)
    requires AllStandard(defs) && defs.Keys == DefinedSets(cc)
    ensures DnsRules.GeoDefs(defs, cc) == defs
  {
    assert "geosite-private" in defs && "geoip-" + cc in defs;
    if cc == "cn" {
      assert "geosite-" + "cn" == "geosite-cn" && "cn" in CN_NAMES;
      assert "geosite-cn" in DefinedSets(cc);
    }
  }

  // The output defines these rule-sets and no other, each with its address.
  lemma OutputDefsAre(cfg: RawConfig, cc: string, firstGroup: string)
    ensures AllStandard(Pipeline.OutputDefs(cfg, cc, firstGroup))
    ensures Pipeline.OutputDefs(cfg, cc, firstGroup).Keys == DefinedSets(cc)
  {
    RouteDefsAre(cc);
    GeoAdds(Routes.RouteDefs(map[], cc), cc);
  }

  // ---------------------------------------------------------------------
  // Saved and read again
  // ---------------------------------------------------------------------

  lemma NoMarkInGeosite(tag: string)
    requires '/' !in tag
    ensures !Contains(GEOSITE_REPOSITORY + tag + ".srs", MARK)
  {
    var url, k := GEOSITE_REPOSITORY + tag + ".srs", |GEOSITE_REPOSITORY|;
    RepositoryChars();
    assert MARK[9] == 'p' && MARK[|MARK| - 1] == '/' && '/' !in ".srs";
    forall i | 0 <= i <= |url| - |MARK| ensures !OccursAt(url, MARK, i) {
      var part := url[i..i + |MARK|];
      assert part[9] == url[i + 9] && part[|MARK| - 1] == url[i + |MARK| - 1];
    }
  }

  lemma RepositoryChars()
    ensures forall i | 9 <= i < |GEOSITE_REPOSITORY| :: GEOSITE_REPOSITORY[i] != 'p'
  {
    assert 'p' !in "raw.githubusercontent.com" && 'p' !in "/" && 'p' !in "SagerNet/sing-geosite/rule-set/";
  }

  lemma AiListParts()
    ensures '-' !in "viewer12/OverseasAI.list/main/"
    ensures '-' !in "rule/Singbox/OverseasAI/OverseasAI.srs"
  {
  }

  lemma GithubPart()
    ensures '-' !in GITHUB
  {
    assert '-' !in "https://" && '-' !in "raw.githubusercontent.com" && '-' !in "/";
  }

  lemma NoMarkWithoutDash(url: string)
    requires '-' !in url
    ensures !Contains(url, MARK)
  {
    assert MARK[4] == '-';
    forall i | 0 <= i <= |url| - |MARK| ensures !OccursAt(url, MARK, i) {
      assert url[i..i + |MARK|][4] == url[i + 4];
    }
  }

  lemma NoMarkInAiList()
    ensures !Contains(AI_LIST, MARK)
  {
    AiListParts();
    GithubPart();
    NoMarkWithoutDash(AI_LIST);
  }

  // The tags of a country's definitions, apart from its set of addresses.
  lemma NameSets(cc: string, tag: string)
    requires tag in DefinedSets(cc) && tag != "geoip-" + cc
    ensures !IpOnlyDef(Def(tag, StandardDef(tag).url))
  {
    if tag == "overseas-ai" {
      NoMarkInAiList();
      assert tag[0] == 'o' && "geoip-"[0] == 'g';
    } else {
      var name := tag[8..];
      NamePart(tag, cc);
      assert tag == "geosite-" + name;
      NoMarkInGeosite(tag);
      assert tag[3] == 's' && "geoip-"[3] == 'i';
      GeositeIsNotIpOnly(name, StandardDef(tag).url);
    }
  }

  lemma NoSlash(name: string)
    requires name in CN_NAMES || name == "private"
    ensures '/' !in name
  {
  }

  lemma NamePart(tag: string, cc: string)
    requires tag in DefinedSets(cc) && tag != "geoip-" + cc && tag != "overseas-ai"
    ensures |tag| >= 8 && tag == "geosite-" + tag[8..] && '/' !in tag
  {
    var name := tag[8..];
    assert "geosite-private" == "geosite-" + "private";
    assert tag == "geosite-" + name && (name in CN_NAMES || name == "private");
    NoSlash(name);
    assert '/' !in "geosite-";
  }

  // The code takes exactly the country's set of addresses for one when it reads back
  // what it has written.
  lemma SavedSetsAreRead(cfg: RawConfig, cc: string, firstGroup: string, ruleSet: seq<RuleSetDef>)
    requires forall def :: def in ruleSet <==> def in Pipeline.OutputDefs(cfg, cc, firstGroup).Values
    ensures IpOnlyTags(Profiles.SavedDefs(ruleSet)) == {"geoip-" + cc}
  {
    var defs, saved := Pipeline.OutputDefs(cfg, cc, firstGroup), Profiles.SavedDefs(ruleSet);
    OutputDefsAre(cfg, cc, firstGroup);
    forall d | d in saved && IpOnlyDef(d) ensures d.tag == "geoip-" + cc {
      var i :| 0 <= i < |saved| && saved[i] == d;
      assert ruleSet[i] in defs.Values;
      var tag :| tag in defs && defs[tag] == ruleSet[i];
      if tag != "geoip-" + cc {
        NameSets(cc, tag);
      }
    }
    var own := "geoip-" + cc;
    assert own in defs && defs[own] in defs.Values;
    var i :| 0 <= i < |ruleSet| && ruleSet[i] == defs[own];
    GeoipIsIpOnly(cc, saved[i].url);
    assert saved[i] in saved;
  }

  // So the table the translator generates is the older one, upgraded as the code would
  // upgrade it with the rule-sets saved beside it.
  lemma GeneratedIsUpgradedAsSaved(
    cfg: RawConfig, cc: string, ech: seq<string>, firstGroup: string, ruleSet: seq<RuleSetDef>)
    requires DnsTheorems.HasDirect(DnsServers.Servers(cfg, firstGroup))
    requires forall def :: def in ruleSet <==> def in Pipeline.OutputDefs(cfg, cc, firstGroup).Values
    ensures DnsTheorems.Table(cfg, cc, ech, firstGroup)
         == Upgraded(IpOnlyTags(Profiles.SavedDefs(ruleSet)), [], DnsUpgrade.OlderTable(cfg, cc, ech, firstGroup))
  {
    SavedSetsAreRead(cfg, cc, firstGroup, ruleSet);
    DnsUpgrade.GeneratedIsUpgraded(cfg, cc, ech, firstGroup, IpOnlyTags(Profiles.SavedDefs(ruleSet)));
  }
}
