// The generated route rules.
module Routes {
  import opened Wrappers
  import opened TranslationState
  import opened RouteTable

  const OVERSEAS_AI_URL :=
    RAW_GITHUB_PREFIX + "viewer12/OverseasAI.list/main/" + "rule/Singbox/OverseasAI/OverseasAI.srs"

  // Services with access points in the country, and the rule-sets they come from.
  const ACCESS_POINTS: seq<string> := ["microsoft@cn", "steam@cn", "category-games@cn", "onedrive"]

  // Country domains that are used all over the world.
  const GENERIC_CCTLDS: set<string> := {
    "io", "tv", "ai", "me", "cc", "sh", "gg", "je", "fm", "am",
    "la", "ly", "to", "co", "ws", "tk", "cf", "ga", "gq", "ml"
  }

  function SetRule(tag: string, outbound: string): RouteRule {
    Plain(Cond(None, [tag], Anything), Some(outbound), None)
  }

  function TestRule(test: Test, outbound: string): RouteRule {
    Plain(Cond(None, [], test), Some(outbound), None)
  }

  function AccessRules(names: seq<string>): seq<RouteRule> {
    if names == [] then [] else [SetRule("geosite-" + names[0], "DIRECT")] + AccessRules(names[1..])
  }

  function GeoRules(proxy: string): seq<RouteRule> {
    [SetRule("geosite-geolocation-!cn", proxy), SetRule("geosite-cn", "DIRECT"),
     SetRule("geoip-cn", "DIRECT"), TestRule(DomainSuffix([".cn"]), "DIRECT")]
  }

  function CnRoutes(proxy: string): seq<RouteRule> {
    [SetRule("overseas-ai", proxy)] + AccessRules(ACCESS_POINTS) + GeoRules(proxy)
  }

  function CountryRoutes(cc: string): seq<RouteRule> {
    [SetRule("geoip-" + cc, "DIRECT")]
    + if cc in GENERIC_CCTLDS then [] else [TestRule(DomainSuffix(["." + cc]), "DIRECT")]
  }

  function LocalRoutes(cc: string, proxy: string): seq<RouteRule> {
    if cc == "cn" then CnRoutes(proxy) else CountryRoutes(cc)
  }

  const PRIVATE_RULES := [TestRule(PrivateIp, "DIRECT"), SetRule("geosite-private", "DIRECT")]

  function GeneratedRoutes(cc: string, proxy: string): seq<RouteRule> {
    PRIVATE_RULES + LocalRoutes(cc, proxy)
  }

  function AccessDefs(defs: map<string, RuleSetDef>, names: seq<string>): map<string, RuleSetDef>
    decreases |names|
  {
    if names == [] then defs
    else AccessDefs(Registered(defs, "geosite-" + names[0], GeositeUrl(names[0])), names[1..])
  }

  function CnDefs(defs: map<string, RuleSetDef>): map<string, RuleSetDef> {
    var access := AccessDefs(Registered(defs, "overseas-ai", OVERSEAS_AI_URL), ACCESS_POINTS);
    var foreign := Registered(access, "geosite-geolocation-!cn", GeositeUrl("geolocation-!cn"));
    Registered(Registered(foreign, "geosite-cn", GeositeUrl("cn")), "geoip-cn", GeoipUrl("cn"))
  }

  function LocalDefs(defs: map<string, RuleSetDef>, cc: string): map<string, RuleSetDef> {
    if cc == "cn" then CnDefs(defs) else Registered(defs, "geoip-" + cc, GeoipUrl(cc))
  }

  function RouteDefs(defs: map<string, RuleSetDef>, cc: string): map<string, RuleSetDef> {
    LocalDefs(Registered(defs, "geosite-private", GeositeUrl("private")), cc)
  }

  method AddAccessRules(t: Translation)
    modifies t`rules, t`ruleSetDefs
    ensures t.rules == old(t.rules) + AccessRules(ACCESS_POINTS)
    ensures t.ruleSetDefs == AccessDefs(old(t.ruleSetDefs), ACCESS_POINTS)
  {
    var names := ACCESS_POINTS;
    for i := 0 to |names|
      invariant t.rules + AccessRules(names[i..]) == old(t.rules) + AccessRules(names)
      invariant AccessDefs(t.ruleSetDefs, names[i..]) == AccessDefs(old(t.ruleSetDefs), names)
    {
      assert names[i..][1..] == names[i + 1..];
      var tag := "geosite-" + names[i];
      RegisterRuleSet(tag, GeositeUrl(names[i]), t);
      t.rules := t.rules + [SetRule(tag, "DIRECT")];
    }
  }

  method AddSetRule(tag: string, url: string, outbound: string, t: Translation)
    modifies t`rules, t`ruleSetDefs
    ensures t.rules == old(t.rules) + [SetRule(tag, outbound)]
    ensures t.ruleSetDefs == Registered(old(t.ruleSetDefs), tag, url)
  {
    RegisterRuleSet(tag, url, t);
    t.rules := t.rules + [SetRule(tag, outbound)];
  }

  // The rules after those for the access points.
  method AddGeoRules(proxyTag: string, t: Translation)
    modifies t`rules, t`ruleSetDefs
    ensures t.rules == old(t.rules) + GeoRules(proxyTag)
    ensures t.ruleSetDefs == Registered(Registered(
      Registered(old(t.ruleSetDefs), "geosite-geolocation-!cn", GeositeUrl("geolocation-!cn")),
      "geosite-cn", GeositeUrl("cn")), "geoip-cn", GeoipUrl("cn"))
  {
    AddSetRule("geosite-geolocation-!cn", GeositeUrl("geolocation-!cn"), proxyTag, t);
    AddSetRule("geosite-cn", GeositeUrl("cn"), "DIRECT", t);
    AddSetRule("geoip-cn", GeoipUrl("cn"), "DIRECT", t);
    t.rules := t.rules + [TestRule(DomainSuffix([".cn"]), "DIRECT")];
  }

  method GenerateCNRoutes(proxyTag: string, t: Translation)
    modifies t`rules, t`ruleSetDefs
    ensures t.rules == old(t.rules) + CnRoutes(proxyTag)
    ensures t.ruleSetDefs == CnDefs(old(t.ruleSetDefs))
  {
    AddSetRule("overseas-ai", OVERSEAS_AI_URL, proxyTag, t);
    AddAccessRules(t);
    AddGeoRules(proxyTag, t);
  }

  method GenerateCountryRoutes(cc: string, t: Translation)
    modifies t`rules, t`ruleSetDefs
    ensures t.rules == old(t.rules) + CountryRoutes(cc)
    ensures t.ruleSetDefs == Registered(old(t.ruleSetDefs), "geoip-" + cc, GeoipUrl(cc))
  {
    AddSetRule("geoip-" + cc, GeoipUrl(cc), "DIRECT", t);
    if cc !in GENERIC_CCTLDS {
      t.rules := t.rules + [TestRule(DomainSuffix(["." + cc]), "DIRECT")];
    }
  }

  method AddPrivateRules(t: Translation)
    modifies t`rules, t`ruleSetDefs
    ensures t.rules == old(t.rules) + PRIVATE_RULES
    ensures t.ruleSetDefs == Registered(old(t.ruleSetDefs), "geosite-private", GeositeUrl("private"))
  {
    t.rules := t.rules + [TestRule(PrivateIp, "DIRECT")];
    AddSetRule("geosite-private", GeositeUrl("private"), "DIRECT", t);
  }

  method AddLocalRules(cc: string, proxyTag: string, t: Translation)
    modifies t`rules, t`ruleSetDefs
    ensures t.rules == old(t.rules) + LocalRoutes(cc, proxyTag)
    ensures t.ruleSetDefs == LocalDefs(old(t.ruleSetDefs), cc)
  {
    if cc == "cn" {
      GenerateCNRoutes(proxyTag, t);
    } else {
      GenerateCountryRoutes(cc, t);
    }
  }

  lemma Append3(a: seq<RouteRule>, b: seq<RouteRule>, c: seq<RouteRule>)
    ensures a + b + c == a + (b + c)
  {
  }

  function ProxyTag(firstGroup: string): string {
    if firstGroup == "" then "DIRECT" else firstGroup
  }

  method TranslateRules(t: Translation)
    modifies t`rules, t`ruleSetDefs
    ensures t.rules == old(t.rules) + GeneratedRoutes(t.country, ProxyTag(t.FirstGroupTag()))
    ensures t.ruleSetDefs == RouteDefs(old(t.ruleSetDefs), t.country)
  {
    var proxyTag := t.FirstGroupTag();
    if proxyTag == "" {
      proxyTag := "DIRECT";
    }
    var cc := t.country;
    Append3(t.rules, PRIVATE_RULES, LocalRoutes(cc, proxyTag));
    AddPrivateRules(t);
    AddLocalRules(cc, proxyTag, t);
  }
}
