// Assembling the configuration: the built-in outbound, the actions and modes of
// the route rules, the rules before them, and the rule-set definitions.
module Assemble {
  import opened Wrappers
  import opened TranslationState
  import opened RouteTable
  import DnsTable
  import Proxies

  // ---------------------------------------------------------------------
  // One rule
  // ---------------------------------------------------------------------

  function ConvertReject(r: RouteRule): RouteRule {
    if r.outbound == Some("REJECT") then r.(outbound := None, action := Some("reject")) else r
  }

  function AddAction(r: RouteRule): RouteRule {
    if r.action == None && r.outbound.Some? then r.(action := Some("route")) else r
  }

  const RULE_MODE := Cond(Some("Rule"), [], Anything)

  function AddMode(r: RouteRule): RouteRule {
    if r.outbound == None then r
    else
      match r
      case Plain(cond, _, _) => if cond.clashMode.Some? then r else r.(cond := cond.(clashMode := Some("Rule")))
      case Logical(mode, subs, _, _) => if mode == "and" then r.(subs := subs + [RULE_MODE]) else r
  }

  function Prepared(r: RouteRule): RouteRule {
    AddMode(AddAction(ConvertReject(r)))
  }

  method ConvertRejectActions(t: Translation)
    modifies t`rules
    ensures |t.rules| == |old(t.rules)|
    ensures forall k | 0 <= k < |t.rules| :: t.rules[k] == ConvertReject(old(t.rules)[k])
  {
    for i := 0 to |t.rules|
      invariant |t.rules| == |old(t.rules)|
      invariant forall k | 0 <= k < i :: t.rules[k] == ConvertReject(old(t.rules)[k])
      invariant forall k | i <= k < |t.rules| :: t.rules[k] == old(t.rules)[k]
    {
      var rule := t.rules[i];
      if rule.outbound == Some("REJECT") {
        rule := rule.(outbound := None);
        rule := rule.(action := Some("reject"));
        t.rules := t.rules[i := rule];
      }
    }
  }

  method AddRouteAction(t: Translation)
    modifies t`rules
    ensures |t.rules| == |old(t.rules)|
    ensures forall k | 0 <= k < |t.rules| :: t.rules[k] == AddAction(old(t.rules)[k])
  {
    for i := 0 to |t.rules|
      invariant |t.rules| == |old(t.rules)|
      invariant forall k | 0 <= k < i :: t.rules[k] == AddAction(old(t.rules)[k])
      invariant forall k | i <= k < |t.rules| :: t.rules[k] == old(t.rules)[k]
    {
      if t.rules[i].action == None {
        if t.rules[i].outbound.Some? {
          t.rules := t.rules[i := t.rules[i].(action := Some("route"))];
        }
      }
    }
  }

  method AddClashModeCondition(t: Translation)
    modifies t`rules
    ensures |t.rules| == |old(t.rules)|
    ensures forall k | 0 <= k < |t.rules| :: t.rules[k] == AddMode(old(t.rules)[k])
  {
    for i := 0 to |t.rules|
      invariant |t.rules| == |old(t.rules)|
      invariant forall k | 0 <= k < i :: t.rules[k] == AddMode(old(t.rules)[k])
      invariant forall k | i <= k < |t.rules| :: t.rules[k] == old(t.rules)[k]
    {
      var rule := t.rules[i];
      if rule.outbound.None? {
        continue;
      }
      if rule.Plain? && rule.cond.clashMode.Some? {
        continue;
      }
      if rule.Logical? {
        if rule.mode == "and" {
          rule := rule.(subs := rule.subs + [RULE_MODE]);
        }
      } else {
        rule := rule.(cond := rule.cond.(clashMode := Some("Rule")));
      }
      t.rules := t.rules[i := rule];
    }
  }

  // ---------------------------------------------------------------------
  // Rules about undefined rule-sets
  // ---------------------------------------------------------------------

  predicate Orphan(c: Cond, defined: set<string>) {
    c.ruleSets != [] && Keep(c.ruleSets, defined) == []
  }

  function Pruned(c: Cond, defined: set<string>): Cond {
    c.(ruleSets := Keep(c.ruleSets, defined))
  }

  function PruneSubs(subs: seq<Cond>, defined: set<string>): seq<Cond> {
    if subs == [] then []
    else (if Orphan(subs[0], defined) then [] else [Pruned(subs[0], defined)]) + PruneSubs(subs[1..], defined)
  }

  function PruneRule(r: RouteRule, defined: set<string>): Option<RouteRule> {
    match r
    case Plain(cond, _, _) => if Orphan(cond, defined) then None else Some(r.(cond := Pruned(cond, defined)))
    case Logical(_, subs, _, _) => Some(r.(subs := PruneSubs(subs, defined)))
  }

  function PruneRules(rules: seq<RouteRule>, defined: set<string>): seq<RouteRule> {
    if rules == [] then []
    else
      (match PruneRule(rules[0], defined) case None => [] case Some(r) => [r]) + PruneRules(rules[1..], defined)
  }

  method ValidTags(tags: seq<string>, defined: set<string>) returns (valid: seq<string>)
    ensures valid == Keep(tags, defined)
  {
    valid := [];
    for i := 0 to |tags|
      invariant valid + Keep(tags[i..], defined) == Keep(tags, defined)
    {
      assert tags[i..][1..] == tags[i + 1..];
      if tags[i] in defined {
        valid := valid + [tags[i]];
      }
    }
  }

  lemma SubsStep(done: seq<Cond>, subs: seq<Cond>, i: int, defined: set<string>)
    requires 0 <= i < |subs|
    ensures done + PruneSubs(subs[i..], defined)
         == (if Orphan(subs[i], defined) then done else done + [Pruned(subs[i], defined)])
            + PruneSubs(subs[i + 1..], defined)
  {
    assert subs[i..][1..] == subs[i + 1..];
  }

  method FilterOrphanSubRules(subs: seq<Cond>, defined: set<string>) returns (filtered: seq<Cond>)
    ensures filtered == PruneSubs(subs, defined)
  {
    filtered := [];
    for i := 0 to |subs|
      invariant filtered + PruneSubs(subs[i..], defined) == PruneSubs(subs, defined)
    {
      SubsStep(filtered, subs, i, defined);
      if |subs[i].ruleSets| == 0 {
        filtered := filtered + [subs[i]];
        continue;
      }
      var valid := ValidTags(subs[i].ruleSets, defined);
      if |valid| > 0 {
        filtered := filtered + [subs[i].(ruleSets := valid)];
      }
    }
  }

  lemma RulesStep(done: seq<RouteRule>, rules: seq<RouteRule>, i: int, defined: set<string>)
    requires 0 <= i < |rules|
    ensures done + PruneRules(rules[i..], defined)
         == (match PruneRule(rules[i], defined) case None => done case Some(r) => done + [r])
            + PruneRules(rules[i + 1..], defined)
  {
    assert rules[i..][1..] == rules[i + 1..];
  }

  method FilterOrphanRule(rule: RouteRule, defined: set<string>) returns (kept: Option<RouteRule>)
    ensures kept == PruneRule(rule, defined)
  {
    if rule.Logical? {
      if |rule.subs| > 0 {
        var subs := FilterOrphanSubRules(rule.subs, defined);
        return Some(rule.(subs := subs));
      }
      return Some(rule);
    }
    if |rule.cond.ruleSets| == 0 {
      return Some(rule);
    }
    var valid := ValidTags(rule.cond.ruleSets, defined);
    if |valid| > 0 {
      return Some(rule.(cond := rule.cond.(ruleSets := valid)));
    }
    return None;
  }

  method FilterOrphanRules(rules: seq<RouteRule>, defined: set<string>) returns (filtered: seq<RouteRule>)
    ensures filtered == PruneRules(rules, defined)
  {
    filtered := [];
    for i := 0 to |rules|
      invariant filtered + PruneRules(rules[i..], defined) == PruneRules(rules, defined)
    {
      RulesStep(filtered, rules, i, defined);
      var kept := FilterOrphanRule(rules[i], defined);
      if kept.Some? {
        filtered := filtered + [kept.value];
      }
    }
  }

  // DNS rules: only a list of tags is looked at.
  function PruneDnsRule(r: DnsTable.Rule, defined: set<string>): Option<DnsTable.Rule> {
    if !r.Rule? || !r.ruleSets.Many? || r.ruleSets.tags == [] then Some(r)
    else if Keep(r.ruleSets.tags, defined) == [] then None
    else Some(r.(ruleSets := DnsTable.Many(Keep(r.ruleSets.tags, defined))))
  }

  function PruneDnsRules(rules: seq<DnsTable.Rule>, defined: set<string>): seq<DnsTable.Rule> {
    if rules == [] then []
    else
      (match PruneDnsRule(rules[0], defined) case None => [] case Some(r) => [r])
      + PruneDnsRules(rules[1..], defined)
  }

  lemma DnsStep(done: seq<DnsTable.Rule>, rules: seq<DnsTable.Rule>, i: int, defined: set<string>)
    requires 0 <= i < |rules|
    ensures done + PruneDnsRules(rules[i..], defined)
         == (match PruneDnsRule(rules[i], defined) case None => done case Some(r) => done + [r])
            + PruneDnsRules(rules[i + 1..], defined)
  {
    assert rules[i..][1..] == rules[i + 1..];
  }

  method FilterOrphanDnsRules(rules: seq<DnsTable.Rule>, defined: set<string>)
    returns (filtered: seq<DnsTable.Rule>)
    ensures filtered == PruneDnsRules(rules, defined)
  {
    filtered := [];
    for i := 0 to |rules|
      invariant filtered + PruneDnsRules(rules[i..], defined) == PruneDnsRules(rules, defined)
    {
      DnsStep(filtered, rules, i, defined);
      var rule := rules[i];
      if !rule.Rule? || !rule.ruleSets.Many? || |rule.ruleSets.tags| == 0 {
        filtered := filtered + [rule];
        continue;
      }
      var valid := ValidTags(rule.ruleSets.tags, defined);
      if |valid| > 0 {
        filtered := filtered + [rule.(ruleSets := DnsTable.Many(valid))];
      }
    }
  }

  function DefinedTags(defs: map<string, RuleSetDef>): set<string> {
    set tag | tag in defs :: defs[tag].tag
  }

  method RemoveOrphanRuleSetRules(t: Translation)
    modifies t`rules, t`dns
    ensures t.rules == PruneRules(old(t.rules), DefinedTags(t.ruleSetDefs))
    ensures t.dns == if old(t.dns).None? then None
      else Some(old(t.dns).value.(rules := PruneDnsRules(old(t.dns).value.rules, DefinedTags(t.ruleSetDefs))))
  {
    var defined := DefinedTags(t.ruleSetDefs);
    var rules := FilterOrphanRules(t.rules, defined);
    t.rules := rules;
    if t.dns.Some? {
      var dns := t.dns.value;
      var dnsRules := FilterOrphanDnsRules(dns.rules, defined);
      t.dns := Some(dns.(rules := dnsRules));
    }
  }

  // ---------------------------------------------------------------------
  // The whole pass
  // ---------------------------------------------------------------------

  const SNIFF := Plain(Cond(None, [], Anything), None, Some("sniff"))
  const HIJACK_DNS := Plain(Cond(None, [], DnsProtocol), None, Some("hijack-dns"))

  function CatchAll(mode: string, outbound: string): RouteRule {
    Plain(Cond(Some(mode), [], Anything), Some(outbound), Some("route"))
  }

  function DefaultRules(firstGroup: string): seq<RouteRule> {
    [SNIFF, HIJACK_DNS]
    + if firstGroup == "" then [] else [CatchAll("Direct", "DIRECT"), CatchAll("Global", firstGroup)]
  }

  function AllPrepared(rules: seq<RouteRule>): (r: seq<RouteRule>)
    ensures |r| == |rules| && forall i | 0 <= i < |r| :: r[i] == Prepared(rules[i])
  {
    seq(|rules|, i requires 0 <= i < |rules| => Prepared(rules[i]))
  }

  function AssembledRules(rules: seq<RouteRule>, firstGroup: string, defined: set<string>): seq<RouteRule> {
    PruneRules(DefaultRules(firstGroup) + AllPrepared(rules), defined)
  }

  function FinalOutbound(final: string, firstGroup: string): string {
    if final != "" then final else if firstGroup != "" then firstGroup else "DIRECT"
  }

  function WithDetour(def: RuleSetDef): RuleSetDef {
    if def.detour == None then def.(detour := Some("DIRECT")) else def
  }

  predicate KeysMatch(defs: map<string, RuleSetDef>) {
    forall tag | tag in defs :: defs[tag].tag == tag
  }

  predicate DistinctDefs(ruleSet: seq<RuleSetDef>) {
    forall i, j | 0 <= i < j < |ruleSet| :: ruleSet[i].tag != ruleSet[j].tag
  }

  // Fills in the download detours and lists the definitions, each once.
  method ListRuleSets(t: Translation)
    modifies t`ruleSet, t`ruleSetDefs
    ensures t.ruleSetDefs.Keys == old(t.ruleSetDefs).Keys
    ensures forall tag | tag in t.ruleSetDefs :: t.ruleSetDefs[tag] == WithDetour(old(t.ruleSetDefs)[tag])
    ensures forall def :: def in t.ruleSet <==> def in old(t.ruleSet) || def in t.ruleSetDefs.Values
    ensures KeysMatch(old(t.ruleSetDefs)) && old(t.ruleSet) == [] ==> DistinctDefs(t.ruleSet)
  {
    var tags := Proxies.ListTags(t.ruleSetDefs.Keys);
    ghost var defs := t.ruleSetDefs;
    var listed: seq<RuleSetDef> := [];
    for i := 0 to |tags|
      invariant t.ruleSet == old(t.ruleSet) && t.ruleSetDefs.Keys == defs.Keys && |listed| == i
      invariant forall k | 0 <= k < i :: t.ruleSetDefs[tags[k]] == listed[k] == WithDetour(defs[tags[k]])
      invariant forall k | i <= k < |tags| :: t.ruleSetDefs[tags[k]] == defs[tags[k]]
    {
      var def := t.ruleSetDefs[tags[i]];
      if def.detour.None? {
        def := def.(detour := Some("DIRECT"));
        t.ruleSetDefs := t.ruleSetDefs[tags[i] := def];
      }
      listed := listed + [def];
    }
    t.ruleSet := t.ruleSet + listed;
    AllListed(tags, t.ruleSetDefs, listed);
  }

  lemma AllListed(tags: seq<string>, defs: map<string, RuleSetDef>, listed: seq<RuleSetDef>)
    requires Proxies.Lists(tags, defs.Keys) && |listed| == |tags|
    requires forall k | 0 <= k < |tags| :: tags[k] in defs && listed[k] == defs[tags[k]]
    ensures forall def :: def in listed <==> def in defs.Values
  {
    forall def | def in defs.Values ensures def in listed {
      var tag :| tag in defs && defs[tag] == def;
      var k :| 0 <= k < |tags| && tags[k] == tag;
      assert listed[k] == def;
    }
  }

  method Assemble(t: Translation)
    modifies t`outbounds, t`rules, t`ruleSet, t`ruleSetDefs, t`final, t`dns
    ensures t.outbounds == [Direct("DIRECT")] + old(t.outbounds)
    ensures t.ruleSetDefs.Keys == old(t.ruleSetDefs).Keys
    ensures forall tag | tag in t.ruleSetDefs ::
      var def := old(t.ruleSetDefs)[tag];
      t.ruleSetDefs[tag] == RuleSetDef(def.tag, def.url, if def.detour.Some? then def.detour else Some("DIRECT"))
    ensures forall def :: def in t.ruleSet <==> def in old(t.ruleSet) || def in t.ruleSetDefs.Values
    ensures KeysMatch(old(t.ruleSetDefs)) && old(t.ruleSet) == [] ==> DistinctDefs(t.ruleSet)
    ensures t.rules == AssembledRules(old(t.rules), t.FirstGroupTag(), DefinedTags(t.ruleSetDefs))
    ensures t.final == FinalOutbound(old(t.final), t.FirstGroupTag())
    ensures t.dns == if old(t.dns).None? then None
      else Some(old(t.dns).value.(rules := PruneDnsRules(old(t.dns).value.rules, DefinedTags(t.ruleSetDefs))))
  {
    t.outbounds := [Direct("DIRECT")] + t.outbounds;
    ConvertRejectActions(t);
    AddRouteAction(t);
    AddClashModeCondition(t);
    assert t.rules == AllPrepared(old(t.rules));
    var defaultRules := [SNIFF, HIJACK_DNS];
    if t.FirstGroupTag() != "" {
      defaultRules := defaultRules + [CatchAll("Direct", "DIRECT"), CatchAll("Global", t.FirstGroupTag())];
    }
    t.rules := defaultRules + t.rules;
    assert t.rules == DefaultRules(t.FirstGroupTag()) + AllPrepared(old(t.rules));
    if t.final == "" {
      if t.FirstGroupTag() != "" {
        t.final := t.FirstGroupTag();
      } else {
        t.final := "DIRECT";
      }
    }
    ListRuleSets(t);
    RemoveOrphanRuleSetRules(t);
  }
}
