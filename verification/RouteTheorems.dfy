// First-match reading of the assembled route table.
module RouteTheorems {
  import opened Wrappers
  import opened TranslationState
  import opened RouteTable
  import opened Routes
  import opened Assemble

  // A rule-set without definition holds of nothing.
  ghost predicate Respects(env: Env, defined: set<string>) {
    forall tag, flow | tag !in defined :: !env.inSet(tag, flow)
  }

  // ---------------------------------------------------------------------
  // Dropping what refers to undefined rule-sets
  // ---------------------------------------------------------------------

  lemma PrunedHolds(env: Env, c: Cond, defined: set<string>, flow: Flow)
    requires Respects(env, defined)
    ensures Orphan(c, defined) ==> !Holds(env, c, flow)
    ensures !Orphan(c, defined) ==> Holds(env, Pruned(c, defined), flow) == Holds(env, c, flow)
  {
    KeepMembers(c.ruleSets, defined);
    assert SomeSet(env, c.ruleSets, flow) == SomeSet(env, Keep(c.ruleSets, defined), flow);
  }

  lemma {:induction false} PruneSubsMembers(subs: seq<Cond>, defined: set<string>)
    ensures forall c | c in subs && !Orphan(c, defined) :: Pruned(c, defined) in PruneSubs(subs, defined)
    ensures forall p | p in PruneSubs(subs, defined) ::
      exists c | c in subs :: !Orphan(c, defined) && p == Pruned(c, defined)
  {
    if subs != [] {
      PruneSubsMembers(subs[1..], defined);
      var rest := PruneSubs(subs[1..], defined);
      assert PruneSubs(subs, defined) == (if Orphan(subs[0], defined) then [] else [Pruned(subs[0], defined)]) + rest;
      assert forall c :: c in subs <==> c == subs[0] || c in subs[1..];
    }
  }

  // A condition that some flow of Rule mode, other than a DNS query, can meet.
  predicate CanHold(c: Cond) {
    (c.clashMode == None || c.clashMode == Some("Rule")) && c.test != DnsProtocol
  }

  // An and-rule that loses a condition nothing meets while the others can be met:
  // dropping the condition widens the rule.
  predicate Broadens(r: RouteRule, defined: set<string>) {
    && r.Logical? && r.mode == "and"
    && (exists c | c in r.subs :: Orphan(c, defined))
    && (forall c | c in r.subs :: Orphan(c, defined) || CanHold(c))
  }

  lemma PrunedAnd(env: Env, subs: seq<Cond>, defined: set<string>, flow: Flow)
    requires Respects(env, defined)
    ensures AllHold(env, PruneSubs(subs, defined), flow)
      <==> forall c | c in subs && !Orphan(c, defined) :: Holds(env, c, flow)
  {
    PruneSubsMembers(subs, defined);
    forall c | c in subs ensures !Orphan(c, defined) ==>
      Holds(env, Pruned(c, defined), flow) == Holds(env, c, flow)
    {
      PrunedHolds(env, c, defined, flow);
    }
  }

  lemma PrunedOr(env: Env, subs: seq<Cond>, defined: set<string>, flow: Flow)
    requires Respects(env, defined)
    ensures AnyHolds(env, PruneSubs(subs, defined), flow) == AnyHolds(env, subs, flow)
  {
    PruneSubsMembers(subs, defined);
    forall c | c in subs
      ensures Orphan(c, defined) ==> !Holds(env, c, flow)
      ensures !Orphan(c, defined) ==> Holds(env, Pruned(c, defined), flow) == Holds(env, c, flow)
    {
      PrunedHolds(env, c, defined, flow);
    }
    if AnyHolds(env, subs, flow) {
      var c :| c in subs && Holds(env, c, flow);
      assert Pruned(c, defined) in PruneSubs(subs, defined);
    }
  }

  lemma CannotHold(env: Env, c: Cond, flow: Flow)
    requires !CanHold(c) && flow.mode == "Rule" && !flow.dns
    ensures !Holds(env, c, flow)
  {
  }

  // Pruning keeps what a rule matches unless it broadens the rule.
  lemma PruneKeepsRule(env: Env, rejects: set<string>, r: RouteRule, defined: set<string>, flow: Flow)
    requires Respects(env, defined) && !Broadens(r, defined) && flow.mode == "Rule" && !flow.dns
    ensures
      match PruneRule(r, defined)
      case None => !Matches(env, r, flow)
      case Some(r') => Matches(env, r', flow) == Matches(env, r, flow) && Read(rejects, r') == Read(rejects, r)
  {
    match r
    case Plain(cond, _, _) => PrunedHolds(env, cond, defined, flow);
    case Logical(mode, subs, _, _) =>
      if mode == "and" {
        PrunedAnd(env, subs, defined, flow);
        if c :| c in subs && Orphan(c, defined) {
          PrunedHolds(env, c, defined, flow);
          var d :| d in subs && !Orphan(d, defined) && !CanHold(d);
          CannotHold(env, d, flow);
        }
      } else {
        PrunedOr(env, subs, defined, flow);
      }
  }

  // And a rule that broadens does so: there are rule-set contents and a flow that
  // the rule does not match but the pruned rule does.
  lemma PruneBroadens(r: RouteRule, defined: set<string>) returns (env: Env, flow: Flow)
    requires Broadens(r, defined)
    ensures Respects(env, defined) && flow.mode == "Rule" && !flow.dns
    ensures PruneRule(r, defined).Some? && Matches(env, PruneRule(r, defined).value, flow) && !Matches(env, r, flow)
  {
    env := Env((tag, f) => tag in defined, (test, f) => true);
    flow := Flow("Rule", false, 0);
    PrunedAnd(env, r.subs, defined, flow);
    forall c | c in r.subs && !Orphan(c, defined) ensures Holds(env, c, flow) {
      KeepMembers(c.ruleSets, defined);
      if c.ruleSets != [] {
        var tag := Keep(c.ruleSets, defined)[0];
        assert tag in c.ruleSets && env.inSet(tag, flow);
      }
    }
    var c :| c in r.subs && Orphan(c, defined);
    PrunedHolds(env, c, defined, flow);
  }

  // ---------------------------------------------------------------------
  // Rule mode
  // ---------------------------------------------------------------------

  lemma PreparedMeansSame(env: Env, r: RouteRule, flow: Flow)
    requires flow.mode == "Rule"
    ensures Matches(env, Prepared(r), flow) == Matches(env, r, flow)
    ensures Read(NO_REJECTS, Prepared(r)) == Read(INPUT_REJECTS, r)
  {
    var r' := AddAction(ConvertReject(r));
    if r'.Logical? && r'.mode == "and" {
      assert Holds(env, RULE_MODE, flow);
      assert forall c :: c in r'.subs + [RULE_MODE] <==> c in r'.subs || c == RULE_MODE;
    }
  }

  lemma PreparedBroadens(r: RouteRule, defined: set<string>)
    ensures Broadens(Prepared(r), defined) == Broadens(r, defined)
  {
    var r' := AddAction(ConvertReject(r));
    if r'.Logical? && r'.mode == "and" {
      assert !Orphan(RULE_MODE, defined) && CanHold(RULE_MODE);
      assert forall c :: c in r'.subs + [RULE_MODE] <==> c in r'.subs || c == RULE_MODE;
    }
  }

  lemma {:induction false} PruneKeepsTable(env: Env, rules: seq<RouteRule>, defined: set<string>, flow: Flow)
    requires Respects(env, defined) && flow.mode == "Rule" && !flow.dns
    requires forall r | r in rules :: !Broadens(r, defined)
    ensures Choose(env, NO_REJECTS, PruneRules(rules, defined), flow) == Choose(env, NO_REJECTS, rules, flow)
  {
    if rules != [] {
      assert rules[0] in rules && forall r | r in rules[1..] :: r in rules;
      PruneKeepsRule(env, NO_REJECTS, rules[0], defined, flow);
      PruneKeepsTable(env, rules[1..], defined, flow);
      var rest := PruneRules(rules[1..], defined);
      match PruneRule(rules[0], defined) {
        case None => assert PruneRules(rules, defined) == rest;
        case Some(r) => assert PruneRules(rules, defined)[0] == r && PruneRules(rules, defined)[1..] == rest;
      }
    }
  }

  lemma {:induction false} PreparedTable(env: Env, rules: seq<RouteRule>, flow: Flow)
    requires flow.mode == "Rule"
    ensures Choose(env, NO_REJECTS, AllPrepared(rules), flow) == Choose(env, INPUT_REJECTS, rules, flow)
  {
    if rules != [] {
      PreparedMeansSame(env, rules[0], flow);
      PreparedTable(env, rules[1..], flow);
      assert AllPrepared(rules)[1..] == AllPrepared(rules[1..]);
    }
  }

  lemma {:induction false} SkipRules(env: Env, pre: seq<RouteRule>, rest: seq<RouteRule>, flow: Flow)
    requires forall r | r in pre :: !Decides(env, NO_REJECTS, r, flow)
    ensures Choose(env, NO_REJECTS, pre + rest, flow) == Choose(env, NO_REJECTS, rest, flow)
  {
    if pre == [] {
      assert pre + rest == rest;
    } else {
      assert (pre + rest)[0] == pre[0] && (pre + rest)[1..] == pre[1..] + rest && pre[0] in pre;
      SkipRules(env, pre[1..], rest, flow);
    }
  }

  lemma DefaultRulesPass(env: Env, firstGroup: string, flow: Flow)
    requires !flow.dns && (flow.mode == "Rule" || firstGroup == "")
    ensures forall r | r in DefaultRules(firstGroup) :: !Decides(env, NO_REJECTS, r, flow)
  {
  }

  // In Rule mode every flow that is not a DNS query gets the decision that first
  // match on the rules before assembling gives, REJECT read as reject.
  lemma RuleModeRefines(
    env: Env, rules: seq<RouteRule>, firstGroup: string, defined: set<string>, flow: Flow)
    requires Respects(env, defined) && flow.mode == "Rule" && !flow.dns
    requires forall r | r in rules :: !Broadens(r, defined)
    ensures Choose(env, NO_REJECTS, AssembledRules(rules, firstGroup, defined), flow)
         == Choose(env, INPUT_REJECTS, rules, flow)
  {
    var all := DefaultRules(firstGroup) + AllPrepared(rules);
    forall r | r in all ensures !Broadens(r, defined) {
      if r in AllPrepared(rules) {
        var i :| 0 <= i < |rules| && r == AllPrepared(rules)[i];
        PreparedBroadens(rules[i], defined);
      }
    }
    PruneKeepsTable(env, all, defined, flow);
    DefaultRulesPass(env, firstGroup, flow);
    SkipRules(env, DefaultRules(firstGroup), AllPrepared(rules), flow);
    PreparedTable(env, rules, flow);
  }

  // ---------------------------------------------------------------------
  // The other modes
  // ---------------------------------------------------------------------

  // The default rules come through unchanged.
  lemma DefaultRulesStay(firstGroup: string, rest: seq<RouteRule>, defined: set<string>)
    ensures PruneRules(DefaultRules(firstGroup) + rest, defined) == DefaultRules(firstGroup) + PruneRules(rest, defined)
  {
    var pre := DefaultRules(firstGroup);
    forall r | r in pre ensures PruneRule(r, defined) == Some(r) {
      assert Pruned(r.cond, defined) == r.cond;
    }
    PruneJoin(pre, rest, defined);
  }

  lemma {:induction false} PruneJoin(pre: seq<RouteRule>, rest: seq<RouteRule>, defined: set<string>)
    requires forall r | r in pre :: PruneRule(r, defined) == Some(r)
    ensures PruneRules(pre + rest, defined) == pre + PruneRules(rest, defined)
  {
    if pre == [] {
      assert pre + rest == rest;
    } else {
      assert (pre + rest)[0] == pre[0] && (pre + rest)[1..] == pre[1..] + rest && pre[0] in pre;
      PruneJoin(pre[1..], rest, defined);
    }
  }

  // DNS queries are hijacked in every mode.
  lemma DnsIsHijacked(env: Env, rules: seq<RouteRule>, firstGroup: string, defined: set<string>, flow: Flow)
    requires flow.dns
    ensures Choose(env, NO_REJECTS, AssembledRules(rules, firstGroup, defined), flow) == Some(Act("hijack-dns"))
  {
    DefaultRulesStay(firstGroup, AllPrepared(rules), defined);
    var table := AssembledRules(rules, firstGroup, defined);
    assert table[0] == SNIFF && table[1..][0] == HIJACK_DNS;
    assert Choose(env, NO_REJECTS, table, flow) == Choose(env, NO_REJECTS, table[1..], flow);
  }

  // Rules that send to an outbound and have no mode of their own yet.
  predicate SendsTo(rules: seq<RouteRule>, outbounds: set<string>) {
    forall r | r in rules ::
      r.Plain? && r.outbound.Some? && r.outbound.value in outbounds && r.action == None && r.cond.clashMode == None
  }

  lemma {:induction false} AccessRulesSend(names: seq<string>)
    ensures SendsTo(AccessRules(names), {"DIRECT"})
  {
    if names != [] {
      AccessRulesSend(names[1..]);
      assert AccessRules(names) == [SetRule("geosite-" + names[0], "DIRECT")] + AccessRules(names[1..]);
    }
  }

  lemma SendsJoin(a: seq<RouteRule>, b: seq<RouteRule>, outbounds: set<string>)
    requires SendsTo(a, outbounds) && SendsTo(b, outbounds)
    ensures SendsTo(a + b, outbounds)
  {
  }

  lemma CnSends(proxy: string)
    ensures SendsTo(CnRoutes(proxy), {"DIRECT", proxy})
  {
    AccessRulesSend(ACCESS_POINTS);
    SendsJoin([SetRule("overseas-ai", proxy)], AccessRules(ACCESS_POINTS), {"DIRECT", proxy});
    SendsJoin([SetRule("overseas-ai", proxy)] + AccessRules(ACCESS_POINTS), GeoRules(proxy), {"DIRECT", proxy});
  }

  lemma GeneratedSends(cc: string, proxy: string)
    ensures SendsTo(GeneratedRoutes(cc, proxy), {"DIRECT", proxy})
  {
    if cc == "cn" {
      CnSends(proxy);
      SendsJoin(PRIVATE_RULES, CnRoutes(proxy), {"DIRECT", proxy});
    } else {
      SendsJoin(PRIVATE_RULES, CountryRoutes(cc), {"DIRECT", proxy});
    }
  }

  lemma PreparedNeedRuleMode(rules: seq<RouteRule>)
    requires SendsTo(rules, {"DIRECT"})
    ensures forall r | r in AllPrepared(rules) :: r.Plain? && r.cond.clashMode == Some("Rule")
  {
    forall r | r in AllPrepared(rules) ensures r.Plain? && r.cond.clashMode == Some("Rule") {
      var i :| 0 <= i < |rules| && r == AllPrepared(rules)[i];
      assert rules[i] in rules;
    }
  }

  lemma {:induction false} NoneInOtherModes(env: Env, rules: seq<RouteRule>, defined: set<string>, flow: Flow)
    requires forall r | r in rules :: r.Plain? && r.cond.clashMode == Some("Rule")
    requires flow.mode != "Rule"
    ensures Choose(env, NO_REJECTS, PruneRules(rules, defined), flow) == None
  {
    if rules != [] {
      assert rules[0] in rules && forall r | r in rules[1..] :: r in rules;
      NoneInOtherModes(env, rules[1..], defined, flow);
      var rest := PruneRules(rules[1..], defined);
      match PruneRule(rules[0], defined) {
        case None => assert PruneRules(rules, defined) == rest;
        case Some(r) => assert PruneRules(rules, defined)[0] == r && PruneRules(rules, defined)[1..] == rest;
      }
    }
  }

  // The assembled form of the generated rules, and where it sends a flow.
  function GeneratedRoute(env: Env, cc: string, firstGroup: string, defined: set<string>, flow: Flow): Verdict {
    Route(env, AssembledRules(GeneratedRoutes(cc, ProxyTag(firstGroup)), firstGroup, defined),
      FinalOutbound("", firstGroup), flow)
  }

  lemma CatchAllChooses(env: Env, firstGroup: string, rest: seq<RouteRule>, flow: Flow)
    requires firstGroup != "" && !flow.dns && (flow.mode == "Direct" || flow.mode == "Global")
    ensures Choose(env, NO_REJECTS, DefaultRules(firstGroup) + rest, flow)
         == Some(To(if flow.mode == "Direct" then "DIRECT" else firstGroup))
  {
    var catch := [CatchAll("Direct", "DIRECT"), CatchAll("Global", firstGroup)];
    assert DefaultRules(firstGroup) + rest == [SNIFF, HIJACK_DNS] + (catch + rest);
    SkipRules(env, [SNIFF, HIJACK_DNS], catch + rest, flow);
    assert (catch + rest)[0] == catch[0] && (catch + rest)[1..][0] == catch[1];
  }

  // In Direct mode every flow goes direct; in Global mode to the first group, or
  // direct if there is no group.
  lemma OtherModesIgnoreRules(env: Env, cc: string, firstGroup: string, defined: set<string>, flow: Flow)
    requires !flow.dns && (flow.mode == "Direct" || flow.mode == "Global")
    ensures GeneratedRoute(env, cc, firstGroup, defined, flow)
         == To(if flow.mode == "Global" && firstGroup != "" then firstGroup else "DIRECT")
  {
    var rules := GeneratedRoutes(cc, ProxyTag(firstGroup));
    DefaultRulesStay(firstGroup, AllPrepared(rules), defined);
    var pre, rest := DefaultRules(firstGroup), PruneRules(AllPrepared(rules), defined);
    if firstGroup == "" {
      DefaultRulesPass(env, firstGroup, flow);
      SkipRules(env, pre, rest, flow);
      GeneratedSends(cc, "DIRECT");
      PreparedNeedRuleMode(rules);
      NoneInOtherModes(env, AllPrepared(rules), defined, flow);
    } else {
      CatchAllChooses(env, firstGroup, rest, flow);
    }
  }

  // ---------------------------------------------------------------------
  // What the generated rules say
  // ---------------------------------------------------------------------

  predicate InSet(env: Env, tag: string, flow: Flow) {
    env.inSet(tag, flow)
  }

  predicate Private(env: Env, flow: Flow) {
    env.holds(PrivateIp, flow) || InSet(env, "geosite-private", flow)
  }

  // Services abroad.
  predicate Abroad(env: Env, flow: Flow) {
    && !Private(env, flow)
    && (|| InSet(env, "overseas-ai", flow)
        || (InSet(env, "geosite-geolocation-!cn", flow)
            && !exists name | name in ACCESS_POINTS :: InSet(env, "geosite-" + name, flow)))
  }

  predicate LocalCn(env: Env, flow: Flow) {
    || Private(env, flow)
    || (&& !InSet(env, "overseas-ai", flow)
        && (|| (exists name | name in ACCESS_POINTS :: InSet(env, "geosite-" + name, flow))
            || (&& !InSet(env, "geosite-geolocation-!cn", flow)
                && (InSet(env, "geosite-cn", flow) || InSet(env, "geoip-cn", flow)
                    || env.holds(DomainSuffix([".cn"]), flow)))))
  }

  predicate LocalElsewhere(env: Env, cc: string, flow: Flow) {
    || Private(env, flow) || InSet(env, "geoip-" + cc, flow)
    || (cc !in GENERIC_CCTLDS && env.holds(DomainSuffix(["." + cc]), flow))
  }

  lemma SetRuleDecides(env: Env, tag: string, outbound: string, flow: Flow)
    ensures Decides(env, INPUT_REJECTS, SetRule(tag, outbound), flow) == InSet(env, tag, flow)
    ensures Read(INPUT_REJECTS, SetRule(tag, outbound)) == if outbound == "REJECT" then Act("reject") else To(outbound)
  {
    assert [tag][0] == tag;
    assert SomeSet(env, [tag], flow) == env.inSet(tag, flow);
  }

  lemma Step(env: Env, r: RouteRule, rest: seq<RouteRule>, flow: Flow)
    ensures Choose(env, INPUT_REJECTS, [r] + rest, flow)
         == if Decides(env, INPUT_REJECTS, r, flow) then Some(Read(INPUT_REJECTS, r))
            else Choose(env, INPUT_REJECTS, rest, flow)
  {
    assert ([r] + rest)[1..] == rest;
  }

  lemma {:induction false} AccessChooses(env: Env, names: seq<string>, rest: seq<RouteRule>, flow: Flow)
    ensures Choose(env, INPUT_REJECTS, AccessRules(names) + rest, flow)
         == if exists name | name in names :: InSet(env, "geosite-" + name, flow) then Some(To("DIRECT"))
            else Choose(env, INPUT_REJECTS, rest, flow)
  {
    if names == [] {
      assert AccessRules(names) + rest == rest;
    } else {
      var first := SetRule("geosite-" + names[0], "DIRECT");
      assert AccessRules(names) + rest == [first] + (AccessRules(names[1..]) + rest);
      Step(env, first, AccessRules(names[1..]) + rest, flow);
      SetRuleDecides(env, "geosite-" + names[0], "DIRECT", flow);
      AccessChooses(env, names[1..], rest, flow);
      assert forall name :: name in names <==> name == names[0] || name in names[1..];
    }
  }

  lemma SuffixChooses(env: Env, suffix: string, flow: Flow)
    ensures Choose(env, INPUT_REJECTS, [TestRule(DomainSuffix([suffix]), "DIRECT")], flow)
         == if env.holds(DomainSuffix([suffix]), flow) then Some(To("DIRECT")) else None
  {
    var r := TestRule(DomainSuffix([suffix]), "DIRECT");
    Step(env, r, [], flow);
    assert [r] + [] == [r];
  }

  lemma GeoChooses(env: Env, proxy: string, flow: Flow)
    ensures Choose(env, INPUT_REJECTS, GeoRules(proxy), flow)
         == if InSet(env, "geosite-geolocation-!cn", flow) then
              Some(if proxy == "REJECT" then Act("reject") else To(proxy))
            else if InSet(env, "geosite-cn", flow) || InSet(env, "geoip-cn", flow)
                    || env.holds(DomainSuffix([".cn"]), flow) then Some(To("DIRECT"))
            else None
  {
    var rules := GeoRules(proxy);
    assert rules == [rules[0]] + ([rules[1]] + ([rules[2]] + [rules[3]]));
    Step(env, rules[0], [rules[1]] + ([rules[2]] + [rules[3]]), flow);
    Step(env, rules[1], [rules[2]] + [rules[3]], flow);
    Step(env, rules[2], [rules[3]], flow);
    SetRuleDecides(env, "geosite-geolocation-!cn", proxy, flow);
    SetRuleDecides(env, "geosite-cn", "DIRECT", flow);
    SetRuleDecides(env, "geoip-cn", "DIRECT", flow);
    SuffixChooses(env, ".cn", flow);
  }

  lemma PrivateFirst(env: Env, rest: seq<RouteRule>, flow: Flow)
    ensures
      Choose(env, INPUT_REJECTS, PRIVATE_RULES + rest, flow)
      == if Private(env, flow) then Some(To("DIRECT")) else Choose(env, INPUT_REJECTS, rest, flow)
  {
    var privateIp, site := TestRule(PrivateIp, "DIRECT"), SetRule("geosite-private", "DIRECT");
    assert PRIVATE_RULES + rest == [privateIp] + ([site] + rest);
    Step(env, privateIp, [site] + rest, flow);
    Step(env, site, rest, flow);
    SetRuleDecides(env, "geosite-private", "DIRECT", flow);
  }

  lemma CnChooses(env: Env, proxy: string, flow: Flow)
    ensures Choose(env, INPUT_REJECTS, GeneratedRoutes("cn", proxy), flow)
         == if LocalCn(env, flow) then Some(To("DIRECT"))
            else if Abroad(env, flow) then Some(if proxy == "REJECT" then Act("reject") else To(proxy))
            else None
  {
    var ai := SetRule("overseas-ai", proxy);
    PrivateFirst(env, CnRoutes(proxy), flow);
    assert CnRoutes(proxy) == [ai] + (AccessRules(ACCESS_POINTS) + GeoRules(proxy));
    Step(env, ai, AccessRules(ACCESS_POINTS) + GeoRules(proxy), flow);
    SetRuleDecides(env, "overseas-ai", proxy, flow);
    AccessChooses(env, ACCESS_POINTS, GeoRules(proxy), flow);
    GeoChooses(env, proxy, flow);
  }

  lemma CountryChooses(env: Env, cc: string, proxy: string, flow: Flow)
    requires cc != "cn"
    ensures Choose(env, INPUT_REJECTS, GeneratedRoutes(cc, proxy), flow)
         == if LocalElsewhere(env, cc, flow) then Some(To("DIRECT")) else None
  {
    PrivateFirst(env, CountryRoutes(cc), flow);
    var suffix := if cc in GENERIC_CCTLDS then [] else [TestRule(DomainSuffix(["." + cc]), "DIRECT")];
    Step(env, SetRule("geoip-" + cc, "DIRECT"), suffix, flow);
    SetRuleDecides(env, "geoip-" + cc, "DIRECT", flow);
    SuffixChooses(env, "." + cc, flow);
  }

  // In Rule mode local traffic goes direct and everything else to the first group,
  // or direct if there is none. There is one exception: if the first group is called
  // REJECT, the flows that a rule sends to it are rejected.
  lemma RuleModeSplitsTraffic(env: Env, cc: string, firstGroup: string, defined: set<string>, flow: Flow)
    requires Respects(env, defined) && flow.mode == "Rule" && !flow.dns
    ensures
      GeneratedRoute(env, cc, firstGroup, defined, flow)
      == if (if cc == "cn" then LocalCn(env, flow) else LocalElsewhere(env, cc, flow)) then To("DIRECT")
         else if firstGroup == "REJECT" && cc == "cn" && Abroad(env, flow) then Act("reject")
         else To(if firstGroup == "" then "DIRECT" else firstGroup)
  {
    var rules := GeneratedRoutes(cc, ProxyTag(firstGroup));
    GeneratedSends(cc, ProxyTag(firstGroup));
    RuleModeRefines(env, rules, firstGroup, defined, flow);
    if cc == "cn" {
      CnChooses(env, ProxyTag(firstGroup), flow);
    } else {
      CountryChooses(env, cc, ProxyTag(firstGroup), flow);
    }
  }

  // Elsewhere the domain of the country goes direct, unless it is one that is used all
  // over the world.
  lemma CountryDomain(env: Env, cc: string, firstGroup: string, defined: set<string>, flow: Flow)
    requires Respects(env, defined) && flow.mode == "Rule" && !flow.dns && cc != "cn"
    requires forall tag :: !env.inSet(tag, flow)
    requires !env.holds(PrivateIp, flow) && env.holds(DomainSuffix(["." + cc]), flow)
    ensures
      var worldwide := cc in {"io", "tv", "ai", "me", "cc", "sh", "gg", "je", "fm", "am",
                              "la", "ly", "to", "co", "ws", "tk", "cf", "ga", "gq", "ml"};
      GeneratedRoute(env, cc, firstGroup, defined, flow)
      == To(if worldwide && firstGroup != "" then firstGroup else "DIRECT")
  {
    RuleModeSplitsTraffic(env, cc, firstGroup, defined, flow);
  }

  const ONLY_AI := Env((tag, flow) => tag == "overseas-ai", (test, flow) => false)

  // A flow to a service abroad, with a first group called REJECT.
  lemma GroupCalledReject()
    ensures GeneratedRoute(ONLY_AI, "cn", "REJECT", {"overseas-ai"}, Flow("Rule", false, 0)) == Act("reject")
  {
    var flow := Flow("Rule", false, 0);
    assert InSet(ONLY_AI, "overseas-ai", flow) && !InSet(ONLY_AI, "geosite-private", flow);
    assert Abroad(ONLY_AI, flow) && !LocalCn(ONLY_AI, flow);
    RuleModeSplitsTraffic(ONLY_AI, "cn", "REJECT", {"overseas-ai"}, flow);
  }

  // Every configuration starts by sniffing, then hijacks DNS, and no rule-set that is
  // not defined changes that.
  lemma SniffFirst(rules: seq<RouteRule>, firstGroup: string, defined: set<string>)
    ensures
      var out := AssembledRules(rules, firstGroup, defined);
      && |out| >= 2
      && out[0] == Plain(Cond(None, [], Anything), None, Some("sniff"))
      && out[1] == Plain(Cond(None, [], DnsProtocol), None, Some("hijack-dns"))
  {
    var all := DefaultRules(firstGroup) + AllPrepared(rules);
    assert all[0] == SNIFF && all[1..][0] == HIJACK_DNS;
    assert PruneRules(all, defined) == [SNIFF] + PruneRules(all[1..], defined);
    assert PruneRules(all[1..], defined) == [HIJACK_DNS] + PruneRules(all[1..][1..], defined);
  }
}
