// Upgrading the DNS rules of a saved profile from address filters to evaluate
// and match_response.
module Migrate {
  import opened Wrappers
  import opened DnsTable

  // A rule-set definition: not an object, or an object with its tag and url.
  datatype SetDef = NotADef | Def(tag: string, url: string)

  datatype Root = Root(dnsRules: Option<seq<Rule>>, ruleSets: Option<seq<SetDef>>, rest: int)

  // isIPOnlyRuleSetDef, for definitions that have a tag
  predicate IpOnlyDef(d: SetDef) {
    && d.Def? && d.tag != ""
    && (Contains(d.url, "sing-geoip/rule-set/") || HasPrefix(d.tag, "geoip-"))
  }

  function IpOnlyTags(defs: seq<SetDef>): set<string> {
    set d | d in defs && IpOnlyDef(d) :: d.tag
  }

  method CollectIPOnlyRuleSets(defs: seq<SetDef>) returns (tags: set<string>)
    ensures tags == IpOnlyTags(defs)
  {
    tags := {};
    for i := 0 to |defs|
      invariant tags == IpOnlyTags(defs[..i])
    {
      assert defs[..i + 1] == defs[..i] + [defs[i]];
      if IpOnlyDef(defs[i]) {
        tags := tags + {defs[i].tag};
      }
    }
    assert defs[..|defs|] == defs;
  }

  predicate Upgradable(r: Rule, ipOnly: set<string>) {
    AddressFilter(r, ipOnly) && r.server != ""
  }

  function Evaluate(server: string): Rule {
    Rule("", "evaluate", server, Unset, NoSets, Some(ADDRESS_QUERY_TYPES), ANYTHING)
  }

  function Marked(r: Rule): Rule
    requires r.Rule?
  {
    r.(matchResponse := Flag(true),
       queryType := if r.queryType.Some? then r.queryType else Some(ADDRESS_QUERY_TYPES))
  }

  // dnsRuleHasPrecedingEvaluate
  predicate EndsWithEvaluate(rules: seq<Rule>, server: string) {
    && rules != [] && rules[|rules| - 1].Rule?
    && rules[|rules| - 1].action == "evaluate" && rules[|rules| - 1].server == server
  }

  // The rules after `done` has been rewritten and `rest` is still to do.
  function Upgraded(ipOnly: set<string>, done: seq<Rule>, rest: seq<Rule>): seq<Rule>
    decreases |rest|
  {
    if rest == [] then done
    else Upgraded(ipOnly, UpgradeOne(ipOnly, done, rest[0]), rest[1..])
  }

  function UpgradeOne(ipOnly: set<string>, done: seq<Rule>, r: Rule): seq<Rule> {
    if !Upgradable(r, ipOnly) then done + [r]
    else if EndsWithEvaluate(done, r.server) then done + [Marked(r)]
    else done + [Evaluate(r.server), Marked(r)]
  }

  predicate SomeUpgradable(rules: seq<Rule>, ipOnly: set<string>) {
    exists r | r in rules :: Upgradable(r, ipOnly)
  }

  predicate NeedsUpgrade(root: Root) {
    && root.dnsRules.Some? && root.ruleSets.Some?
    && SomeUpgradable(root.dnsRules.value, IpOnlyTags(root.ruleSets.value))
  }

  lemma UpgradedStep(ipOnly: set<string>, done: seq<Rule>, rules: seq<Rule>, i: int)
    requires 0 <= i < |rules|
    ensures Upgraded(ipOnly, done, rules[i..])
         == Upgraded(ipOnly, UpgradeOne(ipOnly, done, rules[i]), rules[i + 1..])
    ensures SomeUpgradable(rules[..i + 1], ipOnly)
      <==> Upgradable(rules[i], ipOnly) || SomeUpgradable(rules[..i], ipOnly)
  {
    assert rules[i..][0] == rules[i] && rules[i..][1..] == rules[i + 1..];
    assert rules[..i + 1] == rules[..i] + [rules[i]];
  }

  method UpgradeLegacyDNSRules(root: Root) returns (out: Root, changed: bool)
    ensures changed == NeedsUpgrade(root)
    ensures !changed ==> out == root
    ensures changed ==>
      out == root.(dnsRules := Some(Upgraded(IpOnlyTags(root.ruleSets.value), [], root.dnsRules.value)))
  {
    out, changed := root, false;
    if root.dnsRules == None || root.dnsRules.value == [] || root.ruleSets == None {
      return;
    }
    var rules := root.dnsRules.value;
    var ipOnly := CollectIPOnlyRuleSets(root.ruleSets.value);
    if ipOnly == {} {
      return;
    }
    var upgraded: seq<Rule> := [];
    for i := 0 to |rules|
      invariant Upgraded(ipOnly, upgraded, rules[i..]) == Upgraded(ipOnly, [], rules)
      invariant changed <==> SomeUpgradable(rules[..i], ipOnly)
    {
      var rule := rules[i];
      ghost var done := upgraded;
      UpgradedStep(ipOnly, done, rules, i);
      if !rule.Rule? {
        upgraded := upgraded + [rule];
      } else if !AddressFilter(rule, ipOnly) {
        upgraded := upgraded + [rule];
      } else if rule.server == "" {
        upgraded := upgraded + [rule];
      } else {
        if !EndsWithEvaluate(upgraded, rule.server) {
          upgraded := upgraded + [Evaluate(rule.server)];
        }
        upgraded := upgraded + [Marked(rule)];
        changed := true;
      }
      assert upgraded == UpgradeOne(ipOnly, done, rule);
    }
    assert rules[..|rules|] == rules;
    if changed {
      out := root.(dnsRules := Some(upgraded));
    }
  }

  // ---------------------------------------------------------------------
  // Legacy tables
  // ---------------------------------------------------------------------

  // A table as versions before evaluate wrote it.
  predicate Legacy(rules: seq<Rule>) {
    forall r | r in rules && r.Rule? :: r.action != "evaluate" && !Enabled(r.matchResponse)
  }

  predicate IsEvaluate(r: Rule) {
    r.Rule? && r.action == "evaluate"
  }

  // In a legacy table every upgraded rule gets an evaluate of its own.
  function Pieces(ipOnly: set<string>, rules: seq<Rule>): seq<Rule> {
    if rules == [] then []
    else UpgradeOne(ipOnly, [], rules[0]) + Pieces(ipOnly, rules[1..])
  }

  predicate EndsInEvaluate(rules: seq<Rule>) {
    rules != [] && IsEvaluate(rules[|rules| - 1])
  }

  lemma UpgradeOneAppends(ipOnly: set<string>, done: seq<Rule>, r: Rule)
    requires !EndsInEvaluate(done) && (r.Rule? ==> r.action != "evaluate")
    ensures UpgradeOne(ipOnly, done, r) == done + UpgradeOne(ipOnly, [], r)
    ensures !EndsInEvaluate(UpgradeOne(ipOnly, done, r))
  {
  }

  lemma JoinThree(a: seq<Rule>, b: seq<Rule>, c: seq<Rule>)
    ensures a + b + c == a + (b + c)
  {
  }

  lemma {:induction false} UpgradedPieces(ipOnly: set<string>, done: seq<Rule>, rest: seq<Rule>)
    requires Legacy(rest) && !EndsInEvaluate(done)
    ensures Upgraded(ipOnly, done, rest) == done + Pieces(ipOnly, rest)
    decreases |rest|
  {
    if rest == [] {
    } else {
      assert rest[0] in rest && forall r | r in rest[1..] :: r in rest;
      UpgradeOneAppends(ipOnly, done, rest[0]);
      UpgradedPieces(ipOnly, UpgradeOne(ipOnly, done, rest[0]), rest[1..]);
      JoinThree(done, UpgradeOne(ipOnly, [], rest[0]), Pieces(ipOnly, rest[1..]));
    }
  }

  // ---------------------------------------------------------------------
  // Form
  // ---------------------------------------------------------------------

  // Where each of the rules still to do ends up.
  function Positions(ipOnly: set<string>, done: seq<Rule>, rest: seq<Rule>): seq<nat>
    decreases |rest|
  {
    if rest == [] then []
    else
      var done' := UpgradeOne(ipOnly, done, rest[0]);
      [|done'| - 1] + Positions(ipOnly, done', rest[1..])
  }

  // A rule of the upgraded table is an original rule, unchanged or with only
  // match_response and query_type set, or it is an evaluate rule inserted for the
  // rule right after it.
  predicate Rewritten(r: Rule, r': Rule, ipOnly: set<string>) {
    if !Upgradable(r, ipOnly) then r' == r
    else
      && r'.Rule? && r'.matchResponse == Flag(true)
      && r'.queryType == Some(if r.queryType.Some? then r.queryType.value else ["A", "AAAA", "HTTPS"])
      && r'.(matchResponse := r.matchResponse, queryType := r.queryType) == r
  }

  predicate InsertedFor(up: seq<Rule>, k: int) {
    && 0 <= k < |up| - 1 && up[k].Rule? && up[k + 1].Rule?
    && up[k].action == "evaluate" && up[k].server == up[k + 1].server
    && up[k].ruleSets == NoSets && up[k].cond == ANYTHING
    && up[k].queryType == Some(["A", "AAAA", "HTTPS"])
  }

  lemma {:induction false} UpgradeExtends(ipOnly: set<string>, done: seq<Rule>, rest: seq<Rule>)
    ensures
      var up, pos := Upgraded(ipOnly, done, rest), Positions(ipOnly, done, rest);
      && done <= up && |pos| == |rest|
      && (forall i | 0 <= i < |pos| :: |done| <= pos[i] < |up|)
      && (forall i, j | 0 <= i < j < |pos| :: pos[i] < pos[j])
    decreases |rest|
  {
    if rest == [] {
    } else {
      UpgradeExtends(ipOnly, UpgradeOne(ipOnly, done, rest[0]), rest[1..]);
    }
  }

  lemma {:induction false} UpgradeRewrites(ipOnly: set<string>, done: seq<Rule>, rest: seq<Rule>, i: int)
    requires 0 <= i < |rest|
    ensures
      var up, pos := Upgraded(ipOnly, done, rest), Positions(ipOnly, done, rest);
      && |pos| == |rest| && pos[i] < |up| && Rewritten(rest[i], up[pos[i]], ipOnly)
      && (Upgradable(rest[i], ipOnly) ==> EndsWithEvaluate(up[..pos[i]], rest[i].server))
    decreases |rest|
  {
    var done', up := UpgradeOne(ipOnly, done, rest[0]), Upgraded(ipOnly, done, rest);
    var pos := Positions(ipOnly, done, rest);
    UpgradeExtends(ipOnly, done, rest);
    UpgradeExtends(ipOnly, done', rest[1..]);
    if i == 0 {
      assert up[..pos[0]] == done'[..pos[0]];
    } else {
      UpgradeRewrites(ipOnly, done', rest[1..], i - 1);
      assert rest[1..][i - 1] == rest[i] && Positions(ipOnly, done', rest[1..])[i - 1] == pos[i];
    }
  }

  lemma {:induction false} UpgradeInserts(ipOnly: set<string>, done: seq<Rule>, rest: seq<Rule>, k: int)
    requires |done| <= k < |Upgraded(ipOnly, done, rest)|
    ensures
      var up, pos := Upgraded(ipOnly, done, rest), Positions(ipOnly, done, rest);
      k in pos || (InsertedFor(up, k) && k + 1 in pos)
    decreases |rest|
  {
    var done', up := UpgradeOne(ipOnly, done, rest[0]), Upgraded(ipOnly, done, rest);
    var pos := Positions(ipOnly, done, rest);
    UpgradeExtends(ipOnly, done', rest[1..]);
    assert pos[0] == |done'| - 1;
    if k < |done'| {
      assert forall j | 0 <= j < |done'| :: up[j] == done'[j];
    } else {
      UpgradeInserts(ipOnly, done', rest[1..], k);
      assert forall j | j in Positions(ipOnly, done', rest[1..]) :: j in pos;
    }
  }

  // The upgraded table: the original rules in their order, each rewritten at most
  // in those two fields, every upgraded one right after an evaluate rule for its
  // server, and nothing else but inserted evaluate rules.
  lemma UpgradeIsConservative(ipOnly: set<string>, rules: seq<Rule>)
    ensures
      var up, pos := Upgraded(ipOnly, [], rules), Positions(ipOnly, [], rules);
      && |pos| == |rules|
      && (forall i, j | 0 <= i < j < |pos| :: pos[i] < pos[j])
      && (forall i | 0 <= i < |pos| ::
            pos[i] < |up| && Rewritten(rules[i], up[pos[i]], ipOnly)
            && (Upgradable(rules[i], ipOnly) ==> EndsWithEvaluate(up[..pos[i]], rules[i].server)))
      && (forall k | 0 <= k < |up| :: k in pos || (InsertedFor(up, k) && k + 1 in pos))
  {
    UpgradeExtends(ipOnly, [], rules);
    forall i | 0 <= i < |rules| {
      UpgradeRewrites(ipOnly, [], rules, i);
    }
    var up, pos := Upgraded(ipOnly, [], rules), Positions(ipOnly, [], rules);
    forall k | 0 <= k < |up| ensures k in pos || (InsertedFor(up, k) && k + 1 in pos) {
      UpgradeInserts(ipOnly, [], rules, k);
    }
  }

  lemma UpgradedNeedsNoMore(ipOnly: set<string>, done: seq<Rule>, rest: seq<Rule>)
    requires forall r | r in done :: !Upgradable(r, ipOnly)
    ensures forall r | r in Upgraded(ipOnly, done, rest) :: !Upgradable(r, ipOnly)
    decreases |rest|
  {
    if rest != [] {
      UpgradedNeedsNoMore(ipOnly, UpgradeOne(ipOnly, done, rest[0]), rest[1..]);
    }
  }

  // A second pass finds nothing to do.
  lemma UpgradeIdempotent(root: Root)
    requires NeedsUpgrade(root)
    ensures
      !NeedsUpgrade(root.(dnsRules :=
        Some(Upgraded(IpOnlyTags(root.ruleSets.value), [], root.dnsRules.value))))
  {
    UpgradedNeedsNoMore(IpOnlyTags(root.ruleSets.value), [], root.dnsRules.value);
  }

  // Although a preceding evaluate for the same server is looked for, in a legacy
  // table none is ever found: neighbouring rules do not share one.
  lemma {:induction false} LegacyRulesShareNoEvaluate(ipOnly: set<string>, rules: seq<Rule>)
    requires Legacy(rules)
    ensures |Upgraded(ipOnly, [], rules)| == |rules| + |Filtered(ipOnly, rules)|
  {
    UpgradedPieces(ipOnly, [], rules);
    assert [] + Pieces(ipOnly, rules) == Pieces(ipOnly, rules);
    PiecesLength(ipOnly, rules);
  }

  function Filtered(ipOnly: set<string>, rules: seq<Rule>): seq<Rule> {
    if rules == [] then []
    else (if Upgradable(rules[0], ipOnly) then [rules[0]] else []) + Filtered(ipOnly, rules[1..])
  }

  lemma PiecesLength(ipOnly: set<string>, rules: seq<Rule>)
    requires Legacy(rules)
    ensures |Pieces(ipOnly, rules)| == |rules| + |Filtered(ipOnly, rules)|
  {
    if rules != [] {
      PiecesLength(ipOnly, rules[1..]);
    }
  }

  // ---------------------------------------------------------------------
  // One rule
  // ---------------------------------------------------------------------

  // Left alone: what is no rule, a logical rule, a rule without server, one that looks at
  // a response already, and one without a rule-set of addresses.
  lemma LeftAlone(r: Rule, ipOnly: set<string>)
    requires
      || r.NotARule? || r.kind == "logical" || r.server == ""
      || r.matchResponse == Flag(true) || (r.matchResponse.Label? && r.matchResponse.tag != "")
      || forall tag | tag in SetTags(r.ruleSets) :: tag !in ipOnly
    ensures Upgraded(ipOnly, [], [r]) == [r]
  {
    assert [r][1..] == [];
  }

  // Any other rule gets an evaluate for its server in front, asks for a response, and is
  // limited to queries for addresses unless it has types of its own.
  lemma Rewrites(r: Rule, ipOnly: set<string>, tag: string)
    requires r.Rule? && r.kind != "logical" && r.server != ""
    requires r.matchResponse in {Unset, Flag(false), Label(""), Malformed}
    requires tag in SetTags(r.ruleSets) && tag in ipOnly
    ensures Upgraded(ipOnly, [], [r])
         == [Rule("", "evaluate", r.server, Unset, NoSets, Some(["A", "AAAA", "HTTPS"]), ANYTHING),
             r.(matchResponse := Flag(true),
                queryType := if r.queryType == None then Some(["A", "AAAA", "HTTPS"]) else r.queryType)]
  {
    assert [r][1..] == [];
  }

  // Unless the rule right before it is an evaluate for the same server, which then serves.
  lemma Shares(e: Rule, r: Rule, ipOnly: set<string>, tag: string)
    requires r.Rule? && r.kind != "logical" && r.server != ""
    requires e.Rule? && e.action == "evaluate" && e.server == r.server && e.ruleSets == NoSets
    requires r.matchResponse in {Unset, Flag(false), Label(""), Malformed}
    requires tag in SetTags(r.ruleSets) && tag in ipOnly
    ensures Upgraded(ipOnly, [], [e, r])
         == [e, r.(matchResponse := Flag(true),
                   queryType := if r.queryType == None then Some(["A", "AAAA", "HTTPS"]) else r.queryType)]
  {
    assert [e, r][1..] == [r] && [r][1..] == [];
    assert UpgradeOne(ipOnly, [], e) == [e];
    assert Upgraded(ipOnly, [], [e, r]) == Upgraded(ipOnly, [e], [r]);
    assert UpgradeOne(ipOnly, [e], r) == [e, Marked(r)];
    assert Upgraded(ipOnly, [e], [r]) == Upgraded(ipOnly, [e, Marked(r)], []);
  }
}
