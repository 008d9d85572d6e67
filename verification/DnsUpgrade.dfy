// The generated DNS table and the upgrade of saved profiles.
module DnsUpgrade {
  import opened Wrappers
  import opened TranslationState
  import opened DnsTable
  import opened DnsServers
  import opened DnsRules
  import opened ResolverGraph
  import opened DnsTheorems
  import Migrate
  import UpgradeSteps
  import UpgradeMeaning

  // The table as it was written before evaluate: one rule with the rule-set of
  // addresses as its own filter.
  function GeoFilter(direct: string, cc: string): Rule {
    Rule("", "route", direct, Unset, Many(GeoTags(cc)), None, ANYTHING)
  }

  function OlderTable(cfg: RawConfig, cc: string, ech: seq<string>, detour: string): seq<Rule> {
    var servers := Servers(cfg, detour);
    var direct := DirectTag(servers);
    [WithAction(ModeRule(direct))] + WithActions(UserRules(cfg, detour))
    + WithActions(EchRules(ech, EchTag(servers))) + [GeoFilter(direct, cc)]
    + WithActions(FakeRules(FakeTag(servers))) + WithActions(Terminal(cfg.dns, detour))
  }

  lemma {:induction false} PiecesOfPlain(ipOnly: set<string>, rules: seq<Rule>)
    requires NoSetRules(rules)
    ensures Migrate.Pieces(ipOnly, rules) == rules
  {
    if rules != [] {
      assert rules[0] in rules && forall r | r in rules[1..] :: r in rules;
      PiecesOfPlain(ipOnly, rules[1..]);
      assert rules == [rules[0]] + rules[1..];
    }
  }

  lemma {:induction false} PiecesJoin(ipOnly: set<string>, a: seq<Rule>, b: seq<Rule>)
    ensures Migrate.Pieces(ipOnly, a + b) == Migrate.Pieces(ipOnly, a) + Migrate.Pieces(ipOnly, b)
  {
    if a == [] {
      assert a + b == b;
    } else {
      assert (a + b)[1..] == a[1..] + b && (a + b)[0] == a[0];
      PiecesJoin(ipOnly, a[1..], b);
    }
  }

  lemma GeoFilterUpgrades(ipOnly: set<string>, direct: string, cc: string)
    requires direct != "" && "geoip-" + cc in ipOnly
    ensures Migrate.Pieces(ipOnly, [GeoFilter(direct, cc)])
         == [EvaluateRule(direct), WithAction(ResponseRule(direct, cc))]
  {
    var r := GeoFilter(direct, cc);
    assert SetTags(r.ruleSets)[|GeoTags(cc)| - 1] == "geoip-" + cc;
    assert Migrate.Upgradable(r, ipOnly);
    assert [r][1..] == [];
    assert Migrate.UpgradeOne(ipOnly, [], r) == [Migrate.Evaluate(direct), Migrate.Marked(r)];
  }

  // The generator and the upgrade of saved profiles agree: what is generated is the
  // older table, upgraded.
  lemma GeneratedIsUpgraded(cfg: RawConfig, cc: string, ech: seq<string>, detour: string, guess: set<string>)
    requires HasDirect(Servers(cfg, detour)) && "geoip-" + cc in guess
    ensures Table(cfg, cc, ech, detour) == Migrate.Upgraded(guess, [], OlderTable(cfg, cc, ech, detour))
    ensures Migrate.Legacy(OlderTable(cfg, cc, ech, detour))
  {
    var servers := Servers(cfg, detour);
    var direct := DirectTag(servers);
    ServerTagsDistinct(cfg, detour);
    DirectTags(servers);
    PlainParts(cfg, ech, detour);
    var mode, user := [WithAction(ModeRule(direct))], WithActions(UserRules(cfg, detour));
    var echRules, geo := WithActions(EchRules(ech, EchTag(servers))), [GeoFilter(direct, cc)];
    var fake, terminal := WithActions(FakeRules(FakeTag(servers))), WithActions(Terminal(cfg.dns, detour));
    assert Migrate.Legacy(geo);
    PartsUpgrade(guess, mode, user, echRules, geo, fake, terminal);
    GeoFilterUpgrades(guess, direct, cc);
    TableParts(cfg, cc, ech, detour);
  }

  lemma PartsUpgrade(
    ipOnly: set<string>,
    mode: seq<Rule>, user: seq<Rule>, ech: seq<Rule>, geo: seq<Rule>, fake: seq<Rule>, terminal: seq<Rule>)
    requires NoSetRules(mode) && NoSetRules(user) && NoSetRules(ech) && NoSetRules(fake) && NoSetRules(terminal)
    requires Migrate.Legacy(geo)
    ensures
      var all := mode + user + ech + geo + fake + terminal;
      && Migrate.Legacy(all)
      && Migrate.Upgraded(ipOnly, [], all)
         == mode + (user + (ech + (Migrate.Pieces(ipOnly, geo) + fake) + terminal))
  {
    var all := mode + user + ech + geo + fake + terminal;
    Migrate.UpgradedPieces(ipOnly, [], all);
    PiecesJoin(ipOnly, mode + user + ech + geo + fake, terminal);
    PiecesJoin(ipOnly, mode + user + ech + geo, fake);
    PiecesJoin(ipOnly, mode + user + ech, geo);
    PiecesJoin(ipOnly, mode + user, ech);
    PiecesJoin(ipOnly, mode, user);
    PiecesOfPlain(ipOnly, mode);
    PiecesOfPlain(ipOnly, user);
    PiecesOfPlain(ipOnly, ech);
    PiecesOfPlain(ipOnly, fake);
    PiecesOfPlain(ipOnly, terminal);
    Reassociate(mode, user, ech, Migrate.Pieces(ipOnly, geo), fake, terminal);
    assert [] + Migrate.Pieces(ipOnly, all) == Migrate.Pieces(ipOnly, all);
  }

  lemma OlderFilters(cfg: RawConfig, cc: string, ech: seq<string>, detour: string, r: Rule)
    requires r in OlderTable(cfg, cc, ech, detour)
    ensures r == GeoFilter(DirectTag(Servers(cfg, detour)), cc) || (r.Rule? && SetTags(r.ruleSets) == [])
  {
    PlainParts(cfg, ech, detour);
  }

  // So it chooses as sing-box 1.13 chose on the older table, as long as the rule-set
  // of the country is one of addresses.
  lemma GeneratedMeansOlder(
    env: Env, truth: set<string>, cfg: RawConfig, cc: string, ech: seq<string>, detour: string, q: Query)
    requires HasDirect(Servers(cfg, detour)) && "geoip-" + cc in truth
    ensures Choose(env, truth, Table(cfg, cc, ech, detour), q, None)
         == Choose(env, truth, OlderTable(cfg, cc, ech, detour), q, None)
  {
    var guess := {"geoip-" + cc};
    var older := OlderTable(cfg, cc, ech, detour);
    GeneratedIsUpgraded(cfg, cc, ech, detour, guess);
    forall r | r in older && Migrate.Upgradable(r, guess) ensures AddressFilter(r, truth) {
      OlderFilters(cfg, cc, ech, detour, r);
      assert "geoip-" + cc in SetTags(r.ruleSets);
    }
    UpgradeMeaning.LegacyRulesAreSafe(guess, truth, [], older, true, false);
    UpgradeMeaning.UpgradePreservesMeaning(env, guess, truth, older, q);
  }

  // Rules no upgrade touches: those without rule-sets, the evaluate rule and the
  // response rule.
  predicate Untouched(r: Rule) {
    r.Rule? && (SetTags(r.ruleSets) == [] || Enabled(r.matchResponse))
  }

  lemma {:induction false} UntouchedSafe(
    guess: set<string>, truth: set<string>, done: seq<Rule>, rest: seq<Rule>, asked: bool)
    requires forall r | r in rest :: Untouched(r)
    ensures UpgradeMeaning.Safe(guess, truth, done, rest, true, asked)
    ensures Migrate.Upgraded(guess, done, rest) == done + rest
    decreases |rest|
  {
    if rest != [] {
      assert rest[0] in rest && forall r | r in rest[1..] :: r in rest;
      UntouchedSafe(guess, truth, done + [rest[0]], rest[1..], asked || Migrate.IsEvaluate(rest[0]));
      assert done + [rest[0]] + rest[1..] == done + rest;
    }
  }

  // Untouched rules that do not end with an evaluate.
  predicate Settled(rules: seq<Rule>) {
    (forall r | r in rules :: Untouched(r)) && !Migrate.EndsInEvaluate(rules)
  }

  lemma SettledJoin(a: seq<Rule>, b: seq<Rule>)
    requires Settled(a) && Settled(b)
    ensures Settled(a + b)
  {
    if b == [] {
      assert a + b == a;
    } else {
      assert (a + b)[|a + b| - 1] == b[|b| - 1];
    }
  }

  lemma NoSetsSettled(rules: seq<Rule>)
    requires NoSetRules(rules)
    ensures Settled(rules)
  {
    if rules != [] {
      assert rules[|rules| - 1] in rules;
    }
  }

  lemma GeoSettled(direct: string, cc: string)
    ensures Settled([EvaluateRule(direct), WithAction(ResponseRule(direct, cc))])
  {
    var geo := [EvaluateRule(direct), WithAction(ResponseRule(direct, cc))];
    assert Untouched(geo[0]) && Untouched(geo[1]) && !Migrate.IsEvaluate(geo[1]);
  }

  lemma AfterUserSettled(cfg: RawConfig, cc: string, ech: seq<string>, detour: string)
    ensures Settled(AfterUser(cfg, cc, ech, detour))
  {
    PlainParts(cfg, ech, detour);
    var servers := Servers(cfg, detour);
    var direct := DirectTag(servers);
    var echRules, fake := WithActions(EchRules(ech, EchTag(servers))), WithActions(FakeRules(FakeTag(servers)));
    var geo := [EvaluateRule(direct), WithAction(ResponseRule(direct, cc))];
    var terminal := WithActions(Terminal(cfg.dns, detour));
    NoSetsSettled(echRules);
    NoSetsSettled(fake);
    NoSetsSettled(terminal);
    GeoSettled(direct, cc);
    if direct != "" {
      SettledRest(echRules, geo, fake, terminal);
    }
  }

  lemma SettledRest(ech: seq<Rule>, geo: seq<Rule>, fake: seq<Rule>, terminal: seq<Rule>)
    requires Settled(ech) && Settled(geo) && Settled(fake) && Settled(terminal)
    ensures Settled(ech + (geo + fake) + terminal)
  {
    SettledJoin(geo, fake);
    SettledJoin(ech, geo + fake);
    SettledJoin(ech + (geo + fake), terminal);
  }

  lemma TableSettled(cfg: RawConfig, cc: string, ech: seq<string>, detour: string)
    ensures Settled(Table(cfg, cc, ech, detour))
  {
    TableParts(cfg, cc, ech, detour);
    PlainParts(cfg, ech, detour);
    AfterUserSettled(cfg, cc, ech, detour);
    var mode := [WithAction(ModeRule(DirectTag(Servers(cfg, detour))))];
    var user := WithActions(UserRules(cfg, detour));
    NoSetsSettled(mode);
    NoSetsSettled(user);
    SettledJoin(user, AfterUser(cfg, cc, ech, detour));
    SettledJoin(mode, AfterMode(cfg, cc, ech, detour));
    assert [] + AfterMode(cfg, cc, ech, detour) == AfterMode(cfg, cc, ech, detour);
  }

  // A profile with a generated table to which older rules were added by hand keeps
  // its meaning when it is read again.
  lemma MixedProfileKeepsMeaning(
    env: Env, guess: set<string>, truth: set<string>, cfg: RawConfig, cc: string, ech: seq<string>,
    detour: string, more: seq<Rule>, q: Query)
    requires Migrate.Legacy(more) && UpgradeSteps.AllHarmless(more, guess, truth)
    requires UpgradeMeaning.TypedForAddresses(more, guess)
    requires UpgradeSteps.Sensible(env, truth) || UpgradeSteps.Justified(more, guess, truth)
    ensures
      var table := Table(cfg, cc, ech, detour) + more;
      Choose(env, truth, Migrate.Upgraded(guess, [], table), q, None) == Choose(env, truth, table, q, None)
  {
    var table := Table(cfg, cc, ech, detour);
    TableSettled(cfg, cc, ech, detour);
    UntouchedSafe(guess, truth, [], table, false);
    assert [] + table == table;
    UpgradeMeaning.SafeWithLegacyAfter(guess, truth, [], table, more, true, false);
    UpgradeMeaning.UpgradePreservesMeaning(env, guess, truth, table + more, q);
  }

  // A translated profile that is saved and read again is left alone.
  lemma GeneratedNeedsNoUpgrade(cfg: RawConfig, cc: string, ech: seq<string>, detour: string, root: Migrate.Root)
    requires root.dnsRules == Some(Table(cfg, cc, ech, detour))
    ensures !Migrate.NeedsUpgrade(root)
  {
    TableSettled(cfg, cc, ech, detour);
  }
}
