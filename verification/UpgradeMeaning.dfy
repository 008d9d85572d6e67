// What upgrading does to the meaning of a DNS rule table.
module UpgradeMeaning {
  import opened Wrappers
  import opened DnsTable
  import opened Migrate
  import opened UpgradeSteps

  // Tables every rule of which may come where it does.
  predicate Safe(
    guess: set<string>, truth: set<string>, done: seq<Rule>, rest: seq<Rule>, synced: bool, asked: bool)
    decreases |rest|
  {
    rest == [] ||
    (&& StepSafe(guess, truth, done, rest[0], synced, asked)
     && Safe(guess, truth, UpgradeOne(guess, done, rest[0]), rest[1..],
          StaysSynced(guess, done, rest[0], synced), asked || IsEvaluate(rest[0])))
  }

  lemma {:induction false} SafeChooses(
    env: Env, guess: set<string>, truth: set<string>, done: seq<Rule>, rest: seq<Rule>, q: Query,
    kept: Option<Response>, kept': Option<Response>, synced: bool, asked: bool)
    requires Safe(guess, truth, done, rest, synced, asked) && InStep(env, done, q, kept, kept', synced, asked)
    requires Sensible(env, truth) || Justified(rest, guess, truth)
    ensures Choose(env, truth, UpgradedRest(guess, done, rest), q, kept') == Choose(env, truth, rest, q, kept)
    decreases |rest|
  {
    if rest != [] {
      var r, done', piece := rest[0], UpgradeOne(guess, done, rest[0]), Piece(guess, done, rest[0]);
      assert r in rest && forall x | x in rest[1..] :: x in rest;
      SafeStepKeeps(env, guess, truth, done, r, q, kept, kept', synced, asked);
      ChooseJoin(env, truth, piece, UpgradedRest(guess, done', rest[1..]), q, kept');
      ChooseJoin(env, truth, [r], rest[1..], q, kept);
      assert [r] + rest[1..] == rest;
      SafeChooses(env, guess, truth, done', rest[1..], q, KeptAfter(env, [r], q, kept),
        KeptAfter(env, piece, q, kept'), StaysSynced(guess, done, r, synced), asked || IsEvaluate(r));
    }
  }

  // Upgrading keeps what a table means: for every query, every answer of the servers
  // and every rule-set content the same rule decides. The table may hold evaluate
  // and match_response rules. If all that is upgraded are address filters, the other
  // rule-sets may look at what they like.
  lemma UpgradePreservesMeaning(env: Env, guess: set<string>, truth: set<string>, rules: seq<Rule>, q: Query)
    requires Safe(guess, truth, [], rules, true, false)
    requires Sensible(env, truth) || Justified(rules, guess, truth)
    ensures Choose(env, truth, Upgraded(guess, [], rules), q, None) == Choose(env, truth, rules, q, None)
  {
    UpgradedIsRest(guess, [], rules);
    assert [] + UpgradedRest(guess, [], rules) == UpgradedRest(guess, [], rules);
    SafeChooses(env, guess, truth, [], rules, q, None, None, true, false);
  }

  ghost predicate KeepsMeaning(guess: set<string>, truth: set<string>, rules: seq<Rule>) {
    forall env, q | Sensible(env, truth) ::
      Choose(env, truth, Upgraded(guess, [], rules), q, None) == Choose(env, truth, rules, q, None)
  }

  lemma SafeKeepsMeaning(guess: set<string>, truth: set<string>, rules: seq<Rule>)
    requires Safe(guess, truth, [], rules, true, false)
    ensures KeepsMeaning(guess, truth, rules)
  {
    forall env, q | Sensible(env, truth)
      ensures Choose(env, truth, Upgraded(guess, [], rules), q, None) == Choose(env, truth, rules, q, None)
    {
      UpgradePreservesMeaning(env, guess, truth, rules, q);
    }
  }

  // ---------------------------------------------------------------------
  // Legacy tables
  // ---------------------------------------------------------------------

  predicate TypedForAddresses(rules: seq<Rule>, guess: set<string>) {
    forall r | r in rules && Upgradable(r, guess) :: AddressTypesOnly(r)
  }

  // Legacy rules are safe exactly if those that are upgraded are harmless and, after
  // an evaluate, about address queries only.
  lemma {:induction false} LegacyRulesAreSafe(
    guess: set<string>, truth: set<string>, done: seq<Rule>, rest: seq<Rule>, synced: bool, asked: bool)
    requires Legacy(rest) && !EndsInEvaluate(done)
    ensures Safe(guess, truth, done, rest, synced, asked)
      <==> AllHarmless(rest, guess, truth) && (asked ==> TypedForAddresses(rest, guess))
    decreases |rest|
  {
    if rest != [] {
      assert rest[0] in rest && forall r :: r in rest <==> r == rest[0] || r in rest[1..];
      UpgradeOneAppends(guess, done, rest[0]);
      LegacyRulesAreSafe(guess, truth, UpgradeOne(guess, done, rest[0]), rest[1..],
        StaysSynced(guess, done, rest[0], synced), asked);
    }
  }

  // Legacy rules may follow a safe table, as when a rule is added by hand to a
  // generated one.
  lemma {:induction false} SafeWithLegacyAfter(
    guess: set<string>, truth: set<string>, done: seq<Rule>, rest: seq<Rule>, more: seq<Rule>,
    synced: bool, asked: bool)
    requires Safe(guess, truth, done, rest, synced, asked) && !EndsInEvaluate(Upgraded(guess, done, rest))
    requires Legacy(more) && AllHarmless(more, guess, truth) && TypedForAddresses(more, guess)
    ensures Safe(guess, truth, done, rest + more, synced, asked)
    decreases |rest|
  {
    if rest == [] {
      assert rest + more == more;
      LegacyRulesAreSafe(guess, truth, done, more, synced, asked);
    } else {
      assert (rest + more)[0] == rest[0] && (rest + more)[1..] == rest[1..] + more;
      SafeWithLegacyAfter(guess, truth, UpgradeOne(guess, done, rest[0]), rest[1..], more,
        StaysSynced(guess, done, rest[0], synced), asked || IsEvaluate(rest[0]));
    }
  }

  lemma LoneRule(guess: set<string>, r: Rule)
    ensures Upgraded(guess, [], [r]) == Piece(guess, [], r)
  {
    assert [r][1..] == [];
    assert UpgradeOne(guess, [], r) == Piece(guess, [], r);
  }

  // For a rule that is upgraded and is not harmless: rule-sets and a query that a table
  // of this rule alone decides before the upgrade and not after it.
  lemma MisclassifiedRuleChanges(r: Rule, guess: set<string>, truth: set<string>) returns (env: Env, q: Query)
    requires Upgradable(r, guess) && !IsEvaluate(r) && !Harmless(r, truth)
    ensures Sensible(env, truth) && !AddressQuery(q)
    ensures Choose(env, truth, Upgraded(guess, [], [r]), q, None) == None
    ensures Choose(env, truth, [r], q, None).Some?
  {
    var t := "TXT";
    if r.queryType.Some? {
      t :| t in r.queryType.value && t !in ADDRESS_QUERY_TYPES;
    }
    env, q := OPEN, QueryFor(r, t);
    QueryForHolds(r, t, None);
    OneRule(env, truth, r, q, None);
    PieceChooses(env, guess, truth, [], r, q, None);
    LoneRule(guess, r);
  }

  // A legacy rule on its own keeps its meaning exactly if it is not upgraded or is
  // harmless.
  lemma HarmlessExactly(r: Rule, guess: set<string>, truth: set<string>)
    requires Legacy([r])
    ensures KeepsMeaning(guess, truth, [r]) <==> (Upgradable(r, guess) ==> Harmless(r, truth))
  {
    assert r in [r];
    if Upgradable(r, guess) ==> Harmless(r, truth) {
      LegacyRulesAreSafe(guess, truth, [], [r], true, false);
      SafeKeepsMeaning(guess, truth, [r]);
    } else {
      var env, q := MisclassifiedRuleChanges(r, guess, truth);
    }
  }

  // A legacy table keeps its meaning if each of its rules does on its own, which is
  // exactly: every upgraded rule is harmless.
  lemma LegacyTablesKeepMeaning(guess: set<string>, truth: set<string>, rules: seq<Rule>)
    requires Legacy(rules)
    ensures AllHarmless(rules, guess, truth) <==> forall r | r in rules :: KeepsMeaning(guess, truth, [r])
    ensures AllHarmless(rules, guess, truth) ==> KeepsMeaning(guess, truth, rules)
  {
    forall r | r in rules ensures KeepsMeaning(guess, truth, [r]) <==> (Upgradable(r, guess) ==> Harmless(r, truth)) {
      HarmlessExactly(r, guess, truth);
    }
    if AllHarmless(rules, guess, truth) {
      LegacyRulesAreSafe(guess, truth, [], rules, true, false);
      SafeKeepsMeaning(guess, truth, rules);
    }
  }

  // The rules that are not upgraded.
  function Without(guess: set<string>, rules: seq<Rule>): seq<Rule> {
    if rules == [] then []
    else (if Upgradable(rules[0], guess) then [] else [rules[0]]) + Without(guess, rules[1..])
  }

  // In a legacy table no kept response is looked at.
  lemma {:induction false} LegacyIgnoresKept(
    env: Env, truth: set<string>, rules: seq<Rule>, q: Query, kept: Option<Response>)
    requires Legacy(rules)
    ensures Choose(env, truth, rules, q, kept) == Choose(env, truth, rules, q, None)
  {
    if rules != [] {
      assert rules[0] in rules && forall r | r in rules[1..] :: r in rules;
      assert Decides(env, truth, rules[0], q, kept) == Decides(env, truth, rules[0], q, None);
      LegacyIgnoresKept(env, truth, rules[1..], q, Keep(env, rules[0], q, kept));
      LegacyIgnoresKept(env, truth, rules[1..], q, Keep(env, rules[0], q, None));
    }
  }

  lemma WithoutIsLegacy(guess: set<string>, rules: seq<Rule>)
    requires Legacy(rules)
    ensures Legacy(Without(guess, rules))
  {
  }

  // What becomes of a rule that is upgraded alone.
  lemma LegacyPiece(
    env: Env, guess: set<string>, truth: set<string>, r: Rule, q: Query, kept: Option<Response>)
    requires Upgradable(r, guess) && !IsEvaluate(r) && Sensible(env, truth)
    requires !AddressQuery(q) ==> kept == None
    ensures Choose(env, truth, Piece(guess, [], r), q, kept)
         == if AddressQuery(q) then Choose(env, truth, [r], q, None) else None
    ensures !AddressQuery(q) ==> KeptAfter(env, Piece(guess, [], r), q, kept) == None
  {
    PieceChooses(env, guess, truth, [], r, q, kept);
    OneRule(env, truth, r, q, None);
    if !AddressFilter(r, truth) {
      IgnoresResponse(env, truth, r, q, Some(env.answer(r.server, q)));
    }
  }

  lemma {:induction false} PiecesChoose(
    env: Env, guess: set<string>, truth: set<string>, rules: seq<Rule>, q: Query, kept: Option<Response>)
    requires Legacy(rules) && Sensible(env, truth) && (!AddressQuery(q) ==> kept == None)
    ensures Choose(env, truth, Pieces(guess, rules), q, kept)
         == Choose(env, truth, if AddressQuery(q) then rules else Without(guess, rules), q, None)
  {
    if rules != [] {
      var r, tail, piece := rules[0], rules[1..], Piece(guess, [], rules[0]);
      assert r in rules && forall x | x in tail :: x in rules;
      assert UpgradeOne(guess, [], r) == piece;
      ChooseJoin(env, truth, piece, Pieces(guess, tail), q, kept);
      LegacyHead(env, guess, truth, r, tail, q, kept);
      PiecesChoose(env, guess, truth, tail, q, KeptAfter(env, piece, q, kept));
      assert [r] + tail == rules;
    }
  }

  lemma LegacyHead(
    env: Env, guess: set<string>, truth: set<string>, r: Rule, tail: seq<Rule>, q: Query, kept: Option<Response>)
    requires Legacy([r]) && Legacy(tail) && Sensible(env, truth) && (!AddressQuery(q) ==> kept == None)
    ensures
      var now := Choose(env, truth, Piece(guess, [], r), q, kept);
      && Choose(env, truth, if AddressQuery(q) then [r] + tail else Without(guess, [r] + tail), q, None)
         == (if now.Some? then now
             else Choose(env, truth, if AddressQuery(q) then tail else Without(guess, tail), q, None))
      && (!AddressQuery(q) ==> KeptAfter(env, Piece(guess, [], r), q, kept) == None)
  {
    assert r in [r];
    var left := Without(guess, tail);
    assert ([r] + tail)[0] == r && ([r] + tail)[1..] == tail;
    WithoutIsLegacy(guess, tail);
    OneRule(env, truth, r, q, kept);
    OneRule(env, truth, r, q, None);
    ChooseJoin(env, truth, [r], tail, q, None);
    ChooseJoin(env, truth, [r], left, q, None);
    LegacyIgnoresKept(env, truth, tail, q, KeptAfter(env, [r], q, None));
    LegacyIgnoresKept(env, truth, left, q, KeptAfter(env, [r], q, None));
    if Upgradable(r, guess) {
      LegacyPiece(env, guess, truth, r, q, kept);
      assert [] + left == left;
    }
  }

  // Whatever the code guesses, this is what a legacy table means after the upgrade:
  // address queries are decided as before, and other queries as if the upgraded rules
  // were not there.
  lemma LegacyUpgradeMeans(env: Env, guess: set<string>, truth: set<string>, rules: seq<Rule>, q: Query)
    requires Legacy(rules) && Sensible(env, truth)
    ensures Choose(env, truth, Upgraded(guess, [], rules), q, None)
         == Choose(env, truth, if AddressQuery(q) then rules else Without(guess, rules), q, None)
  {
    UpgradedPieces(guess, [], rules);
    assert [] + Pieces(guess, rules) == Pieces(guess, rules);
    PiecesChoose(env, guess, truth, rules, q, None);
  }

  // So it keeps its meaning exactly if no query of another type needs a rule that is
  // upgraded.
  lemma LegacyKeepsMeaningExactly(guess: set<string>, truth: set<string>, rules: seq<Rule>)
    requires Legacy(rules)
    ensures KeepsMeaning(guess, truth, rules) <==>
      forall env, q | Sensible(env, truth) && !AddressQuery(q) ::
        Choose(env, truth, Without(guess, rules), q, None) == Choose(env, truth, rules, q, None)
  {
    forall env, q | Sensible(env, truth)
      ensures Choose(env, truth, Upgraded(guess, [], rules), q, None)
           == Choose(env, truth, if AddressQuery(q) then rules else Without(guess, rules), q, None)
    {
      LegacyUpgradeMeans(env, guess, truth, rules, q);
    }
  }

  // A dead match_response rule can wake up: before the upgrade there is no
  // response for it to look at, afterwards there is the one kept for the rule
  // before it.
  lemma UpgradeWakesResponseRules(env: Env, q: Query)
    requires q == Query("Rule", "example.org", "A")
    requires env == Env((tag, q', r) => false, (i, q', r) => false, (server, q') => 0)
    ensures
      var geo := Rule("", "route", "dns", Unset, One("geoip-cn"), None, ANYTHING);
      var late := Rule("", "reject", "", Flag(true), NoSets, None, ANYTHING);
      var ipOnly := {"geoip-cn"};
      && Choose(env, ipOnly, [geo, late], q, None) == None
      && Choose(env, ipOnly, Upgraded(ipOnly, [], [geo, late]), q, None) != None
  {
    var geo := Rule("", "route", "dns", Unset, One("geoip-cn"), None, ANYTHING);
    var late := Rule("", "reject", "", Flag(true), NoSets, None, ANYTHING);
    var ipOnly := {"geoip-cn"};
    assert Upgradable(geo, ipOnly) by {
      assert SetTags(geo.ruleSets)[0] in ipOnly;
    }
    var first := [Evaluate("dns"), Marked(geo)];
    var table := first + [late];
    assert UpgradeOne(ipOnly, [], geo) == first;
    assert [geo, late][1..] == [late];
    assert Upgraded(ipOnly, [], [geo, late]) == Upgraded(ipOnly, first, [late]);
    assert Upgraded(ipOnly, first, [late]) == Upgraded(ipOnly, table, [late][1..]) == table;
    assert Keep(env, Evaluate("dns"), q, None) == Some(0);
    assert !Decides(env, ipOnly, geo, q, None) && !Decides(env, ipOnly, Marked(geo), q, Some(0));
    assert Decides(env, ipOnly, late, q, Some(0)) && !Decides(env, ipOnly, late, q, None);
    assert Choose(env, ipOnly, [geo, late], q, None) == Choose(env, ipOnly, [late], q, None);
    assert Choose(env, ipOnly, [late], q, None) == Choose(env, ipOnly, [late][1..], q, None);
    assert table[1..] == [Marked(geo), late] && [Marked(geo), late][1..] == [late];
    assert Choose(env, ipOnly, table, q, None) == Choose(env, ipOnly, [Marked(geo), late], q, Some(0));
    assert Choose(env, ipOnly, [Marked(geo), late], q, Some(0)) == Choose(env, ipOnly, [late], q, Some(0));
  }
}
