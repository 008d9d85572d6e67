// What upgrading does to one DNS rule, and to which rules it does nothing.
module UpgradeSteps {
  import opened Wrappers
  import opened DnsTable
  import opened Migrate

  // The code guesses from tags and URLs which rule-sets hold addresses; `guess` is
  // that guess, `truth` the set sing-box goes by. Only those look at a response: every
  // other rule-set, and every other condition, looks at the query alone.
  ghost predicate Sensible(env: Env, truth: set<string>) {
    && (forall tag, q, response | tag !in truth :: env.inSet(tag, q, response) == env.inSet(tag, q, None))
    && (forall i, q, response :: env.holds(i, q, response) == env.holds(i, q, None))
  }

  // ---------------------------------------------------------------------
  // One rule
  // ---------------------------------------------------------------------

  predicate Covers(queryType: Option<seq<string>>, t: string) {
    queryType == None || t in queryType.value
  }

  predicate AddressTypesOnly(r: Rule) {
    r.Rule? && (r.queryType == None || forall t | t in r.queryType.value :: t in ADDRESS_QUERY_TYPES)
  }

  // Upgrading the rule changes nothing: sing-box reads it as an address filter, or it
  // says itself that it is about address queries only.
  predicate Harmless(r: Rule, truth: set<string>) {
    AddressFilter(r, truth) || (r.Rule? && r.queryType.Some? && AddressTypesOnly(r))
  }

  predicate AllHarmless(rules: seq<Rule>, guess: set<string>, truth: set<string>) {
    forall r | r in rules && Upgradable(r, guess) :: Harmless(r, truth)
  }

  // No rule is upgraded that sing-box does not read as an address filter.
  predicate Justified(rules: seq<Rule>, guess: set<string>, truth: set<string>) {
    forall r | r in rules && Upgradable(r, guess) :: AddressFilter(r, truth)
  }

  // An evaluate without conditions but its query types.
  predicate PlainEvaluate(r: Rule) {
    IsEvaluate(r) && SetTags(r.ruleSets) == [] && r.cond == ANYTHING
  }

  // Keeps a response of its server for every address query.
  predicate AsksForAddresses(r: Rule) {
    PlainEvaluate(r) && forall t | t in ADDRESS_QUERY_TYPES :: Covers(r.queryType, t)
  }

  // The rule before keeps a response for every address query this one is about.
  predicate SharesEvaluate(done: seq<Rule>, r: Rule)
    requires r.Rule?
  {
    forall t | t in ADDRESS_QUERY_TYPES && Covers(r.queryType, t) ::
      done != [] && PlainEvaluate(done[|done| - 1]) && Covers(done[|done| - 1].queryType, t)
  }

  // A rule that may be upgraded here. `asked`: there was an evaluate rule before, so
  // other queries may have a response too.
  predicate SafeUpgrade(truth: set<string>, done: seq<Rule>, r: Rule, asked: bool)
    requires r.Rule?
  {
    if IsEvaluate(r) then r.queryType.Some?
    else
      && Harmless(r, truth) && (AddressTypesOnly(r) || !asked)
      && (EndsWithEvaluate(done, r.server) ==> SharesEvaluate(done, r))
  }

  // A rule that may come next. `synced`: the response kept for address queries is the
  // same before and after the upgrade.
  predicate StepSafe(
    guess: set<string>, truth: set<string>, done: seq<Rule>, r: Rule, synced: bool, asked: bool)
  {
    if Upgradable(r, guess) then SafeUpgrade(truth, done, r, asked)
    else if r.Rule? && Enabled(r.matchResponse) && !IsEvaluate(r) then
      synced || forall t | t in ADDRESS_QUERY_TYPES :: !Covers(r.queryType, t)
    else true
  }

  // An upgraded rule leaves another response behind, and an evaluate for every
  // address query puts that right.
  predicate StaysSynced(guess: set<string>, done: seq<Rule>, r: Rule, synced: bool) {
    if Upgradable(r, guess) then synced && !IsEvaluate(r) && EndsWithEvaluate(done, r.server)
    else synced || AsksForAddresses(r)
  }

  // What a rule becomes, after `done`.
  function Piece(guess: set<string>, done: seq<Rule>, r: Rule): seq<Rule> {
    if !Upgradable(r, guess) then [r]
    else if EndsWithEvaluate(done, r.server) then [Marked(r)]
    else [Evaluate(r.server), Marked(r)]
  }

  function UpgradedRest(guess: set<string>, done: seq<Rule>, rest: seq<Rule>): seq<Rule>
    decreases |rest|
  {
    if rest == [] then []
    else Piece(guess, done, rest[0]) + UpgradedRest(guess, UpgradeOne(guess, done, rest[0]), rest[1..])
  }

  lemma {:induction false} UpgradedIsRest(guess: set<string>, done: seq<Rule>, rest: seq<Rule>)
    ensures Upgraded(guess, done, rest) == done + UpgradedRest(guess, done, rest)
    decreases |rest|
  {
    if rest != [] {
      var done' := UpgradeOne(guess, done, rest[0]);
      assert done' == done + Piece(guess, done, rest[0]);
      UpgradedIsRest(guess, done', rest[1..]);
      assert done + Piece(guess, done, rest[0]) + UpgradedRest(guess, done', rest[1..])
          == done + (Piece(guess, done, rest[0]) + UpgradedRest(guess, done', rest[1..]));
    }
  }

  // The responses kept before and after the upgrade, when `done` has been read.
  predicate InStep(
    env: Env, done: seq<Rule>, q: Query, kept: Option<Response>, kept': Option<Response>, synced: bool, asked: bool)
  {
    && (!AddressQuery(q) || synced ==> kept' == kept)
    && (!AddressQuery(q) && !asked ==> kept == None)
    && (AddressQuery(q) && done != [] && PlainEvaluate(done[|done| - 1])
        && Covers(done[|done| - 1].queryType, q.qtype) ==>
          kept' == Some(env.answer(done[|done| - 1].server, q)))
  }

  // The response kept after some rules have been passed.
  function KeptAfter(env: Env, rules: seq<Rule>, q: Query, kept: Option<Response>): Option<Response> {
    if rules == [] then kept else KeptAfter(env, rules[1..], q, Keep(env, rules[0], q, kept))
  }

  lemma {:induction false} ChooseJoin(
    env: Env, truth: set<string>, a: seq<Rule>, b: seq<Rule>, q: Query, kept: Option<Response>)
    ensures Choose(env, truth, a + b, q, kept)
         == if Choose(env, truth, a, q, kept).Some? then Choose(env, truth, a, q, kept)
            else Choose(env, truth, b, q, KeptAfter(env, a, q, kept))
  {
    if a == [] {
      assert a + b == b;
    } else {
      assert (a + b)[0] == a[0] && (a + b)[1..] == a[1..] + b;
      ChooseJoin(env, truth, a[1..], b, q, Keep(env, a[0], q, kept));
    }
  }

  // ---------------------------------------------------------------------
  // One step
  // ---------------------------------------------------------------------

  // The rule decides the same, upgraded or not, and leaves the responses in step.
  predicate StepKeeps(
    env: Env, guess: set<string>, truth: set<string>, done: seq<Rule>, r: Rule, q: Query,
    kept: Option<Response>, kept': Option<Response>, synced: bool, asked: bool)
  {
    var piece := Piece(guess, done, r);
    && Choose(env, truth, piece, q, kept') == Choose(env, truth, [r], q, kept)
    && InStep(env, UpgradeOne(guess, done, r), q, KeptAfter(env, [r], q, kept), KeptAfter(env, piece, q, kept'),
         StaysSynced(guess, done, r, synced), asked || IsEvaluate(r))
  }

  lemma OneRule(env: Env, truth: set<string>, r: Rule, q: Query, kept: Option<Response>)
    ensures Choose(env, truth, [r], q, kept)
         == if Decides(env, truth, r, q, kept) then Some(Decision(r.action, r.server, r.cond, r.ruleSets)) else None
    ensures KeptAfter(env, [r], q, kept) == Keep(env, r, q, kept)
  {
    assert [r][1..] == [];
  }

  lemma TwoRules(env: Env, truth: set<string>, server: string, r: Rule, q: Query, kept: Option<Response>)
    ensures
      var between := if AddressQuery(q) then Some(env.answer(server, q)) else kept;
      && Choose(env, truth, [Evaluate(server), r], q, kept) == Choose(env, truth, [r], q, between)
      && KeptAfter(env, [Evaluate(server), r], q, kept) == KeptAfter(env, [r], q, between)
  {
    assert [Evaluate(server), r][1..] == [r];
  }

  // What an upgraded rule starts from.
  function Between(env: Env, done: seq<Rule>, r: Rule, q: Query, kept: Option<Response>): Option<Response>
    requires r.Rule?
  {
    if AddressQuery(q) && !EndsWithEvaluate(done, r.server) then Some(env.answer(r.server, q)) else kept
  }

  lemma PieceChooses(
    env: Env, guess: set<string>, truth: set<string>, done: seq<Rule>, r: Rule, q: Query, kept: Option<Response>)
    requires Upgradable(r, guess)
    ensures
      var between := Between(env, done, r, q, kept);
      && Choose(env, truth, Piece(guess, done, r), q, kept)
         == (if Decides(env, truth, Marked(r), q, between) then Some(Decision(r.action, r.server, r.cond, r.ruleSets))
             else None)
      && KeptAfter(env, Piece(guess, done, r), q, kept) == Keep(env, Marked(r), q, between)
  {
    OneRule(env, truth, Marked(r), q, Between(env, done, r, q, kept));
    TwoRules(env, truth, r.server, Marked(r), q, kept);
  }

  // Whether the rule holds does not depend on the response if sing-box does not read
  // it as an address filter.
  lemma IgnoresResponse(env: Env, truth: set<string>, r: Rule, q: Query, response: Option<Response>)
    requires Sensible(env, truth) && r.Rule? && forall tag | tag in SetTags(r.ruleSets) :: tag !in truth
    ensures RuleHolds(env, r, q, response) == RuleHolds(env, r, q, None)
  {
    assert forall tag | tag in SetTags(r.ruleSets) :: env.inSet(tag, q, response) == env.inSet(tag, q, None);
    if r.cond.other.Some? {
      var i: int := r.cond.other.value;
      assert env.holds(i, q, response) == env.holds(i, q, None);
    }
  }

  // An upgraded rule decides as it did.
  lemma MarkedDecides(
    env: Env, guess: set<string>, truth: set<string>, done: seq<Rule>, r: Rule, q: Query,
    kept: Option<Response>, kept': Option<Response>, synced: bool, asked: bool)
    requires Upgradable(r, guess) && !IsEvaluate(r) && SafeUpgrade(truth, done, r, asked)
    requires InStep(env, done, q, kept, kept', synced, asked)
    requires Sensible(env, truth) || AddressFilter(r, truth)
    ensures Decides(env, truth, Marked(r), q, Between(env, done, r, q, kept')) == Decides(env, truth, r, q, kept)
  {
    var between := Between(env, done, r, q, kept');
    assert RuleHolds(env, Marked(r), q, between) ==> RuleHolds(env, r, q, between);
    if AddressQuery(q) && Covers(r.queryType, q.qtype) {
      assert between == Some(env.answer(r.server, q));
    }
    if !AddressFilter(r, truth) {
      IgnoresResponse(env, truth, r, q, between);
    }
  }

  // A safe step keeps everything.
  lemma SafeStepKeeps(
    env: Env, guess: set<string>, truth: set<string>, done: seq<Rule>, r: Rule, q: Query,
    kept: Option<Response>, kept': Option<Response>, synced: bool, asked: bool)
    requires StepSafe(guess, truth, done, r, synced, asked) && InStep(env, done, q, kept, kept', synced, asked)
    requires Sensible(env, truth) || (Upgradable(r, guess) ==> AddressFilter(r, truth))
    ensures StepKeeps(env, guess, truth, done, r, q, kept, kept', synced, asked)
  {
    OneRule(env, truth, r, q, kept);
    if Upgradable(r, guess) {
      PieceChooses(env, guess, truth, done, r, q, kept');
      if !IsEvaluate(r) {
        MarkedDecides(env, guess, truth, done, r, q, kept, kept', synced, asked);
      }
    } else {
      OneRule(env, truth, r, q, kept');
    }
  }

  // ---------------------------------------------------------------------
  // Which steps are safe
  // ---------------------------------------------------------------------

  // Every rule-set and every condition holds.
  const OPEN := Env((tag, q, response) => true, (i, q, response) => true, (server, q) => 0)

  // A query of this type that the rule's other conditions let through.
  function QueryFor(r: Rule, t: string): Query
    requires r.Rule?
  {
    Query(
      if r.cond.clashMode.Some? then r.cond.clashMode.value else "Rule",
      if r.cond.domains != [] then r.cond.domains[0]
      else if r.cond.suffixes != [] then r.cond.suffixes[0] else "",
      t)
  }

  lemma QueryForHolds(r: Rule, t: string, response: Option<Response>)
    requires r.Rule? && Covers(r.queryType, t)
    ensures RuleHolds(OPEN, r, QueryFor(r, t), response)
  {
    var q := QueryFor(r, t);
    assert NameMatches(r.cond, q.name) by {
      if r.cond.domains == [] && r.cond.suffixes != [] {
        assert HasSuffix(q.name, r.cond.suffixes[0]);
      }
    }
    if SetTags(r.ruleSets) != [] {
      var tag := SetTags(r.ruleSets)[0];
      assert OPEN.inSet(tag, q, response) && tag in SetTags(r.ruleSets);
    }
  }

  // A step goes wrong for a query of this type, with these responses kept before and
  // after the upgrade.
  predicate Wrong(
    guess: set<string>, truth: set<string>, done: seq<Rule>, r: Rule, t: string,
    kept: Option<Response>, kept': Option<Response>, synced: bool, asked: bool)
    requires r.Rule?
  {
    && InStep(OPEN, done, QueryFor(r, t), kept, kept', synced, asked)
    && !StepKeeps(OPEN, guess, truth, done, r, QueryFor(r, t), kept, kept', synced, asked)
  }

  // A rule that is no address filter decided other queries without a response and now
  // waits for one.
  lemma HarmfulIsWrong(
    guess: set<string>, truth: set<string>, done: seq<Rule>, r: Rule, t: string, synced: bool, asked: bool)
    requires Upgradable(r, guess) && !IsEvaluate(r) && !AddressFilter(r, truth)
    requires Covers(r.queryType, t) && t !in ADDRESS_QUERY_TYPES
    ensures Wrong(guess, truth, done, r, t, None, None, synced, asked)
  {
    var q := QueryFor(r, t);
    QueryForHolds(r, t, None);
    OneRule(OPEN, truth, r, q, None);
    PieceChooses(OPEN, guess, truth, done, r, q, None);
  }

  // Without a response of its server it cannot decide an address query.
  lemma UnsharedIsWrong(
    guess: set<string>, truth: set<string>, done: seq<Rule>, r: Rule, t: string, synced: bool, asked: bool)
    requires Upgradable(r, guess) && !IsEvaluate(r) && EndsWithEvaluate(done, r.server)
    requires t in ADDRESS_QUERY_TYPES && Covers(r.queryType, t)
    requires !PlainEvaluate(done[|done| - 1]) || !Covers(done[|done| - 1].queryType, t)
    ensures Wrong(guess, truth, done, r, t, None, None, synced, asked)
  {
    var q := QueryFor(r, t);
    QueryForHolds(r, t, None);
    QueryForHolds(r, t, Some(0));
    OneRule(OPEN, truth, r, q, None);
    PieceChooses(OPEN, guess, truth, done, r, q, None);
  }

  // With a response it decides queries an address filter does not apply to.
  lemma UntypedIsWrong(
    guess: set<string>, truth: set<string>, done: seq<Rule>, r: Rule, t: string, synced: bool)
    requires Upgradable(r, guess) && !IsEvaluate(r) && AddressFilter(r, truth)
    requires r.queryType.Some? && t in r.queryType.value && t !in ADDRESS_QUERY_TYPES
    ensures Wrong(guess, truth, done, r, t, Some(0), Some(0), synced, true)
  {
    var q := QueryFor(r, t);
    QueryForHolds(Marked(r), t, Some(0));
    OneRule(OPEN, truth, r, q, Some(0));
    PieceChooses(OPEN, guess, truth, done, r, q, Some(0));
  }

  // An evaluate that is upgraded and had no types keeps nothing for other queries any
  // more.
  lemma EvaluateIsWrong(
    guess: set<string>, truth: set<string>, done: seq<Rule>, r: Rule, synced: bool, asked: bool)
    requires Upgradable(r, guess) && IsEvaluate(r) && r.queryType == None
    ensures Wrong(guess, truth, done, r, "TXT", None, None, synced, asked)
  {
    var q := QueryFor(r, "TXT");
    QueryForHolds(r, "TXT", None);
    OneRule(OPEN, truth, r, q, None);
    PieceChooses(OPEN, guess, truth, done, r, q, None);
  }

  // A match_response rule sees a response that was not there.
  lemma UnsyncedIsWrong(
    guess: set<string>, truth: set<string>, done: seq<Rule>, r: Rule, t: string, asked: bool)
    requires r.Rule? && Enabled(r.matchResponse) && !IsEvaluate(r)
    requires t in ADDRESS_QUERY_TYPES && Covers(r.queryType, t)
    ensures exists kept' :: Wrong(guess, truth, done, r, t, None, kept', false, asked)
  {
    var q, answer: Option<Response> := QueryFor(r, t), Some(0);
    QueryForHolds(r, t, answer);
    OneRule(OPEN, truth, r, q, None);
    OneRule(OPEN, truth, r, q, answer);
    assert Wrong(guess, truth, done, r, t, None, answer, false, asked);
  }

  lemma UnsafeUpgradeIsWrong(
    guess: set<string>, truth: set<string>, done: seq<Rule>, r: Rule, synced: bool, asked: bool)
    returns (t: string, kept: Option<Response>)
    requires Upgradable(r, guess) && !SafeUpgrade(truth, done, r, asked)
    ensures Wrong(guess, truth, done, r, t, kept, kept, synced, asked)
  {
    t, kept := "TXT", None;
    if IsEvaluate(r) {
      EvaluateIsWrong(guess, truth, done, r, synced, asked);
    } else if !Harmless(r, truth) {
      if r.queryType.Some? {
        t :| t in r.queryType.value && t !in ADDRESS_QUERY_TYPES;
      }
      HarmfulIsWrong(guess, truth, done, r, t, synced, asked);
    } else if !AddressTypesOnly(r) && asked {
      t :| t in r.queryType.value && t !in ADDRESS_QUERY_TYPES;
      kept := Some(0);
      UntypedIsWrong(guess, truth, done, r, t, synced);
    } else {
      t :| t in ADDRESS_QUERY_TYPES && Covers(r.queryType, t)
        && (!PlainEvaluate(done[|done| - 1]) || !Covers(done[|done| - 1].queryType, t));
      UnsharedIsWrong(guess, truth, done, r, t, synced, asked);
    }
  }

  ghost predicate AlwaysKeeps(
    guess: set<string>, truth: set<string>, done: seq<Rule>, r: Rule, synced: bool, asked: bool)
  {
    forall env, q, kept, kept' | Sensible(env, truth) && InStep(env, done, q, kept, kept', synced, asked) ::
      StepKeeps(env, guess, truth, done, r, q, kept, kept', synced, asked)
  }

  // The steps that are called safe are exactly those that keep every decision and the
  // responses in step, for all rule-sets, answers and queries and whatever is kept.
  lemma SafeStepsExactly(
    guess: set<string>, truth: set<string>, done: seq<Rule>, r: Rule, synced: bool, asked: bool)
    ensures AlwaysKeeps(guess, truth, done, r, synced, asked) <==> StepSafe(guess, truth, done, r, synced, asked)
  {
    if StepSafe(guess, truth, done, r, synced, asked) {
      forall env, q, kept, kept' | Sensible(env, truth) && InStep(env, done, q, kept, kept', synced, asked)
        ensures StepKeeps(env, guess, truth, done, r, q, kept, kept', synced, asked)
      {
        SafeStepKeeps(env, guess, truth, done, r, q, kept, kept', synced, asked);
      }
    } else if Upgradable(r, guess) {
      var t, kept := UnsafeUpgradeIsWrong(guess, truth, done, r, synced, asked);
      assert Sensible(OPEN, truth) && Wrong(guess, truth, done, r, t, kept, kept, synced, asked);
    } else {
      var t :| t in ADDRESS_QUERY_TYPES && Covers(r.queryType, t);
      UnsyncedIsWrong(guess, truth, done, r, t, asked);
      assert Sensible(OPEN, truth);
    }
  }
}
