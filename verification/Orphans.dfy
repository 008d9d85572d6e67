// What is left of rules about rule-sets that are not defined.
module Orphans {
  import opened Wrappers
  import opened TranslationState
  import opened RouteTable
  import opened Assemble
  import DnsTable

  predicate AnyOf(tags: seq<string>, defined: set<string>) {
    exists tag | tag in tags :: tag in defined
  }

  predicate AllOf(tags: seq<string>, defined: set<string>) {
    forall tag | tag in tags :: tag in defined
  }

  lemma KeepIsEmpty(tags: seq<string>, defined: set<string>)
    ensures Keep(tags, defined) == [] <==> !AnyOf(tags, defined)
    ensures AllOf(Keep(tags, defined), defined)
  {
    KeepMembers(tags, defined);
    if Keep(tags, defined) != [] {
      assert Keep(tags, defined)[0] in Keep(tags, defined);
    }
  }

  // ---------------------------------------------------------------------
  // Route rules
  // ---------------------------------------------------------------------

  // The conditions of a rule that name rule-sets.
  function Conditions(r: RouteRule): seq<Cond> {
    match r
    case Plain(cond, _, _) => [cond]
    case Logical(_, subs, _, _) => subs
  }

  predicate Defined(r: RouteRule, defined: set<string>) {
    forall c | c in Conditions(r) :: AllOf(c.ruleSets, defined)
  }

  lemma {:induction false} NoOrphanConditions(subs: seq<Cond>, defined: set<string>)
    ensures forall c | c in PruneSubs(subs, defined) :: AllOf(c.ruleSets, defined)
  {
    if subs != [] {
      KeepIsEmpty(subs[0].ruleSets, defined);
      NoOrphanConditions(subs[1..], defined);
    }
  }

  // Whatever the rules, none that is left names a rule-set that is not defined, in a
  // condition of its own or of an inner rule.
  lemma {:induction false} NoOrphansLeft(rules: seq<RouteRule>, defined: set<string>)
    ensures forall r | r in PruneRules(rules, defined) :: Defined(r, defined)
  {
    if rules != [] {
      match rules[0] {
        case Plain(cond, _, _) => KeepIsEmpty(cond.ruleSets, defined);
        case Logical(_, subs, _, _) => NoOrphanConditions(subs, defined);
      }
      NoOrphansLeft(rules[1..], defined);
    }
  }

  // Only a plain rule goes as a whole: one that names rule-sets of which none is
  // defined. The tags that are left stay in their order.
  lemma OrphansGo(cond: Cond, outbound: Option<string>, action: Option<string>, defined: set<string>)
    ensures
      PruneRules([Plain(cond, outbound, action)], defined)
      == if cond.ruleSets != [] && !AnyOf(cond.ruleSets, defined) then []
         else [Plain(Cond(cond.clashMode, Keep(cond.ruleSets, defined), cond.test), outbound, action)]
  {
    KeepIsEmpty(cond.ruleSets, defined);
    assert [Plain(cond, outbound, action)][1..] == [];
  }

  // A logical rule stays, without the inner rules that go.
  lemma LogicalRulesStay(
    mode: string, subs: seq<Cond>, outbound: Option<string>, action: Option<string>, defined: set<string>)
    ensures
      var rules := PruneRules([Logical(mode, subs, outbound, action)], defined);
      && |rules| == 1 && rules[0].Logical? && IsLeft(subs, rules[0].subs, defined)
      && rules[0] == Logical(mode, rules[0].subs, outbound, action)
  {
    assert [Logical(mode, subs, outbound, action)][1..] == [];
    SubsLeft(subs, defined);
    assert PruneRules([Logical(mode, subs, outbound, action)], defined)
        == [Logical(mode, PruneSubs(subs, defined), outbound, action)];
  }

  // The inner rules that are left, one by one.
  predicate IsLeft(subs: seq<Cond>, left: seq<Cond>, defined: set<string>) {
    if subs == [] then left == []
    else if subs[0].ruleSets != [] && !AnyOf(subs[0].ruleSets, defined) then IsLeft(subs[1..], left, defined)
    else
      && left != [] && left[0] == Cond(subs[0].clashMode, Keep(subs[0].ruleSets, defined), subs[0].test)
      && IsLeft(subs[1..], left[1..], defined)
  }

  lemma {:induction false} SubsLeft(subs: seq<Cond>, defined: set<string>)
    ensures IsLeft(subs, PruneSubs(subs, defined), defined)
  {
    if subs != [] {
      var rest := PruneSubs(subs[1..], defined);
      KeepIsEmpty(subs[0].ruleSets, defined);
      SubsLeft(subs[1..], defined);
      assert [] + rest == rest && ([Pruned(subs[0], defined)] + rest)[1..] == rest;
    }
  }

  lemma {:induction false} PrunesOneByOne(a: seq<RouteRule>, b: seq<RouteRule>, defined: set<string>)
    ensures PruneRules(a + b, defined) == PruneRules(a, defined) + PruneRules(b, defined)
  {
    if a == [] {
      assert a + b == b;
    } else {
      assert (a + b)[0] == a[0] && (a + b)[1..] == a[1..] + b;
      PrunesOneByOne(a[1..], b, defined);
    }
  }

  // ---------------------------------------------------------------------
  // DNS rules
  // ---------------------------------------------------------------------

  // Of DNS rules those with a list of rule-sets are looked at; none that is left names
  // a rule-set in it that is not defined.
  lemma {:induction false} NoDnsOrphansLeft(rules: seq<DnsTable.Rule>, defined: set<string>)
    ensures forall r | r in PruneDnsRules(rules, defined) && r.Rule? && r.ruleSets.Many? ::
      AllOf(r.ruleSets.tags, defined)
  {
    if rules != [] {
      if rules[0].Rule? && rules[0].ruleSets.Many? {
        KeepIsEmpty(rules[0].ruleSets.tags, defined);
      }
      NoDnsOrphansLeft(rules[1..], defined);
    }
  }

  // A rule goes if it has a list of which nothing is left; any other keeps all it has
  // but the tags that are not defined.
  lemma DnsOrphansGo(r: DnsTable.Rule, defined: set<string>)
    ensures
      PruneDnsRules([r], defined)
      == if r.NotARule? || !r.ruleSets.Many? then [r]
         else if r.ruleSets.tags != [] && !AnyOf(r.ruleSets.tags, defined) then []
         else [r.(ruleSets := DnsTable.Many(Keep(r.ruleSets.tags, defined)))]
  {
    if r.Rule? && r.ruleSets.Many? {
      KeepIsEmpty(r.ruleSets.tags, defined);
    }
    assert [r][1..] == [];
  }

  lemma {:induction false} DnsPrunesOneByOne(a: seq<DnsTable.Rule>, b: seq<DnsTable.Rule>, defined: set<string>)
    ensures PruneDnsRules(a + b, defined) == PruneDnsRules(a, defined) + PruneDnsRules(b, defined)
  {
    if a == [] {
      assert a + b == b;
    } else {
      assert (a + b)[0] == a[0] && (a + b)[1..] == a[1..] + b;
      DnsPrunesOneByOne(a[1..], b, defined);
    }
  }
}
