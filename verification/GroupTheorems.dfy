// What the cleanup of the groups achieves.
module GroupTheorems {
  import opened Wrappers
  import opened TranslationState
  import opened Groups
  import Text

  // ---------------------------------------------------------------------
  // One pass with the final names does what all passes do
  // ---------------------------------------------------------------------

  lemma CleanedTwice(g: Group, wide: set<string>, ok: set<string>)
    requires ok <= wide && !Empties(g, wide)
    ensures Empties(Cleaned(g, wide), ok) == Empties(g, ok)
    ensures !Empties(g, ok) ==> Cleaned(Cleaned(g, wide), ok) == Cleaned(g, ok)
  {
    KeepKeep(g.members, wide, ok);
    var first := Keep(g.members, wide)[0];
    if first in ok {
      KeepFirst(g.members, wide, ok);
    }
  }

  lemma {:induction false} PassTwice(groups: seq<Group>, wide: set<string>, ok: set<string>)
    requires ok <= wide
    ensures Pass(Pass(groups, wide), ok) == Pass(groups, ok)
  {
    if groups == [] {
    } else {
      var rest := Pass(groups[1..], wide);
      PassTwice(groups[1..], wide, ok);
      KeepKeep(groups[0].members, wide, ok);
      if Empties(groups[0], wide) {
        assert [] + rest == rest;
      } else {
        CleanedTwice(groups[0], wide, ok);
        assert ([Cleaned(groups[0], wide)] + rest)[1..] == rest;
      }
    }
  }

  lemma {:induction false} FullPassDropsNone(groups: seq<Group>, valid: set<string>)
    requires |Pass(groups, valid)| == |groups|
    ensures forall g | g in groups :: !Empties(g, valid)
  {
    if groups != [] {
      FullPassDropsNone(groups[1..], valid);
    }
  }

  lemma {:induction false} CleanUpIsOnePass(groups: seq<Group>, translated: set<string>, proxyTags: set<string>)
    ensures
      var out := CleanUp(groups, translated, proxyTags);
      && out.translated <= translated
      && out.groups == Pass(groups, Known(proxyTags, out.translated))
    decreases |groups|
  {
    var valid := Known(proxyTags, translated);
    var kept := Pass(groups, valid);
    if |kept| == |groups| {
      FullPassDropsNone(groups, valid);
      assert translated - DroppedTags(groups, valid) == translated;
    } else {
      CleanUpIsOnePass(kept, translated - DroppedTags(groups, valid), proxyTags);
      PassTwice(groups, valid, Known(proxyTags, CleanUp(groups, translated, proxyTags).translated));
    }
  }

  lemma {:induction false} PassMembers(groups: seq<Group>, valid: set<string>)
    ensures forall g | g in groups && !Empties(g, valid) :: Cleaned(g, valid) in Pass(groups, valid)
    ensures forall c | c in Pass(groups, valid) ::
      exists g | g in groups :: !Empties(g, valid) && c == Cleaned(g, valid)
  {
    if groups != [] {
      PassMembers(groups[1..], valid);
      var rest := Pass(groups[1..], valid);
      assert Pass(groups, valid) ==
        (if Empties(groups[0], valid) then [] else [Cleaned(groups[0], valid)]) + rest;
      assert forall g | g in groups :: g == groups[0] || g in groups[1..];
    }
  }

  // ---------------------------------------------------------------------
  // The survivors
  // ---------------------------------------------------------------------

  // Some group has this name, and every group that has it keeps a member.
  predicate KeepsMember(groups: seq<Group>, name: string, valid: set<string>) {
    name in GroupTagSet(groups) && forall g | g in groups && g.tag == name :: !Empties(g, valid)
  }

  // Names that support each other: each keeps a member that is a proxy, DIRECT or
  // another of these names.
  predicate Supported(groups: seq<Group>, proxyTags: set<string>, names: set<string>) {
    forall n | n in names :: KeepsMember(groups, n, Known(proxyTags, names))
  }

  function Survivors(groups: seq<Group>, proxyTags: set<string>): set<string> {
    CleanUp(groups, GroupTagSet(groups), proxyTags).translated
  }

  // A name dropped neither now nor, in the shortened list, later.
  lemma KeepsMemberBefore(groups: seq<Group>, name: string, wide: set<string>, ok: set<string>)
    requires ok <= wide && KeepsMember(Pass(groups, wide), name, ok) && name !in DroppedTags(groups, wide)
    ensures KeepsMember(groups, name, ok)
  {
    PassMembers(groups, wide);
    forall g | g in groups && g.tag == name ensures !Empties(g, ok) {
      assert !Empties(g, wide);
      assert Cleaned(g, wide) in Pass(groups, wide);
      CleanedTwice(g, wide, ok);
    }
  }

  lemma KeepsMemberAfter(groups: seq<Group>, name: string, wide: set<string>, ok: set<string>)
    requires ok <= wide && KeepsMember(groups, name, ok)
    ensures KeepsMember(Pass(groups, wide), name, ok) && name !in DroppedTags(groups, wide)
  {
    PassMembers(groups, wide);
    forall g | g in groups && g.tag == name ensures !Empties(g, wide) && !Empties(Cleaned(g, wide), ok) {
      KeepKeep(g.members, wide, ok);
    }
    var g :| g in groups && g.tag == name;
    assert Cleaned(g, wide) in Pass(groups, wide);
  }

  lemma {:induction false} SurvivorsSupported(groups: seq<Group>, translated: set<string>, proxyTags: set<string>)
    requires translated <= GroupTagSet(groups)
    ensures Supported(groups, proxyTags, CleanUp(groups, translated, proxyTags).translated)
    decreases |groups|
  {
    var valid := Known(proxyTags, translated);
    var kept, out := Pass(groups, valid), CleanUp(groups, translated, proxyTags).translated;
    if |kept| == |groups| {
      FullPassDropsNone(groups, valid);
      assert translated - DroppedTags(groups, valid) == translated;
    } else {
      var left := translated - DroppedTags(groups, valid);
      PassMembers(groups, valid);
      forall n | n in left ensures n in GroupTagSet(kept) {
        var g :| g in groups && g.tag == n;
        assert Cleaned(g, valid) in kept;
      }
      SurvivorsSupported(kept, left, proxyTags);
      CleanUpIsOnePass(kept, left, proxyTags);
      forall n | n in out ensures KeepsMember(groups, n, Known(proxyTags, out)) {
        KeepsMemberBefore(groups, n, valid, Known(proxyTags, out));
      }
    }
  }

  lemma {:induction false} SupportedSurvive(
    groups: seq<Group>, translated: set<string>, proxyTags: set<string>, names: set<string>)
    requires names <= translated && Supported(groups, proxyTags, names)
    ensures names <= CleanUp(groups, translated, proxyTags).translated
    decreases |groups|
  {
    var valid := Known(proxyTags, translated);
    var kept := Pass(groups, valid);
    forall n | n in names
      ensures KeepsMember(kept, n, Known(proxyTags, names)) && n !in DroppedTags(groups, valid)
    {
      KeepsMemberAfter(groups, n, valid, Known(proxyTags, names));
    }
    if |kept| != |groups| {
      SupportedSurvive(kept, translated - DroppedTags(groups, valid), proxyTags, names);
    }
  }

  lemma SupportedNamesAreTags(groups: seq<Group>, proxyTags: set<string>, names: set<string>)
    requires Supported(groups, proxyTags, names)
    ensures names <= GroupTagSet(groups)
  {
    forall n | n in names ensures n in GroupTagSet(groups) {
      assert KeepsMember(groups, n, Known(proxyTags, names));
    }
  }

  // What the passes compute: the greatest set of names that support each other, and
  // the original groups in their order, filtered by it once.
  lemma SurvivorsAreGreatest(groups: seq<Group>, proxyTags: set<string>)
    ensures Supported(groups, proxyTags, Survivors(groups, proxyTags))
    ensures forall names | Supported(groups, proxyTags, names) :: names <= Survivors(groups, proxyTags)
    ensures CleanUp(groups, GroupTagSet(groups), proxyTags).groups
         == Pass(groups, Known(proxyTags, Survivors(groups, proxyTags)))
  {
    SurvivorsSupported(groups, GroupTagSet(groups), proxyTags);
    CleanUpIsOnePass(groups, GroupTagSet(groups), proxyTags);
    forall names | Supported(groups, proxyTags, names) ensures names <= Survivors(groups, proxyTags) {
      SupportedNamesAreTags(groups, proxyTags, names);
      SupportedSurvive(groups, GroupTagSet(groups), proxyTags, names);
    }
  }

  lemma SupportIgnoresOrder(groups: seq<Group>, other: seq<Group>, proxyTags: set<string>, names: set<string>)
    requires (forall g :: g in groups <==> g in other) && Supported(groups, proxyTags, names)
    ensures Supported(other, proxyTags, names)
  {
    forall n | n in names ensures KeepsMember(other, n, Known(proxyTags, names)) {
      assert KeepsMember(groups, n, Known(proxyTags, names));
    }
  }

  // Which groups survive does not depend on the order of the groups.
  lemma SurvivorsIgnoreOrder(groups: seq<Group>, other: seq<Group>, proxyTags: set<string>)
    requires forall g :: g in groups <==> g in other
    ensures Survivors(groups, proxyTags) == Survivors(other, proxyTags)
  {
    SurvivorsAreGreatest(groups, proxyTags);
    SurvivorsAreGreatest(other, proxyTags);
    SupportIgnoresOrder(groups, other, proxyTags, Survivors(groups, proxyTags));
    SupportIgnoresOrder(other, groups, proxyTags, Survivors(other, proxyTags));
  }

  // ---------------------------------------------------------------------
  // The translated groups
  // ---------------------------------------------------------------------

  // A survivor is the tag of an emitted group, and an emitted group names only
  // proxies, survivors and DIRECT, and at least one of them.
  lemma CleanedGroupsAreClosed(groups: seq<Group>, proxyTags: set<string>)
    ensures
      var out := CleanUp(groups, GroupTagSet(groups), proxyTags);
      && out.translated <= GroupTagSet(out.groups)
      && (forall g | g in out.groups ::
            g.members != [] && forall m | m in g.members :: m in Known(proxyTags, out.translated))
  {
    var out := CleanUp(groups, GroupTagSet(groups), proxyTags);
    var valid := Known(proxyTags, out.translated);
    SurvivorsAreGreatest(groups, proxyTags);
    PassMembers(groups, valid);
    forall n | n in out.translated ensures n in GroupTagSet(out.groups) {
      assert KeepsMember(groups, n, valid);
      var g :| g in groups && g.tag == n;
      assert Cleaned(g, valid) in out.groups;
    }
    forall g | g in out.groups ensures g.members != [] && forall m | m in g.members :: m in valid {
      var g' :| g' in groups && !Empties(g', valid) && g == Cleaned(g', valid);
      KeepMembers(g'.members, valid);
    }
  }

  predicate DistinctTags(groups: seq<Group>) {
    forall i, j | 0 <= i < j < |groups| :: groups[i].tag != groups[j].tag
  }

  lemma {:induction false} PassTags(groups: seq<Group>, valid: set<string>)
    requires DistinctTags(groups)
    ensures DistinctTags(Pass(groups, valid))
    ensures GroupTagSet(Pass(groups, valid)) <= GroupTagSet(groups) - DroppedTags(groups, valid)
  {
    if groups == [] {
    } else {
      PassMembers(groups, valid);
      PassTags(groups[1..], valid);
      assert GroupTagSet(groups[1..]) <= GroupTagSet(groups) by {
        assert forall g | g in groups[1..] :: g in groups;
      }
      forall n | n in GroupTagSet(Pass(groups, valid)) ensures n !in DroppedTags(groups, valid) {
        var c :| c in Pass(groups, valid) && c.tag == n;
        var g :| g in groups && !Empties(g, valid) && c == Cleaned(g, valid);
      }
      forall c | c in Pass(groups[1..], valid) ensures c.tag != groups[0].tag {
        assert c.tag in GroupTagSet(Pass(groups[1..], valid));
        assert c.tag in GroupTagSet(groups[1..]);
      }
    }
  }

  // With distinct names the survivors are exactly the tags of the emitted groups.
  lemma {:induction false} DistinctNamesSurviveExactly(
    groups: seq<Group>, translated: set<string>, proxyTags: set<string>)
    requires DistinctTags(groups) && GroupTagSet(groups) == translated
    ensures
      var out := CleanUp(groups, translated, proxyTags);
      DistinctTags(out.groups) && GroupTagSet(out.groups) == out.translated
    decreases |groups|
  {
    var valid := Known(proxyTags, translated);
    var kept, left := Pass(groups, valid), translated - DroppedTags(groups, valid);
    PassTags(groups, valid);
    PassMembers(groups, valid);
    forall n | n in left ensures n in GroupTagSet(kept) {
      var g :| g in groups && g.tag == n;
      assert Cleaned(g, valid) in kept;
    }
    if |kept| != |groups| {
      DistinctNamesSurviveExactly(kept, left, proxyTags);
    }
  }

  // A selector starts on its first member.
  predicate StartsOnFirst(g: Group) {
    if g.kind == "selector" then g.members != [] && g.chosen == Some(g.members[0])
    else g.chosen == None
  }

  lemma CleanedStartsOnFirst(g: Group, valid: set<string>)
    requires !Empties(g, valid) && StartsOnFirst(g)
    ensures StartsOnFirst(Cleaned(g, valid))
  {
    if g.kind == "selector" && g.members[0] in valid {
      assert Keep(g.members, valid)[0] == g.members[0];
    }
  }

  // The interval and the idle timeout of a url-test or fallback group, read back.
  predicate SaneProbe(p: Probe) {
    && Text.ParseParts(p.interval).Some? && Text.ParseParts(p.idleTimeout).Some?
    && var interval, idle := Text.TotalSeconds(Text.ParseParts(p.interval).value),
                             Text.TotalSeconds(Text.ParseParts(p.idleTimeout).value);
    && 1 <= interval <= 1800 && 2 * interval <= idle && 1800 <= idle <= 3600
    && (p.tolerance.None? || 1 <= p.tolerance.value <= 65535)
  }

  predicate WellMade(g: Group) {
    StartsOnFirst(g) && (g.probe.Some? ==> SaneProbe(g.probe.value))
    && (g.probe.Some? <==> g.kind == "urltest") && (g.kind == "urltest" || g.kind == "selector")
  }

  lemma ProbesAreSane(name: string, proxies: seq<string>, g: RawGroup, tolerance: Option<int>)
    requires tolerance.None? || 1 <= tolerance.value <= 65535
    ensures WellMade(TestGroup(name, proxies, g, tolerance))
  {
    Text.DurationReadsBack(Interval(g));
    Text.DurationReadsBack(IdleTimeout(Interval(g)));
  }

  lemma {:induction false} MadeWell(gs: seq<RawGroup>, known: set<string>, dead: set<string>)
    ensures forall g | g in MadeAll(gs, known, dead) :: WellMade(g)
  {
    if gs != [] {
      MadeWell(gs[1..], known, dead);
      var rest := MadeAll(gs[1..], known, dead);
      match Made(gs[0], known, dead) {
        case None => assert [] + rest == rest;
        case Some(g) =>
          var names := Healthy(Keep(Names(gs[0].proxies), known), dead);
          if g.kind == "urltest" {
            ProbesAreSane(gs[0].name, names, gs[0],
              if gs[0].kind == "fallback" then Some(FALLBACK_TOLERANCE) else Tolerance(gs[0]));
          }
          assert forall m | m in [g] + rest :: m == g || m in rest;
      }
    }
  }

  // Every group of the output: a selector starts on its first member, a url-test
  // group has an interval between a second and half an hour and an idle timeout at
  // least twice as long.
  lemma GroupsAreWellMade(gs: seq<RawGroup>, proxyTags: set<string>, dead: set<string>)
    ensures forall g | g in Outcome(gs, proxyTags, {}, dead).groups :: WellMade(g)
  {
    var made := MadeAll(gs, Known(proxyTags, {} + NameSet(gs)), dead);
    var out := Outcome(gs, proxyTags, {}, dead);
    var valid := Known(proxyTags, out.translated);
    MadeWell(gs, Known(proxyTags, {} + NameSet(gs)), dead);
    CleanUpIsOnePass(made, GroupTagSet(made), proxyTags);
    PassMembers(made, valid);
    forall g | g in out.groups ensures WellMade(g) {
      var g' :| g' in made && !Empties(g', valid) && g == Cleaned(g', valid);
      CleanedStartsOnFirst(g', valid);
    }
  }

  predicate Alive(g: Group, dead: set<string>) {
    g.kind == "urltest" ==> forall m | m in g.members :: m !in dead
  }

  lemma {:induction false} MadeAlive(gs: seq<RawGroup>, known: set<string>, dead: set<string>)
    ensures forall g | g in MadeAll(gs, known, dead) :: Alive(g, dead)
  {
    if gs != [] {
      MadeAlive(gs[1..], known, dead);
      var first := Made(gs[0], known, dead);
      HealthyMembers(Keep(Names(gs[0].proxies), known), dead);
      assert first.Some? ==> Alive(first.value, dead);
      assert MadeAll(gs, known, dead) == Listed(first) + MadeAll(gs[1..], known, dead);
    }
  }

  // No group that is health-checked holds a proxy that can never pass.
  lemma NoDeadMembers(gs: seq<RawGroup>, proxyTags: set<string>, dead: set<string>)
    ensures forall g | g in Outcome(gs, proxyTags, {}, dead).groups :: Alive(g, dead)
  {
    var made := MadeAll(gs, Known(proxyTags, {} + NameSet(gs)), dead);
    var out := Outcome(gs, proxyTags, {}, dead);
    var valid := Known(proxyTags, out.translated);
    MadeAlive(gs, Known(proxyTags, {} + NameSet(gs)), dead);
    CleanUpIsOnePass(made, GroupTagSet(made), proxyTags);
    PassMembers(made, valid);
    forall g | g in out.groups ensures Alive(g, dead) {
      var g' :| g' in made && !Empties(g', valid) && g == Cleaned(g', valid);
      KeepMembers(g'.members, valid);
    }
  }
}
