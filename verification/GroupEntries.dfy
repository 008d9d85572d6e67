// What comes out of each entry of proxy-groups, field by field.
module GroupEntries {
  import opened Wrappers
  import opened TranslationState
  import opened Groups
  import opened GroupTheorems
  import opened Proxies
  import opened OutboundTheorems
  import Text

  function AtMost(n: int, limit: int): int {
    if n < limit then n else limit
  }

  // A duration of so many seconds.
  predicate Reads(text: string, seconds: int) {
    Text.ParseParts(text).Some? && Text.TotalSeconds(Text.ParseParts(text).value) == seconds
  }

  // The seconds between two tests of an entry.
  predicate TestedEvery(g: RawGroup, seconds: int) {
    if g.interval.Some? && g.interval.value > 0 then seconds == AtMost(g.interval.value, 1800) else seconds == 180
  }

  predicate ToleranceOf(g: RawGroup, tolerance: Option<int>) {
    if g.kind == "fallback" then tolerance == Some(10000)
    else if g.tolerance.Some? && g.tolerance.value > 0 then tolerance == Some(AtMost(g.tolerance.value, 65535))
    else tolerance == None
  }

  ghost predicate ProbedAs(g: RawGroup, probe: Probe) {
    && ToleranceOf(g, probe.tolerance)
    && exists every :: TestedEvery(g, every) && Reads(probe.interval, every)
         && Reads(probe.idleTimeout, if 2 * every < 1800 then 1800 else 2 * every)
  }

  // A group made from an entry: of its name, with the names it lists that are valid, in
  // their order; tested groups without the dead ones.
  ghost predicate MadeFrom(g: RawGroup, out: Group, valid: set<string>, dead: set<string>) {
    && out.tag == g.name && out.members != []
    && (if g.kind == "select" || g.kind == "load-balance" then
          && out.kind == "selector" && out.probe == None && out.chosen == Some(out.members[0])
          && out.members == Keep(Names(g.proxies), valid)
        else
          && (g.kind == "url-test" || g.kind == "fallback")
          && out.kind == "urltest" && out.chosen == None && out.probe.Some? && ProbedAs(g, out.probe.value)
          && out.members == Healthy(Keep(Names(g.proxies), valid), dead))
  }

  // The entries that last, in their order.
  function Lasting(gs: seq<RawGroup>, valid: set<string>, dead: set<string>): seq<RawGroup> {
    if gs == [] then [] else (if Lasts(gs[0], valid, dead) then [gs[0]] else []) + Lasting(gs[1..], valid, dead)
  }

  lemma {:induction false} KeepHealthy(names: seq<string>, known: set<string>, valid: set<string>, dead: set<string>)
    requires valid <= known
    ensures Keep(Healthy(Keep(names, known), dead), valid) == Healthy(Keep(names, valid), dead)
  {
    if names != [] {
      KeepHealthy(names[1..], known, valid, dead);
      KeepAppend([names[0]], Healthy(Keep(names[1..], known), dead), valid);
      HealthyAppend([names[0]], Keep(names[1..], known), dead);
      HealthyAppend([names[0]], Keep(names[1..], valid), dead);
      assert [names[0]][1..] == [];
      assert forall s: seq<string> :: [] + s == s;
    }
  }

  lemma {:induction false} KeepAppend(a: seq<string>, b: seq<string>, ok: set<string>)
    ensures Keep(a + b, ok) == Keep(a, ok) + Keep(b, ok)
  {
    if a == [] {
      assert a + b == b;
    } else {
      assert (a + b)[0] == a[0] && (a + b)[1..] == a[1..] + b;
      KeepAppend(a[1..], b, ok);
    }
  }

  lemma {:induction false} HealthyAppend(a: seq<string>, b: seq<string>, dead: set<string>)
    ensures Healthy(a + b, dead) == Healthy(a, dead) + Healthy(b, dead)
  {
    if a == [] {
      assert a + b == b;
    } else {
      assert (a + b)[0] == a[0] && (a + b)[1..] == a[1..] + b;
      HealthyAppend(a[1..], b, dead);
    }
  }

  lemma {:induction false} NamesAppend(a: seq<Option<string>>, b: seq<Option<string>>)
    ensures Names(a + b) == Names(a) + Names(b)
  {
    if a == [] {
      assert a + b == b;
    } else {
      assert (a + b)[0] == a[0] && (a + b)[1..] == a[1..] + b;
      NamesAppend(a[1..], b);
    }
  }

  lemma OneMember(p: Option<string>, valid: set<string>, dead: set<string>)
    ensures Keep(Names([p]), valid) == if p.Some? && p.value in valid then [p.value] else []
    ensures Healthy(Keep(Names([p]), valid), dead)
         == if p.Some? && p.value in valid && p.value !in dead then [p.value] else []
  {
    assert [p][1..] == [] && Names([p]) == if p.Some? then [p.value] else [];
    if p.Some? {
      assert [p.value][1..] == [];
    }
  }

  // Wherever it stands in the list of an entry, a name becomes a member at its place if it
  // is valid, and in a tested group not dead; what is no string, and any other name, is
  // left out.
  lemma MembersInOrder(
    front: seq<Option<string>>, p: Option<string>, back: seq<Option<string>>, valid: set<string>, dead: set<string>)
    ensures Keep(Names(front + [p] + back), valid)
         == Keep(Names(front), valid) + (if p.Some? && p.value in valid then [p.value] else [])
            + Keep(Names(back), valid)
    ensures Healthy(Keep(Names(front + [p] + back), valid), dead)
         == Healthy(Keep(Names(front), valid), dead)
            + (if p.Some? && p.value in valid && p.value !in dead then [p.value] else [])
            + Healthy(Keep(Names(back), valid), dead)
  {
    NamesAppend(front + [p], back);
    NamesAppend(front, [p]);
    KeepAppend(Names(front) + Names([p]), Names(back), valid);
    KeepAppend(Names(front), Names([p]), valid);
    HealthyAppend(Keep(Names(front), valid) + Keep(Names([p]), valid), Keep(Names(back), valid), dead);
    HealthyAppend(Keep(Names(front), valid), Keep(Names([p]), valid), dead);
    OneMember(p, valid, dead);
  }

  lemma DurationReads(seconds: int)
    requires seconds > 0
    ensures Reads(Text.Duration(seconds), seconds)
  {
    Text.DurationReadsBack(seconds);
  }

  lemma IntervalIs(g: RawGroup)
    ensures TestedEvery(g, Interval(g)) && 0 < Interval(g) <= 1800
    ensures IdleTimeout(Interval(g)) == if 2 * Interval(g) < 1800 then 1800 else 2 * Interval(g)
  {
  }

  lemma ToleranceIs(g: RawGroup)
    ensures ToleranceOf(g, if g.kind == "fallback" then Some(FALLBACK_TOLERANCE) else Tolerance(g))
  {
  }

  lemma ProbeIs(g: RawGroup, every: int, idle: int, tolerance: Option<int>)
    requires TestedEvery(g, every) && 0 < every && idle == (if 2 * every < 1800 then 1800 else 2 * every)
    requires ToleranceOf(g, tolerance)
    ensures ProbedAs(g, Probe(Text.Duration(every), Text.Duration(idle), tolerance))
  {
    DurationReads(every);
    DurationReads(idle);
  }

  lemma LastingIsMade(g: RawGroup, known: set<string>, valid: set<string>, dead: set<string>)
    requires valid <= known && Lasts(g, valid, dead)
    ensures Made(g, known, dead).Some? && !Empties(Made(g, known, dead).value, valid)
    ensures MadeFrom(g, Cleaned(Made(g, known, dead).value, valid), valid, dead)
  {
    LastsIs(g, known, valid, dead);
    var made, names := Made(g, known, dead).value, Names(g.proxies);
    if Selects(g) {
      KeepKeep(names, known, valid);
      CleanedStartsOnFirst(made, valid);
    } else {
      KeepHealthy(names, known, valid, dead);
      IntervalIs(g);
      ToleranceIs(g);
      ProbeIs(g, Interval(g), IdleTimeout(Interval(g)),
        if g.kind == "fallback" then Some(FALLBACK_TOLERANCE) else Tolerance(g));
    }
  }

  ghost predicate AllMadeFrom(gs: seq<RawGroup>, groups: seq<Group>, valid: set<string>, dead: set<string>) {
    |gs| == |groups| && forall i | 0 <= i < |gs| :: MadeFrom(gs[i], groups[i], valid, dead)
  }

  lemma {:induction false} PassMadeFrom(gs: seq<RawGroup>, known: set<string>, valid: set<string>, dead: set<string>)
    requires valid <= known
    ensures AllMadeFrom(Lasting(gs, valid, dead), Pass(MadeAll(gs, known, dead), valid), valid, dead)
  {
    if gs != [] {
      PassMadeFrom(gs[1..], known, valid, dead);
      LastsIs(gs[0], known, valid, dead);
      var made, rest := Made(gs[0], known, dead), MadeAll(gs[1..], known, dead);
      if made.None? {
        assert Listed(made) + rest == rest;
      } else {
        assert (Listed(made) + rest)[0] == made.value && (Listed(made) + rest)[1..] == rest;
        if Lasts(gs[0], valid, dead) {
          LastingIsMade(gs[0], known, valid, dead);
        }
      }
    }
  }

  // The groups of a configuration, unless default groups are made, are made one by one
  // from the entries that last, in their order.
  lemma GroupsAreMadeFromEntries(cfg: RawConfig, groups: seq<Group>, order: seq<string>)
    requires AreGroups(cfg, groups, order) && GroupNames(cfg) != {}
    ensures
      var valid, dead := ValidNames(cfg), DeadNames(cfg.proxies);
      AllMadeFrom(Lasting(cfg.groups, valid, dead), groups, valid, dead)
  {
    var tags, dead := ProxyNames(cfg.proxies), DeadNames(cfg.proxies);
    var known := Known(tags, {} + NameSet(cfg.groups));
    LeftNames(cfg);
    SurvivorsAreGreatest(MadeAll(cfg.groups, known, dead), tags);
    PassMadeFrom(cfg.groups, known, ValidNames(cfg), dead);
  }

  lemma {:induction false} NamesInOrder(gs: seq<RawGroup>, ok: set<string>)
    requires Keep(RawNames(gs), ok) != []
    ensures exists i | 0 <= i < |gs| ::
      && gs[i].name == Keep(RawNames(gs), ok)[0] && gs[i].name != "" && gs[i].name in ok
      && forall j | 0 <= j < i :: gs[j].name == "" || gs[j].name !in ok
  {
    var rest := RawNames(gs[1..]);
    if gs[0].name == "" || gs[0].name !in ok {
      assert gs[0].name == "" ==> [] + rest == rest;
      assert gs[0].name != "" ==> ([gs[0].name] + rest)[1..] == rest;
      NamesInOrder(gs[1..], ok);
      var i :| 0 <= i < |gs| - 1
        && gs[1..][i].name == Keep(rest, ok)[0] && gs[1..][i].name != "" && gs[1..][i].name in ok
        && forall j | 0 <= j < i :: gs[1..][j].name == "" || gs[1..][j].name !in ok;
      assert forall j | 0 < j <= i + 1 :: gs[j] == gs[1..][j - 1];
      assert gs[i + 1].name == Keep(RawNames(gs), ok)[0];
    }
  }

  // The group the traffic goes to is that of the first entry whose name comes out.
  lemma FirstGroupIs(cfg: RawConfig, groups: seq<Group>, order: seq<string>)
    requires AreGroups(cfg, groups, order) && GroupNames(cfg) != {}
    ensures exists i | 0 <= i < |cfg.groups| ::
      && cfg.groups[i].name == FirstOf(order) && cfg.groups[i].name != "" && cfg.groups[i].name in GroupNames(cfg)
      && forall j | 0 <= j < i :: cfg.groups[j].name == "" || cfg.groups[j].name !in GroupNames(cfg)
  {
    LeftNames(cfg);
    NamesInOrder(cfg.groups, GroupNames(cfg));
  }

  ghost predicate IsAuto(g: Group, members: seq<string>) {
    && g.kind == "urltest" && g.tag == "Auto" && g.members == members && g.chosen == None
    && g.probe.Some? && g.probe.value.tolerance == None
    && Reads(g.probe.value.interval, 180) && Reads(g.probe.value.idleTimeout, 1800)
  }

  ghost predicate IsProxy(g: Group, members: seq<string>) {
    members != [] && g == Group("selector", "PROXY", members, Some(members[0]), None)
  }

  lemma DefaultsAre(all: seq<string>, dead: set<string>)
    requires all != []
    ensures
      var groups := DefaultGroups(all, dead);
      if |Healthy(all, dead)| >= 2 then
        |groups| == 2 && IsAuto(groups[0], Healthy(all, dead)) && IsProxy(groups[1], ["Auto"] + all)
      else |groups| == 1 && IsProxy(groups[0], all)
  {
    DurationReads(180);
    DurationReads(1800);
  }

  // The default groups: PROXY to choose from everything, with Auto first if at least two
  // proxies can be tested, every three minutes.
  lemma DefaultGroupsAre(cfg: RawConfig, groups: seq<Group>, order: seq<string>)
    requires AreGroups(cfg, groups, order) && GroupNames(cfg) == {} && ProxyNames(cfg.proxies) != {}
    ensures order == ["PROXY"]
    ensures exists all | Lists(all, ProxyNames(cfg.proxies)) ::
      if HasAuto(cfg) then
        |groups| == 2 && IsAuto(groups[0], Healthy(all, DeadNames(cfg.proxies))) && IsProxy(groups[1], ["Auto"] + all)
      else |groups| == 1 && IsProxy(groups[0], all)
  {
    LeftNames(cfg);
    var tags, dead := ProxyNames(cfg.proxies), DeadNames(cfg.proxies);
    var all :| all != [] && Lists(all, tags) && groups == DefaultGroups(all, dead);
    HealthyCount(all, tags, dead);
    DefaultsAre(all, dead);
  }

  // No group that is tested holds a proxy that cannot pass, whether the groups are the
  // user's or the default ones.
  lemma TestedGroupsAreAlive(cfg: RawConfig, groups: seq<Group>, order: seq<string>)
    requires AreGroups(cfg, groups, order)
    ensures forall g, p |
      g in groups && g.kind == "urltest" && p in cfg.proxies && p.name != "" && p.name in g.members ::
      !p.deadServer && p.endpoint && p.node.Some?
  {
    var tags, dead := ProxyNames(cfg.proxies), DeadNames(cfg.proxies);
    LeftNames(cfg);
    NoDeadMembers(cfg.groups, tags, dead);
    forall g | g in groups && g.kind == "urltest" ensures forall m | m in g.members :: m !in dead {
      if GroupNames(cfg) == {} {
        var all :| all != [] && Lists(all, tags) && groups == DefaultGroups(all, dead);
        HealthyMembers(all, dead);
      }
    }
    forall g, p | g in groups && g.kind == "urltest" && p in cfg.proxies && p.name != "" && p.name in g.members
      ensures !p.deadServer && p.endpoint && p.node.Some?
    {
      assert p.name !in dead;
    }
  }
}
