// Translating proxies and proxy-groups, and dropping the groups that are left
// without members.
module Groups {
  import opened Wrappers
  import opened TranslationState
  import Text

  const MAX_GROUP_INTERVAL := 1800
  const MIN_GROUP_IDLE_TIMEOUT := 1800
  const MAX_TOLERANCE := 65535
  const FALLBACK_TOLERANCE := 10000
  const DEFAULT_INTERVAL := 180

  // ---------------------------------------------------------------------
  // Before the cleanup
  // ---------------------------------------------------------------------

  function Names(proxies: seq<Option<string>>): seq<string> {
    if proxies == [] then []
    else (if proxies[0].Some? then [proxies[0].value] else []) + Names(proxies[1..])
  }

  // Names a group may mention: proxies, groups of the input, and DIRECT.
  function Known(proxyTags: set<string>, groupTags: set<string>): set<string> {
    proxyTags + groupTags + {"DIRECT"}
  }

  lemma NamesStep(done: seq<string>, proxies: seq<Option<string>>, i: int, ok: set<string>)
    requires 0 <= i < |proxies|
    ensures done + Keep(Names(proxies[i..]), ok)
         == (if proxies[i].Some? && proxies[i].value in ok then done + [proxies[i].value] else done)
            + Keep(Names(proxies[i + 1..]), ok)
  {
    var rest := Names(proxies[i + 1..]);
    assert proxies[i..][1..] == proxies[i + 1..];
    if proxies[i].Some? {
      assert ([proxies[i].value] + rest)[1..] == rest;
    } else {
      assert [] + rest == rest;
    }
  }

  method FilterGroupProxies(g: RawGroup, t: Translation) returns (filtered: seq<string>)
    ensures filtered == Keep(Names(g.proxies), Known(t.proxyTags, t.groupTags))
  {
    var known := Known(t.proxyTags, t.groupTags);
    filtered := [];
    for i := 0 to |g.proxies|
      invariant filtered + Keep(Names(g.proxies[i..]), known) == Keep(Names(g.proxies), known)
    {
      var p := g.proxies[i];
      NamesStep(filtered, g.proxies, i, known);
      if p.None? {
        continue;
      }
      if p.value in t.proxyTags || p.value in t.groupTags || p.value == "DIRECT" {
        filtered := filtered + [p.value];
      }
    }
  }

  function Healthy(names: seq<string>, dead: set<string>): seq<string> {
    if names == [] then []
    else (if names[0] in dead then [] else [names[0]]) + Healthy(names[1..], dead)
  }

  lemma AllHealthy(names: seq<string>)
    ensures Healthy(names, {}) == names
  {
  }

  method FilterHealthCheckProxies(proxies: seq<string>, t: Translation) returns (filtered: seq<string>)
    ensures filtered == Healthy(proxies, t.deadTags)
  {
    if t.deadTags == {} {
      AllHealthy(proxies);
      return proxies;
    }
    filtered := [];
    for i := 0 to |proxies|
      invariant filtered + Healthy(proxies[i..], t.deadTags) == Healthy(proxies, t.deadTags)
    {
      assert proxies[i..][1..] == proxies[i + 1..];
      if proxies[i] !in t.deadTags {
        filtered := filtered + [proxies[i]];
      }
    }
  }

  lemma HealthyMembers(names: seq<string>, dead: set<string>)
    ensures forall n :: n in Healthy(names, dead) <==> n in names && n !in dead
  {
  }

  function Interval(g: RawGroup): int {
    if g.interval.None? || g.interval.value <= 0 then DEFAULT_INTERVAL
    else if g.interval.value > MAX_GROUP_INTERVAL then MAX_GROUP_INTERVAL
    else g.interval.value
  }

  function IdleTimeout(interval: int): int {
    if interval * 2 > MIN_GROUP_IDLE_TIMEOUT then interval * 2 else MIN_GROUP_IDLE_TIMEOUT
  }

  function Tolerance(g: RawGroup): Option<int> {
    if g.tolerance.None? || g.tolerance.value <= 0 then None
    else if g.tolerance.value > MAX_TOLERANCE then Some(MAX_TOLERANCE) else g.tolerance
  }

  function SelectGroup(name: string, proxies: seq<string>): Group
    requires proxies != []
  {
    Group("selector", name, proxies, Some(proxies[0]), None)
  }

  function TestGroup(name: string, proxies: seq<string>, g: RawGroup, tolerance: Option<int>): Group {
    Group("urltest", name, proxies, None,
      Some(Probe(Text.Duration(Interval(g)), Text.Duration(IdleTimeout(Interval(g))), tolerance)))
  }

  // What an entry becomes before the cleanup; None if it is skipped.
  function Made(g: RawGroup, known: set<string>, dead: set<string>): Option<Group> {
    var names := Keep(Names(g.proxies), known);
    if g.name == "" || names == [] then None
    else if g.kind == "select" || g.kind == "load-balance" then Some(SelectGroup(g.name, names))
    else if g.kind == "url-test" || g.kind == "fallback" then
      if Healthy(names, dead) == [] then None
      else Some(TestGroup(g.name, Healthy(names, dead), g,
        if g.kind == "fallback" then Some(FALLBACK_TOLERANCE) else Tolerance(g)))
    else None
  }

  function Listed<T>(g: Option<T>): seq<T> {
    if g.None? then [] else [g.value]
  }

  function MadeAll(gs: seq<RawGroup>, known: set<string>, dead: set<string>): seq<Group> {
    if gs == [] then [] else Listed(Made(gs[0], known, dead)) + MadeAll(gs[1..], known, dead)
  }

  method UrlTestGroup(name: string, proxies: seq<string>, g: RawGroup, tolerance: Option<int>)
    returns (group: Group)
    ensures group == TestGroup(name, proxies, g, tolerance)
  {
    var interval := DEFAULT_INTERVAL;
    if g.interval.Some? && g.interval.value > 0 {
      if g.interval.value > MAX_GROUP_INTERVAL {
        interval := MAX_GROUP_INTERVAL;
      } else {
        interval := g.interval.value;
      }
    }
    var every := Text.SecondsToDuration(interval);
    var idle := interval * 2;
    if idle < MIN_GROUP_IDLE_TIMEOUT {
      idle := MIN_GROUP_IDLE_TIMEOUT;
    }
    var timeout := Text.SecondsToDuration(idle);
    group := Group("urltest", name, proxies, None, Some(Probe(every, timeout, tolerance)));
  }

  // One entry of proxy-groups.
  method TranslateGroup(g: RawGroup, t: Translation) returns (group: Option<Group>)
    ensures group == Made(g, Known(t.proxyTags, t.groupTags), t.deadTags)
  {
    if g.name == "" {
      return None;
    }
    var filtered := FilterGroupProxies(g, t);
    if |filtered| == 0 {
      return None;
    }
    if g.kind == "select" || g.kind == "load-balance" {
      return Some(Group("selector", g.name, filtered, Some(filtered[0]), None));
    } else if g.kind == "url-test" {
      filtered := FilterHealthCheckProxies(filtered, t);
      if |filtered| == 0 {
        return None;
      }
      var tolerance := None;
      if g.tolerance.Some? && g.tolerance.value > 0 {
        tolerance := Some(if g.tolerance.value < MAX_TOLERANCE then g.tolerance.value else MAX_TOLERANCE);
      }
      var group' := UrlTestGroup(g.name, filtered, g, tolerance);
      return Some(group');
    } else if g.kind == "fallback" {
      filtered := FilterHealthCheckProxies(filtered, t);
      if |filtered| == 0 {
        return None;
      }
      var group' := UrlTestGroup(g.name, filtered, g, Some(FALLBACK_TOLERANCE));
      return Some(group');
    } else {
      return None;
    }
  }

  // ---------------------------------------------------------------------
  // Cleanup
  // ---------------------------------------------------------------------

  function Cleaned(g: Group, valid: set<string>): Group
    requires Keep(g.members, valid) != []
  {
    var clean := Keep(g.members, valid);
    g.(members := clean,
       chosen := if g.chosen.Some? && g.chosen.value !in valid then Some(clean[0]) else g.chosen)
  }

  predicate Empties(g: Group, valid: set<string>) {
    Keep(g.members, valid) == []
  }

  // The groups that keep a member, each with only its valid members.
  function Pass(groups: seq<Group>, valid: set<string>): (r: seq<Group>)
    ensures |r| <= |groups|
  {
    if groups == [] then []
    else (if Empties(groups[0], valid) then [] else [Cleaned(groups[0], valid)]) + Pass(groups[1..], valid)
  }

  function DroppedTags(groups: seq<Group>, valid: set<string>): set<string> {
    set g | g in groups && Empties(g, valid) :: g.tag
  }

  datatype CleanResult = CleanResult(groups: seq<Group>, translated: set<string>)

  function CleanUp(groups: seq<Group>, translated: set<string>, proxyTags: set<string>): CleanResult
    decreases |groups|
  {
    var valid := Known(proxyTags, translated);
    var kept := Pass(groups, valid);
    if |kept| == |groups| then CleanResult(kept, translated - DroppedTags(groups, valid))
    else CleanUp(kept, translated - DroppedTags(groups, valid), proxyTags)
  }

  method ValidMembers(members: seq<string>, valid: set<string>) returns (clean: seq<string>)
    ensures clean == Keep(members, valid)
  {
    clean := [];
    for j := 0 to |members|
      invariant clean + Keep(members[j..], valid) == Keep(members, valid)
    {
      assert members[j..][1..] == members[j + 1..];
      if members[j] in valid {
        clean := clean + [members[j]];
      }
    }
  }

  lemma PassStep(done: seq<Group>, groups: seq<Group>, i: int, valid: set<string>)
    requires 0 <= i < |groups|
    ensures done + Pass(groups[i..], valid)
         == (if Empties(groups[i], valid) then done else done + [Cleaned(groups[i], valid)])
            + Pass(groups[i + 1..], valid)
  {
    assert groups[i..][1..] == groups[i + 1..];
  }

  lemma DroppedStep(groups: seq<Group>, i: int, valid: set<string>)
    requires 0 <= i < |groups|
    ensures DroppedTags(groups[..i + 1], valid)
         == DroppedTags(groups[..i], valid) + if Empties(groups[i], valid) then {groups[i].tag} else {}
  {
    assert groups[..i + 1] == groups[..i] + [groups[i]];
  }

  method CleanupOnce(groups: seq<Group>, translated: set<string>, t: Translation)
    returns (result: seq<Group>, translated': set<string>, dropped: int)
    modifies t`groupTags
    ensures result == Pass(groups, Known(t.proxyTags, translated))
    ensures translated' == translated - DroppedTags(groups, Known(t.proxyTags, translated))
    ensures t.groupTags == old(t.groupTags) - DroppedTags(groups, Known(t.proxyTags, translated))
    ensures dropped == |groups| - |result|
  {
    var valid := Known(t.proxyTags, translated);
    result, translated', dropped := [], translated, 0;
    for i := 0 to |groups|
      invariant result + Pass(groups[i..], valid) == Pass(groups, valid)
      invariant translated' == translated - DroppedTags(groups[..i], valid)
      invariant t.groupTags == old(t.groupTags) - DroppedTags(groups[..i], valid)
      invariant dropped == i - |result|
    {
      var g := groups[i];
      PassStep(result, groups, i, valid);
      DroppedStep(groups, i, valid);
      var clean := ValidMembers(g.members, valid);
      if |clean| == 0 {
        translated' := translated' - {g.tag};
        t.groupTags := t.groupTags - {g.tag};
        dropped := dropped + 1;
        continue;
      }
      g := g.(members := clean);
      if g.chosen.Some? && g.chosen.value !in valid {
        g := g.(chosen := Some(clean[0]));
      }
      result := result + [g];
    }
    assert groups[..|groups|] == groups;
  }

  // Every tag ever dropped, over all passes.
  function AllDropped(groups: seq<Group>, translated: set<string>, proxyTags: set<string>): set<string>
    decreases |groups|
  {
    var valid := Known(proxyTags, translated);
    var kept := Pass(groups, valid);
    DroppedTags(groups, valid)
    + if |kept| == |groups| then {}
      else AllDropped(kept, translated - DroppedTags(groups, valid), proxyTags)
  }

  lemma CleanUpDrops(groups: seq<Group>, translated: set<string>, proxyTags: set<string>)
    ensures CleanUp(groups, translated, proxyTags).translated
         == translated - AllDropped(groups, translated, proxyTags)
    decreases |groups|
  {
    var valid := Known(proxyTags, translated);
    var kept := Pass(groups, valid);
    if |kept| != |groups| {
      CleanUpDrops(kept, translated - DroppedTags(groups, valid), proxyTags);
    }
  }

  method CleanupGroupOutbounds(groups: seq<Group>, translated: set<string>, t: Translation)
    returns (result: seq<Group>, translated': set<string>, ghost passes: int)
    modifies t`groupTags
    ensures CleanResult(result, translated') == CleanUp(groups, translated, t.proxyTags)
    ensures t.groupTags == old(t.groupTags) - AllDropped(groups, translated, t.proxyTags)
    ensures 1 <= passes <= |groups| + 1
  {
    result, translated', passes := groups, translated, 0;
    while true
      invariant CleanUp(result, translated', t.proxyTags) == CleanUp(groups, translated, t.proxyTags)
      invariant t.groupTags - AllDropped(result, translated', t.proxyTags)
             == old(t.groupTags) - AllDropped(groups, translated, t.proxyTags)
      invariant 0 <= passes <= |groups| - |result|
      decreases |result|
    {
      var next, left, dropped := CleanupOnce(result, translated', t);
      passes := passes + 1;
      result, translated' := next, left;
      if dropped == 0 {
        return;
      }
    }
  }

  function GroupTagSet(groups: seq<Group>): set<string> {
    set g | g in groups :: g.tag
  }

  function NameSet(gs: seq<RawGroup>): set<string> {
    set g | g in gs && g.name != "" :: g.name
  }

  function RawNames(gs: seq<RawGroup>): seq<string> {
    if gs == [] then [] else (if gs[0].name == "" then [] else [gs[0].name]) + RawNames(gs[1..])
  }

  // What the cleanup starts from and what it ends with.
  function Outcome(gs: seq<RawGroup>, proxyTags: set<string>, groupTags: set<string>, dead: set<string>)
    : CleanResult
  {
    var made := MadeAll(gs, Known(proxyTags, groupTags + NameSet(gs)), dead);
    CleanUp(made, GroupTagSet(made), proxyTags)
  }

  lemma MadeNames(gs: seq<RawGroup>, known: set<string>, dead: set<string>)
    ensures GroupTagSet(MadeAll(gs, known, dead)) <= NameSet(gs)
  {
    if gs != [] {
      MadeNames(gs[1..], known, dead);
      assert NameSet(gs[1..]) <= NameSet(gs) by {
        assert forall g | g in gs[1..] :: g in gs;
      }
      var rest := MadeAll(gs[1..], known, dead);
      match Made(gs[0], known, dead) {
        case None => assert [] + rest == rest;
        case Some(g) =>
          assert forall m | m in MadeAll(gs, known, dead) :: m == g || m in rest;
      }
    }
  }

  method RegisterGroupNames(gs: seq<RawGroup>, t: Translation)
    modifies t`groupTags
    ensures t.groupTags == old(t.groupTags) + NameSet(gs)
  {
    for i := 0 to |gs|
      invariant t.groupTags == old(t.groupTags) + NameSet(gs[..i])
    {
      assert gs[..i + 1] == gs[..i] + [gs[i]];
      if gs[i].name != "" {
        t.groupTags := t.groupTags + {gs[i].name};
      }
    }
    assert gs[..|gs|] == gs;
  }

  lemma MadeStep(done: seq<Group>, gs: seq<RawGroup>, i: int, known: set<string>, dead: set<string>)
    requires 0 <= i < |gs|
    ensures done + MadeAll(gs[i..], known, dead)
         == done + Listed(Made(gs[i], known, dead)) + MadeAll(gs[i + 1..], known, dead)
  {
    assert gs[i..][0] == gs[i] && gs[i..][1..] == gs[i + 1..];
  }

  method MakeGroups(gs: seq<RawGroup>, t: Translation) returns (groups: seq<Group>, translated: set<string>)
    ensures groups == MadeAll(gs, Known(t.proxyTags, t.groupTags), t.deadTags)
    ensures translated == GroupTagSet(groups)
  {
    ghost var known := Known(t.proxyTags, t.groupTags);
    translated, groups := {}, [];
    for i := 0 to |gs|
      invariant groups + MadeAll(gs[i..], known, t.deadTags) == MadeAll(gs, known, t.deadTags)
      invariant translated == GroupTagSet(groups)
    {
      MadeStep(groups, gs, i, known, t.deadTags);
      var group := TranslateGroup(gs[i], t);
      assert group.None? ==> groups + Listed(group) == groups;
      if group.Some? {
        groups := groups + [group.value];
        translated := translated + {group.value.tag};
      }
    }
  }

  lemma OrderStep(done: seq<string>, gs: seq<RawGroup>, i: int, ok: set<string>)
    requires 0 <= i < |gs|
    ensures done + Keep(RawNames(gs[i..]), ok)
         == (if gs[i].name != "" && gs[i].name in ok then done + [gs[i].name] else done)
            + Keep(RawNames(gs[i + 1..]), ok)
    ensures NameSet(gs[..i + 1]) == NameSet(gs[..i]) + if gs[i].name == "" then {} else {gs[i].name}
  {
    var rest := RawNames(gs[i + 1..]);
    assert gs[i..][1..] == gs[i + 1..] && gs[..i + 1] == gs[..i] + [gs[i]];
    if gs[i].name == "" {
      assert [] + rest == rest;
    } else {
      assert ([gs[i].name] + rest)[1..] == rest;
    }
  }

  // Lists the translated groups in the order of the input and forgets the rest.
  method OrderGroups(gs: seq<RawGroup>, translated: set<string>, t: Translation)
    modifies t`groupTags, t`groupTagOrder
    ensures t.groupTagOrder == old(t.groupTagOrder) + Keep(RawNames(gs), translated)
    ensures t.groupTags == old(t.groupTags) - (NameSet(gs) - translated)
  {
    for i := 0 to |gs|
      invariant t.groupTagOrder + Keep(RawNames(gs[i..]), translated)
             == old(t.groupTagOrder) + Keep(RawNames(gs), translated)
      invariant t.groupTags == old(t.groupTags) - (NameSet(gs[..i]) - translated)
    {
      var name := gs[i].name;
      OrderStep(t.groupTagOrder, gs, i, translated);
      if name == "" {
        continue;
      }
      if name in translated {
        t.groupTagOrder := t.groupTagOrder + [name];
      } else {
        t.groupTags := t.groupTags - {name};
      }
    }
    assert gs[..|gs|] == gs;
  }

  method TranslateGroups(gs: seq<RawGroup>, t: Translation) returns (groups: seq<Group>)
    modifies t`groupTags, t`groupTagOrder
    ensures groups == Outcome(gs, t.proxyTags, old(t.groupTags), t.deadTags).groups
    ensures t.groupTagOrder == old(t.groupTagOrder)
      + Keep(RawNames(gs), Outcome(gs, t.proxyTags, old(t.groupTags), t.deadTags).translated)
    ensures old(t.groupTags) == {} ==>
      t.groupTags == Outcome(gs, t.proxyTags, {}, t.deadTags).translated
  {
    RegisterGroupNames(gs, t);
    ghost var known := Known(t.proxyTags, t.groupTags);
    ghost var names := t.groupTags;
    MadeNames(gs, known, t.deadTags);
    var made, translated := MakeGroups(gs, t);
    CleanUpDrops(made, translated, t.proxyTags);
    ghost var passes, started := 0, translated;
    groups, translated, passes := CleanupGroupOutbounds(made, translated, t);
    assert translated == started - AllDropped(made, started, t.proxyTags);
    OrderGroups(gs, translated, t);
  }
}
