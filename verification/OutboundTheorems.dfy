// The outbounds of a configuration, and their tags, in terms of the input.
module OutboundTheorems {
  import opened Wrappers
  import opened TranslationState
  import opened Groups
  import opened GroupTheorems
  import opened Proxies
  import opened Validate

  // ---------------------------------------------------------------------
  // Outbounds
  // ---------------------------------------------------------------------

  function Wrap(groups: seq<Group>): seq<Outbound> {
    seq(|groups|, i requires 0 <= i < |groups| => Grouped(groups[i]))
  }

  // The emitted groups and their order: the translated ones, or, if none is left,
  // the default groups.
  ghost predicate AreGroups(cfg: RawConfig, groups: seq<Group>, order: seq<string>) {
    var tags, dead := ProxyNames(cfg.proxies), DeadNames(cfg.proxies);
    var out := Outcome(cfg.groups, tags, {}, dead);
    var named := Keep(RawNames(cfg.groups), out.translated);
    if named != [] then groups == out.groups && order == named
    else if tags == {} then groups == [] && order == []
    else AreDefaultGroups(groups, tags, dead) && order == ["PROXY"]
  }

  function FirstOf(order: seq<string>): string {
    if order == [] then "" else order[0]
  }

  function AllOutbounds(cfg: RawConfig, groups: seq<Group>): seq<Outbound> {
    [Direct("DIRECT")] + (Outbounds(cfg.proxies) + Wrap(groups))
  }

  lemma RawNamesNonempty(gs: seq<RawGroup>)
    ensures forall n | n in RawNames(gs) :: n != ""
  {
  }

  lemma GroupsClosed(cfg: RawConfig, groups: seq<Group>, order: seq<string>)
    requires AreGroups(cfg, groups, order)
    ensures forall g | g in groups :: forall m | m in g.members ::
      m in ProxyNames(cfg.proxies) || m == "DIRECT" || (m != "" && m in GroupTagSet(groups))
    ensures order != [] ==> order[0] != "" && order[0] in GroupTagSet(groups)
  {
    var tags, dead := ProxyNames(cfg.proxies), DeadNames(cfg.proxies);
    var known := Known(tags, {} + NameSet(cfg.groups));
    var made := MadeAll(cfg.groups, known, dead);
    var out := Outcome(cfg.groups, tags, {}, dead);
    var named := Keep(RawNames(cfg.groups), out.translated);
    if named != [] {
      CleanedGroupsAreClosed(made, tags);
      CleanUpIsOnePass(made, GroupTagSet(made), tags);
      MadeNames(cfg.groups, known, dead);
      KeepMembers(RawNames(cfg.groups), out.translated);
      RawNamesNonempty(cfg.groups);
      assert named[0] in named;
    } else if tags != {} {
      var all :| all != [] && Lists(all, tags) && groups == DefaultGroups(all, dead);
      DefaultGroupTags(all, dead);
      HealthyMembers(all, dead);
    }
  }

  lemma TagsOfOutbounds(cfg: RawConfig, groups: seq<Group>, tag: string)
    requires tag != "" && (tag in ProxyNames(cfg.proxies) || tag == "DIRECT" || tag in GroupTagSet(groups))
    ensures tag in OutboundTags(AllOutbounds(cfg, groups))
  {
    var obs := AllOutbounds(cfg, groups);
    if tag in ProxyNames(cfg.proxies) {
      ProxyTagsAreOutbounds(cfg.proxies);
      var ob :| ob in Outbounds(cfg.proxies) && OutboundTag(ob) == tag;
      assert ob in obs;
    } else if tag in GroupTagSet(groups) {
      var g :| g in groups && g.tag == tag;
      var i :| 0 <= i < |groups| && groups[i] == g;
      assert Wrap(groups)[i] == Grouped(g);
      assert Grouped(g) in obs && OutboundTag(Grouped(g)) == tag;
    }
  }

  lemma OutboundsClosed(cfg: RawConfig, groups: seq<Group>, order: seq<string>)
    requires AreGroups(cfg, groups, order)
    ensures MembersDefined(AllOutbounds(cfg, groups), OutboundTags(AllOutbounds(cfg, groups)))
    ensures order != [] ==> order[0] != "" && order[0] in OutboundTags(AllOutbounds(cfg, groups))
  {
    var obs := AllOutbounds(cfg, groups);
    GroupsClosed(cfg, groups, order);
    ProxyTagsAreOutbounds(cfg.proxies);
    forall ob | ob in obs && ob.Grouped? ensures forall m | m in ob.group.members :: m in OutboundTags(obs) {
      assert ob in Wrap(groups);
      assert ob.group in groups;
      forall m | m in ob.group.members ensures m in OutboundTags(obs) {
        TagsOfOutbounds(cfg, groups, m);
      }
    }
    if order != [] {
      TagsOfOutbounds(cfg, groups, order[0]);
    }
  }

  // ---------------------------------------------------------------------
  // Tags, in order
  // ---------------------------------------------------------------------

  function TagList(obs: seq<Outbound>): (r: seq<string>)
    ensures |r| == |obs| && forall i | 0 <= i < |r| :: r[i] == OutboundTag(obs[i])
  {
    seq(|obs|, i requires 0 <= i < |obs| => OutboundTag(obs[i]))
  }

  predicate Distinct(names: seq<string>) {
    forall i, j | 0 <= i < j < |names| :: names[i] != names[j]
  }

  lemma DistinctJoin(a: seq<string>, b: seq<string>)
    ensures Distinct(a + b) <==> Distinct(a) && Distinct(b) && forall n | n in a :: n !in b
  {
    var all := a + b;
    if Distinct(all) {
      assert forall i | 0 <= i < |a| :: a[i] == all[i];
      forall k, i | 0 <= k < |a| && 0 <= i < |b| ensures a[k] != b[i] {
        assert all[k] != all[|a| + i];
      }
      forall i, j | 0 <= i < j < |b| ensures b[i] != b[j] {
        assert all[|a| + i] != all[|a| + j];
      }
    } else {
      var i, j :| 0 <= i < j < |all| && all[i] == all[j];
      if i < |a| <= j {
        assert a[i] in a && b[j - |a|] in b;
      }
    }
  }

  // Entries some of which come out under a name.
  lemma NamesMembers(labels: seq<Option<string>>)
    ensures forall n :: n in Names(labels) <==> Some(n) in labels
  {
  }

  lemma {:induction false} NamesDistinct(labels: seq<Option<string>>)
    ensures Distinct(Names(labels))
      <==> forall i, j | 0 <= i < j < |labels| && labels[i].Some? :: labels[i] != labels[j]
  {
    if labels != [] {
      var first, rest := if labels[0].Some? then [labels[0].value] else [], labels[1..];
      NamesDistinct(rest);
      NamesMembers(rest);
      DistinctJoin(first, Names(rest));
      assert forall i | 0 < i < |labels| :: labels[i] == rest[i - 1];
      assert labels[0] in rest <==> exists j | 0 < j < |labels| :: labels[j] == labels[0];
    }
  }

  // ---------------------------------------------------------------------
  // Tags of proxies
  // ---------------------------------------------------------------------

  function ProxyLabels(ps: seq<RawProxy>): (r: seq<Option<string>>)
    ensures |r| == |ps| && forall i | 0 <= i < |r| :: r[i] == if ps[i].name == "" then None else Some(ps[i].name)
  {
    seq(|ps|, i requires 0 <= i < |ps| => if ps[i].name == "" then None else Some(ps[i].name))
  }

  lemma {:induction false} ProxyTagList(ps: seq<RawProxy>)
    ensures TagList(Outbounds(ps)) == Names(ProxyLabels(ps))
  {
    if ps != [] {
      ProxyTagList(ps[1..]);
      assert ProxyLabels(ps)[1..] == ProxyLabels(ps[1..]);
    }
  }

  predicate DistinctProxies(ps: seq<RawProxy>) {
    forall i, j | 0 <= i < j < |ps| && ps[i].name != "" :: ps[i].name != ps[j].name
  }

  lemma ProxyNamesDistinct(ps: seq<RawProxy>)
    ensures Distinct(Names(ProxyLabels(ps))) <==> DistinctProxies(ps)
    ensures forall n :: n in Names(ProxyLabels(ps)) <==> n in ProxyNames(ps)
  {
    var labels := ProxyLabels(ps);
    NamesDistinct(labels);
    NamesMembers(labels);
    forall n ensures Some(n) in labels <==> n in ProxyNames(ps) {
      if Some(n) in labels {
        var i :| 0 <= i < |labels| && labels[i] == Some(n);
        assert ps[i] in ps;
      }
      if n in ProxyNames(ps) {
        var p :| p in ps && p.name != "" && p.name == n;
        var i :| 0 <= i < |ps| && ps[i] == p;
        assert labels[i] == Some(n);
      }
    }
    forall i, j | 0 <= i < j < |ps| ensures labels[i].Some? && labels[i] == labels[j]
      <==> ps[i].name != "" && ps[i].name == ps[j].name
    {
    }
  }

  // ---------------------------------------------------------------------
  // Tags of groups
  // ---------------------------------------------------------------------

  predicate Selects(g: RawGroup) {
    g.kind == "select" || g.kind == "load-balance"
  }

  predicate Tests(g: RawGroup) {
    g.kind == "url-test" || g.kind == "fallback"
  }

  // The entry can be a group with these names to choose from: it lists one of them,
  // and one that is alive if the group is tested.
  predicate Lasts(g: RawGroup, valid: set<string>, dead: set<string>) {
    && g.name != "" && (Selects(g) || Tests(g))
    && exists n | n in Names(g.proxies) :: n in valid && (Tests(g) ==> n !in dead)
  }

  lemma LastsIs(g: RawGroup, known: set<string>, valid: set<string>, dead: set<string>)
    requires valid <= known
    ensures Made(g, known, dead).Some? ==> Made(g, known, dead).value.tag == g.name
    ensures Lasts(g, valid, dead) <==>
      Made(g, known, dead).Some? && !Empties(Made(g, known, dead).value, valid)
  {
    var names := Keep(Names(g.proxies), known);
    KeepMembers(Names(g.proxies), known);
    HealthyMembers(names, dead);
    if Made(g, known, dead).Some? {
      var made := Made(g, known, dead).value;
      KeepMembers(made.members, valid);
      if !Empties(made, valid) {
        var n := Keep(made.members, valid)[0];
        assert n in Keep(made.members, valid);
        assert n in Names(g.proxies) && n in valid && (Tests(g) ==> n !in dead);
      }
    }
    if Lasts(g, valid, dead) {
      var n :| n in Names(g.proxies) && n in valid && (Tests(g) ==> n !in dead);
      assert n in names;
      assert Tests(g) ==> n in Healthy(names, dead);
      assert n in Made(g, known, dead).value.members;
      assert n in Keep(Made(g, known, dead).value.members, valid);
    }
  }

  predicate DistinctLasting(gs: seq<RawGroup>, valid: set<string>, dead: set<string>) {
    forall i, j | 0 <= i < j < |gs| && Lasts(gs[i], valid, dead) && Lasts(gs[j], valid, dead) ::
      gs[i].name != gs[j].name
  }

  function LastingNames(gs: seq<RawGroup>, valid: set<string>, dead: set<string>): set<string> {
    set g | g in gs && Lasts(g, valid, dead) :: g.name
  }

  function GroupLabels(gs: seq<RawGroup>, valid: set<string>, dead: set<string>): (r: seq<Option<string>>)
    ensures |r| == |gs|
    ensures forall i | 0 <= i < |r| :: r[i] == if Lasts(gs[i], valid, dead) then Some(gs[i].name) else None
  {
    seq(|gs|, i requires 0 <= i < |gs| => if Lasts(gs[i], valid, dead) then Some(gs[i].name) else None)
  }

  lemma GroupTagStep(gs: seq<RawGroup>, known: set<string>, valid: set<string>, dead: set<string>)
    requires gs != [] && valid <= known
    ensures
      var rest := Pass(MadeAll(gs[1..], known, dead), valid);
      var all := Pass(MadeAll(gs, known, dead), valid);
      if Lasts(gs[0], valid, dead) then |all| == 1 + |rest| && all[0].tag == gs[0].name && all[1..] == rest
      else all == rest
  {
    LastsIs(gs[0], known, valid, dead);
    var made, rest := Made(gs[0], known, dead), MadeAll(gs[1..], known, dead);
    var all := Listed(made) + rest;
    if made.None? {
      assert all == rest;
    } else {
      assert all[0] == made.value && all[1..] == rest;
    }
  }

  lemma TagsOfMore(all: seq<Group>, rest: seq<Group>)
    requires |all| == 1 + |rest| && all[1..] == rest
    ensures TagList(Wrap(all)) == [all[0].tag] + TagList(Wrap(rest))
  {
  }

  lemma LabelsStep(gs: seq<RawGroup>, valid: set<string>, dead: set<string>)
    requires gs != []
    ensures Names(GroupLabels(gs, valid, dead))
         == (if Lasts(gs[0], valid, dead) then [gs[0].name] else []) + Names(GroupLabels(gs[1..], valid, dead))
  {
    assert GroupLabels(gs, valid, dead)[1..] == GroupLabels(gs[1..], valid, dead);
  }

  lemma {:induction false} GroupTagList(
    gs: seq<RawGroup>, known: set<string>, valid: set<string>, dead: set<string>)
    requires valid <= known
    ensures TagList(Wrap(Pass(MadeAll(gs, known, dead), valid))) == Names(GroupLabels(gs, valid, dead))
  {
    if gs != [] {
      var rest, all := Pass(MadeAll(gs[1..], known, dead), valid), Pass(MadeAll(gs, known, dead), valid);
      GroupTagList(gs[1..], known, valid, dead);
      GroupTagStep(gs, known, valid, dead);
      LabelsStep(gs, valid, dead);
      if Lasts(gs[0], valid, dead) {
        TagsOfMore(all, rest);
      }
    }
  }

  lemma LastingDistinct(gs: seq<RawGroup>, valid: set<string>, dead: set<string>)
    ensures Distinct(Names(GroupLabels(gs, valid, dead))) <==> DistinctLasting(gs, valid, dead)
    ensures forall n :: n in Names(GroupLabels(gs, valid, dead)) <==> n in LastingNames(gs, valid, dead)
  {
    var labels := GroupLabels(gs, valid, dead);
    NamesDistinct(labels);
    NamesMembers(labels);
    forall n ensures Some(n) in labels <==> n in LastingNames(gs, valid, dead) {
      if Some(n) in labels {
        var i :| 0 <= i < |labels| && labels[i] == Some(n);
        assert gs[i] in gs;
      }
      if n in LastingNames(gs, valid, dead) {
        var g :| g in gs && Lasts(g, valid, dead) && g.name == n;
        var i :| 0 <= i < |gs| && gs[i] == g;
        assert labels[i] == Some(n);
      }
    }
    forall i, j | 0 <= i < j < |gs| ensures labels[i].Some? && labels[i] == labels[j]
      <==> Lasts(gs[i], valid, dead) && Lasts(gs[j], valid, dead) && gs[i].name == gs[j].name
    {
    }
  }

  // ---------------------------------------------------------------------
  // Tags of a configuration
  // ---------------------------------------------------------------------

  // The names of groups the cleanup leaves.
  function GroupNames(cfg: RawConfig): set<string> {
    Outcome(cfg.groups, ProxyNames(cfg.proxies), {}, DeadNames(cfg.proxies)).translated
  }

  // What an entry of proxy-groups can still name after the cleanup.
  function ValidNames(cfg: RawConfig): set<string> {
    ProxyNames(cfg.proxies) + GroupNames(cfg) + {"DIRECT"}
  }

  predicate HasAuto(cfg: RawConfig) {
    |ProxyNames(cfg.proxies) - DeadNames(cfg.proxies)| >= 2
  }

  function DefaultTagList(proxyTags: set<string>, auto: bool): (r: seq<string>)
    ensures "" !in r
  {
    if proxyTags == {} then [] else if auto then ["Auto", "PROXY"] else ["PROXY"]
  }

  // The tags of the groups: those that last, or, if no group name is left, those of
  // the default groups.
  function GroupTags(cfg: RawConfig): seq<string> {
    if GroupNames(cfg) != {} then Names(GroupLabels(cfg.groups, ValidNames(cfg), DeadNames(cfg.proxies)))
    else DefaultTagList(ProxyNames(cfg.proxies), HasAuto(cfg))
  }

  lemma {:induction false} HealthyCount(all: seq<string>, tags: set<string>, dead: set<string>)
    requires Lists(all, tags)
    ensures |Healthy(all, dead)| == |tags - dead|
  {
    if all == [] {
      assert tags - dead == {};
    } else {
      var rest := tags - {all[0]};
      assert all[0] in all && all[0] !in all[1..];
      forall n ensures n in all[1..] <==> n in rest {
        assert n in all <==> n == all[0] || n in all[1..];
      }
      HealthyCount(all[1..], rest, dead);
      assert tags - dead == (rest - dead) + if all[0] in dead then {} else {all[0]};
    }
  }

  lemma GroupTagsAre(cfg: RawConfig, groups: seq<Group>, order: seq<string>)
    requires AreGroups(cfg, groups, order)
    ensures TagList(Wrap(groups)) == GroupTags(cfg)
  {
    var tags, dead := ProxyNames(cfg.proxies), DeadNames(cfg.proxies);
    var known := Known(tags, {} + NameSet(cfg.groups));
    var made := MadeAll(cfg.groups, known, dead);
    var named := Keep(RawNames(cfg.groups), GroupNames(cfg));
    LeftNames(cfg);
    if named != [] {
      SurvivorsAreGreatest(made, tags);
      GroupTagList(cfg.groups, known, ValidNames(cfg), dead);
    } else if tags != {} {
      DefaultTags(cfg, groups);
    }
  }

  lemma DefaultGroupTagsAre(all: seq<string>, dead: set<string>)
    requires all != []
    ensures
      var groups := DefaultGroups(all, dead);
      if |Healthy(all, dead)| >= 2 then |groups| == 2 && groups[0].tag == "Auto" && groups[1].tag == "PROXY"
      else |groups| == 1 && groups[0].tag == "PROXY"
  {
  }

  lemma DefaultTags(cfg: RawConfig, groups: seq<Group>)
    requires AreDefaultGroups(groups, ProxyNames(cfg.proxies), DeadNames(cfg.proxies))
    ensures TagList(Wrap(groups)) == if HasAuto(cfg) then ["Auto", "PROXY"] else ["PROXY"]
  {
    var tags, dead := ProxyNames(cfg.proxies), DeadNames(cfg.proxies);
    var all :| all != [] && Lists(all, tags) && groups == DefaultGroups(all, dead);
    HealthyCount(all, tags, dead);
    DefaultGroupTagsAre(all, dead);
  }

  lemma {:induction false} RawNamesAre(gs: seq<RawGroup>)
    ensures forall n :: n in RawNames(gs) <==> n in NameSet(gs)
  {
    if gs != [] {
      RawNamesAre(gs[1..]);
      assert forall g :: g in gs <==> g == gs[0] || g in gs[1..];
    }
  }

  // Some group name is left exactly if the order of groups is not empty.
  lemma LeftNames(cfg: RawConfig)
    ensures GroupNames(cfg) <= NameSet(cfg.groups)
    ensures Keep(RawNames(cfg.groups), GroupNames(cfg)) == [] <==> GroupNames(cfg) == {}
    ensures ValidNames(cfg) <= Known(ProxyNames(cfg.proxies), {} + NameSet(cfg.groups))
  {
    var tags, dead := ProxyNames(cfg.proxies), DeadNames(cfg.proxies);
    var known := Known(tags, {} + NameSet(cfg.groups));
    var made := MadeAll(cfg.groups, known, dead);
    CleanUpIsOnePass(made, GroupTagSet(made), tags);
    MadeNames(cfg.groups, known, dead);
    RawNamesAre(cfg.groups);
    KeepMembers(RawNames(cfg.groups), GroupNames(cfg));
    var named := Keep(RawNames(cfg.groups), GroupNames(cfg));
    if named != [] {
      assert named[0] in named;
    }
  }

  // ---------------------------------------------------------------------
  // When tags are distinct
  // ---------------------------------------------------------------------

  predicate CleanDefaults(cfg: RawConfig) {
    "PROXY" !in ProxyNames(cfg.proxies) && (HasAuto(cfg) ==> "Auto" !in ProxyNames(cfg.proxies))
  }

  predicate CleanLasting(cfg: RawConfig) {
    var valid, dead := ValidNames(cfg), DeadNames(cfg.proxies);
    && DistinctLasting(cfg.groups, valid, dead)
    && forall n | n in LastingNames(cfg.groups, valid, dead) :: n !in ProxyNames(cfg.proxies) && n != "DIRECT"
  }

  // Proxies and the groups that last have names of their own, and none is DIRECT; if
  // default groups are made, no proxy has the name of one.
  predicate HasCleanNames(cfg: RawConfig) {
    && DistinctProxies(cfg.proxies) && "DIRECT" !in ProxyNames(cfg.proxies)
    && if GroupNames(cfg) == {} then CleanDefaults(cfg) else CleanLasting(cfg)
  }

  predicate CleanGroups(tags: seq<string>, proxyTags: set<string>) {
    Distinct(tags) && forall n | n in tags :: n !in proxyTags && n != "DIRECT"
  }

  lemma CleanLastingIs(cfg: RawConfig)
    requires GroupNames(cfg) != {}
    ensures CleanGroups(GroupTags(cfg), ProxyNames(cfg.proxies)) <==> CleanLasting(cfg)
  {
    LastingDistinct(cfg.groups, ValidNames(cfg), DeadNames(cfg.proxies));
  }

  lemma CleanDefaultsIs(cfg: RawConfig)
    requires GroupNames(cfg) == {}
    ensures CleanGroups(GroupTags(cfg), ProxyNames(cfg.proxies)) <==> CleanDefaults(cfg)
  {
    var tags := ProxyNames(cfg.proxies);
    if tags == {} {
      assert tags - DeadNames(cfg.proxies) == {};
    } else {
      CleanPair(tags);
    }
  }

  lemma CleanPair(tags: set<string>)
    ensures CleanGroups(["Auto", "PROXY"], tags) <==> "Auto" !in tags && "PROXY" !in tags
    ensures CleanGroups(["PROXY"], tags) <==> "PROXY" !in tags
  {
    assert forall n :: n in ["Auto", "PROXY"] <==> n == "Auto" || n == "PROXY";
    assert forall n :: n in ["PROXY"] <==> n == "PROXY";
  }

  lemma AllTagsClean(cfg: RawConfig)
    ensures Distinct(["DIRECT"] + (Names(ProxyLabels(cfg.proxies)) + GroupTags(cfg)))
      <==> (&& DistinctProxies(cfg.proxies) && "DIRECT" !in ProxyNames(cfg.proxies)
            && CleanGroups(GroupTags(cfg), ProxyNames(cfg.proxies)))
  {
    var proxies, groups := Names(ProxyLabels(cfg.proxies)), GroupTags(cfg);
    DistinctJoin(proxies, groups);
    DistinctJoin(["DIRECT"], proxies + groups);
    ProxyNamesDistinct(cfg.proxies);
    assert forall n :: n in ["DIRECT"] <==> n == "DIRECT";
    assert forall n :: n in proxies + groups <==> n in proxies || n in groups;
  }

  lemma NoDuplicatesIsDistinct(obs: seq<Outbound>)
    requires forall ob | ob in obs :: OutboundTag(ob) != ""
    ensures NoDuplicates(obs) <==> Distinct(TagList(obs))
  {
    assert forall i | 0 <= i < |obs| :: obs[i] in obs && TagList(obs)[i] == OutboundTag(obs[i]);
  }

  lemma AllTags(ps: seq<RawProxy>, groups: seq<Group>)
    ensures TagList([Direct("DIRECT")] + (Outbounds(ps) + Wrap(groups)))
         == ["DIRECT"] + (Names(ProxyLabels(ps)) + TagList(Wrap(groups)))
  {
    ProxyTagList(ps);
  }

  lemma LastingNamed(gs: seq<RawGroup>, valid: set<string>, dead: set<string>)
    ensures forall n | n in Names(GroupLabels(gs, valid, dead)) :: n != ""
  {
    NamesMembers(GroupLabels(gs, valid, dead));
  }

  lemma GroupTagsNamed(cfg: RawConfig)
    ensures forall n | n in GroupTags(cfg) :: n != ""
  {
    if GroupNames(cfg) != {} {
      LastingNamed(cfg.groups, ValidNames(cfg), DeadNames(cfg.proxies));
    } else {
      assert "" !in DefaultTagList(ProxyNames(cfg.proxies), HasAuto(cfg));
    }
  }

  lemma AllTagsNamed(cfg: RawConfig)
    ensures forall n | n in ["DIRECT"] + (Names(ProxyLabels(cfg.proxies)) + GroupTags(cfg)) :: n != ""
  {
    GroupTagsNamed(cfg);
    ProxyNamesDistinct(cfg.proxies);
  }

  lemma NamedList(obs: seq<Outbound>)
    requires forall n | n in TagList(obs) :: n != ""
    ensures forall ob | ob in obs :: OutboundTag(ob) != ""
  {
    forall ob | ob in obs ensures OutboundTag(ob) != "" {
      var i :| 0 <= i < |obs| && obs[i] == ob;
      assert TagList(obs)[i] in TagList(obs);
    }
  }

  lemma NamedOutbounds(cfg: RawConfig, groups: seq<Group>, order: seq<string>)
    requires AreGroups(cfg, groups, order)
    ensures forall ob | ob in AllOutbounds(cfg, groups) :: OutboundTag(ob) != ""
    ensures TagList(AllOutbounds(cfg, groups))
         == ["DIRECT"] + (Names(ProxyLabels(cfg.proxies)) + GroupTags(cfg))
  {
    GroupTagsAre(cfg, groups, order);
    AllTags(cfg.proxies, groups);
    AllTagsNamed(cfg);
    NamedList(AllOutbounds(cfg, groups));
  }

  // No two outbounds share a tag, exactly if the names of the input are clean.
  lemma TagsAreDistinctExactly(cfg: RawConfig, groups: seq<Group>, order: seq<string>)
    requires AreGroups(cfg, groups, order)
    ensures NoDuplicates(AllOutbounds(cfg, groups)) <==> HasCleanNames(cfg)
  {
    NamedOutbounds(cfg, groups, order);
    NoDuplicatesIsDistinct(AllOutbounds(cfg, groups));
    AllTagsClean(cfg);
    if GroupNames(cfg) == {} {
      CleanDefaultsIs(cfg);
    } else {
      CleanLastingIs(cfg);
    }
  }

  // ---------------------------------------------------------------------
  // Which group names are left
  // ---------------------------------------------------------------------

  function ListedNames(cfg: RawConfig): set<string> {
    ProxyNames(cfg.proxies) + NameSet(cfg.groups) + {"DIRECT"}
  }

  // Some entry of this name can be a group at first, and every such entry still can
  // when only these names of groups are left.
  predicate KeepsName(cfg: RawConfig, name: string, names: set<string>) {
    var dead := DeadNames(cfg.proxies);
    && (exists g | g in cfg.groups :: g.name == name && Lasts(g, ListedNames(cfg), dead))
    && forall g | g in cfg.groups && g.name == name && Lasts(g, ListedNames(cfg), dead) ::
         Lasts(g, ProxyNames(cfg.proxies) + names + {"DIRECT"}, dead)
  }

  predicate KeepEachOther(cfg: RawConfig, names: set<string>) {
    forall n | n in names :: KeepsName(cfg, n, names)
  }

  lemma {:induction false} MadeMembers(gs: seq<RawGroup>, known: set<string>, dead: set<string>)
    ensures forall g | g in gs && Made(g, known, dead).Some? :: Made(g, known, dead).value in MadeAll(gs, known, dead)
    ensures forall m | m in MadeAll(gs, known, dead) :: exists g | g in gs :: Made(g, known, dead) == Some(m)
  {
    if gs != [] {
      MadeMembers(gs[1..], known, dead);
      var rest := MadeAll(gs[1..], known, dead);
      assert MadeAll(gs, known, dead) == Listed(Made(gs[0], known, dead)) + rest;
      assert forall g | g in gs :: g == gs[0] || g in gs[1..];
      assert gs[0] in gs && forall g | g in gs[1..] :: g in gs;
    }
  }

  lemma KeepsNameIs(cfg: RawConfig, name: string, names: set<string>)
    requires names <= NameSet(cfg.groups)
    ensures
      var tags, dead := ProxyNames(cfg.proxies), DeadNames(cfg.proxies);
      KeepsName(cfg, name, names) <==>
        KeepsMember(MadeAll(cfg.groups, ListedNames(cfg), dead), name, Known(tags, names))
  {
    var known, dead := ListedNames(cfg), DeadNames(cfg.proxies);
    var valid := Known(ProxyNames(cfg.proxies), names);
    var made := MadeAll(cfg.groups, known, dead);
    MadeMembers(cfg.groups, known, dead);
    forall g | g in cfg.groups
      ensures Made(g, known, dead).Some? ==> Made(g, known, dead).value.tag == g.name
      ensures Lasts(g, known, dead) <==> Made(g, known, dead).Some?
      ensures Lasts(g, valid, dead) <==> Made(g, known, dead).Some? && !Empties(Made(g, known, dead).value, valid)
    {
      LastsIs(g, known, valid, dead);
      LastsIs(g, known, known, dead);
      FirstTime(g, known, dead);
    }
    if KeepsName(cfg, name, names) {
      var g :| g in cfg.groups && g.name == name && Lasts(g, known, dead);
      assert Made(g, known, dead).value in made;
      forall m | m in made && m.tag == name ensures !Empties(m, valid) {
        var g' :| g' in cfg.groups && Made(g', known, dead) == Some(m);
        assert g'.name == name;
      }
    }
    if KeepsMember(made, name, valid) {
      var m :| m in made && m.tag == name;
      var g :| g in cfg.groups && Made(g, known, dead) == Some(m);
      assert g.name == name && Lasts(g, known, dead);
    }
  }

  // Nothing is dropped from an entry that was just made.
  lemma FirstTime(g: RawGroup, known: set<string>, dead: set<string>)
    ensures Made(g, known, dead).Some? ==> !Empties(Made(g, known, dead).value, known)
  {
    if Made(g, known, dead).Some? {
      var names, members := Keep(Names(g.proxies), known), Made(g, known, dead).value.members;
      KeepMembers(Names(g.proxies), known);
      HealthyMembers(names, dead);
      KeepMembers(members, known);
      assert members[0] in members && members[0] in names;
      assert members[0] in Keep(members, known);
    }
  }

  // The names that are left are the greatest set of names that keep each other.
  lemma GroupNamesAreGreatest(cfg: RawConfig)
    ensures KeepEachOther(cfg, GroupNames(cfg))
    ensures forall names | KeepEachOther(cfg, names) :: names <= GroupNames(cfg)
  {
    var tags, dead := ProxyNames(cfg.proxies), DeadNames(cfg.proxies);
    var made := MadeAll(cfg.groups, ListedNames(cfg), dead);
    assert ListedNames(cfg) == Known(tags, {} + NameSet(cfg.groups));
    SurvivorsAreGreatest(made, tags);
    LeftNames(cfg);
    forall n | n in GroupNames(cfg) ensures KeepsName(cfg, n, GroupNames(cfg)) {
      KeepsNameIs(cfg, n, GroupNames(cfg));
    }
    forall names | KeepEachOther(cfg, names) ensures names <= GroupNames(cfg) {
      forall n | n in names ensures n in NameSet(cfg.groups) {
        assert KeepsName(cfg, n, names);
      }
      forall n | n in names ensures KeepsMember(made, n, Known(tags, names)) {
        KeepsNameIs(cfg, n, names);
      }
      assert Supported(made, tags, names);
    }
  }
}
