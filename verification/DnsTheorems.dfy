// The generated DNS table, part by part.
module DnsTheorems {
  import opened Wrappers
  import opened TranslationState
  import opened DnsTable
  import opened DnsServers
  import opened DnsRules
  import opened ResolverGraph

  // The DNS rules of the output when DNS is enabled.
  function Table(cfg: RawConfig, cc: string, ech: seq<string>, detour: string): seq<Rule> {
    WithActions(Ordered(Servers(cfg, detour), UserRules(cfg, detour), cc, ech, Terminal(cfg.dns, detour)))
  }

  // ---------------------------------------------------------------------
  // Reading a table
  // ---------------------------------------------------------------------

  // Rules that do not decide and keep no response can be skipped.
  predicate Passes(env: Env, ipOnly: set<string>, rules: seq<Rule>, q: Query, kept: Option<Response>) {
    forall r | r in rules :: !Decides(env, ipOnly, r, q, kept) && !(r.Rule? && r.action == "evaluate")
  }

  lemma {:induction false} Skip(
    env: Env, ipOnly: set<string>, pre: seq<Rule>, rest: seq<Rule>, q: Query, kept: Option<Response>)
    requires Passes(env, ipOnly, pre, q, kept)
    ensures Choose(env, ipOnly, pre + rest, q, kept) == Choose(env, ipOnly, rest, q, kept)
  {
    if pre == [] {
      assert pre + rest == rest;
    } else {
      assert (pre + rest)[1..] == pre[1..] + rest && (pre + rest)[0] == pre[0];
      assert pre[0] in pre;
      Skip(env, ipOnly, pre[1..], rest, q, kept);
    }
  }

  // If some rule of a part decides, one of them makes the choice.
  lemma {:induction false} DecidedIn(
    env: Env, ipOnly: set<string>, part: seq<Rule>, rest: seq<Rule>, q: Query, kept: Option<Response>)
    requires forall r | r in part :: r.Rule? && r.action != "evaluate"
    requires exists r | r in part :: Decides(env, ipOnly, r, q, kept)
    ensures Choose(env, ipOnly, part + rest, q, kept).Some?
    ensures exists r | r in part ::
      Decides(env, ipOnly, r, q, kept) && Choose(env, ipOnly, part + rest, q, kept).value.server == r.server
  {
    assert (part + rest)[1..] == part[1..] + rest && (part + rest)[0] == part[0];
    if Decides(env, ipOnly, part[0], q, kept) {
      assert part[0] in part;
    } else {
      var r :| r in part && Decides(env, ipOnly, r, q, kept);
      assert r in part[1..];
      DecidedIn(env, ipOnly, part[1..], rest, q, kept);
      assert forall x | x in part[1..] :: x in part;
    }
  }

  lemma WithActionsJoin(a: seq<Rule>, b: seq<Rule>)
    ensures WithActions(a + b) == WithActions(a) + WithActions(b)
  {
  }

  // ---------------------------------------------------------------------
  // Servers behind the tags
  // ---------------------------------------------------------------------

  lemma {:induction false} FirstEligibleIs(servers: seq<Server>, kinds: set<string>, fallback: string)
    ensures
      var tag := FirstEligible(servers, kinds, fallback);
      && (tag == fallback || exists s | s in servers :: Eligible(s) && s.tag == tag)
      && ((exists s | s in servers :: Eligible(s)) || fallback != "" ==> tag != "")
  {
    if servers != [] {
      var next := if Eligible(servers[0]) && fallback == "" then servers[0].tag else fallback;
      FirstEligibleIs(servers[1..], kinds, next);
      assert forall s | s in servers :: s == servers[0] || s in servers[1..];
    }
  }

  // The tag of the first server that will do.
  function FirstTagWith(servers: seq<Server>, willDo: Server -> bool): string {
    if servers == [] then "" else if willDo(servers[0]) then servers[0].tag else FirstTagWith(servers[1..], willDo)
  }

  // A server with a name that is asked without a detour and answers from the network.
  predicate AskedDirectly(s: Server) {
    s.kind !in {"fakeip", "hosts"} && s.detour == None && s.tag != ""
  }

  predicate PlainDirect(s: Server) {
    AskedDirectly(s) && s.kind == "udp"
  }

  predicate EncryptedDirect(s: Server) {
    AskedDirectly(s) && s.kind in {"https", "tls", "quic", "h3"}
  }

  predicate AnswersFake(s: Server) {
    s.kind == "fakeip" && s.tag != ""
  }

  // Which server answers directly: the first plain one, or else the first of all.
  function DirectServer(servers: seq<Server>): string {
    var plain := FirstTagWith(servers, PlainDirect);
    if plain != "" then plain else FirstTagWith(servers, AskedDirectly)
  }

  // Which one answers the names ECH needs: the first that is encrypted, or else the
  // first of all.
  function EchServer(servers: seq<Server>): string {
    var encrypted := FirstTagWith(servers, EncryptedDirect);
    if encrypted != "" then encrypted else FirstTagWith(servers, AskedDirectly)
  }

  function FakeServer(servers: seq<Server>): string {
    FirstTagWith(servers, AnswersFake)
  }

  lemma {:induction false} FirstEligibleMeans(
    servers: seq<Server>, kinds: set<string>, fallback: string, willDo: Server -> bool)
    requires forall s :: willDo(s) <==> AskedDirectly(s) && s.kind in kinds
    ensures
      FirstEligible(servers, kinds, fallback)
      == if FirstTagWith(servers, willDo) != "" then FirstTagWith(servers, willDo)
         else if fallback != "" then fallback else FirstTagWith(servers, AskedDirectly)
  {
    if servers != [] {
      var next := if Eligible(servers[0]) && fallback == "" then servers[0].tag else fallback;
      FirstEligibleMeans(servers[1..], kinds, next, willDo);
      assert Eligible(servers[0]) == AskedDirectly(servers[0]);
      assert willDo(servers[0]) <==> Eligible(servers[0]) && servers[0].kind in kinds;
    }
  }

  lemma {:induction false} NoneAskedDirectly(servers: seq<Server>, willDo: Server -> bool)
    requires forall s :: willDo(s) ==> AskedDirectly(s)
    requires FirstTagWith(servers, AskedDirectly) == ""
    ensures FirstTagWith(servers, willDo) == ""
  {
    if servers != [] {
      NoneAskedDirectly(servers[1..], willDo);
    }
  }

  // The tags the generated rules use.
  lemma ChosenTags(servers: seq<Server>)
    ensures DirectTag(servers) == DirectServer(servers)
    ensures EchTag(servers) == EchServer(servers)
  {
    FirstEligibleMeans(servers, PLAIN, "", PlainDirect);
    FirstEligibleMeans(servers, ENCRYPTED, "", EncryptedDirect);
    if FirstTagWith(servers, AskedDirectly) == "" {
      NoneAskedDirectly(servers, PlainDirect);
    }
  }

  lemma {:induction false} ChosenFakeTag(servers: seq<Server>)
    ensures FakeTag(servers) == FakeServer(servers)
  {
    if servers != [] {
      ChosenFakeTag(servers[1..]);
    }
  }

  // The server a tag stands for.
  predicate IsDirect(servers: seq<Server>, tag: string) {
    FirstWith(servers, tag).Some? && Eligible(FirstWith(servers, tag).value)
  }

  predicate IsFake(servers: seq<Server>, tag: string) {
    FirstWith(servers, tag).Some? && FirstWith(servers, tag).value.kind == "fakeip"
  }

  predicate HasDirect(servers: seq<Server>) {
    exists s | s in servers :: Eligible(s)
  }

  lemma DirectTags(servers: seq<Server>)
    requires DistinctServers(servers)
    ensures DirectTag(servers) != "" <==> HasDirect(servers)
    ensures DirectTag(servers) != "" ==> IsDirect(servers, DirectTag(servers)) && IsDirect(servers, EchTag(servers))
  {
    FirstEligibleIs(servers, PLAIN, "");
    FirstEligibleIs(servers, ENCRYPTED, "");
    if DirectTag(servers) != "" {
      var s :| s in servers && Eligible(s) && s.tag == DirectTag(servers);
      FindServer(servers, s);
      var e :| e in servers && Eligible(e) && e.tag == EchTag(servers);
      FindServer(servers, e);
    }
  }

  lemma {:induction false} FakeTagIs(servers: seq<Server>)
    ensures FakeTag(servers) != "" ==> exists s | s in servers :: s.kind == "fakeip" && s.tag == FakeTag(servers)
    ensures (exists s | s in servers :: s.kind == "fakeip" && s.tag != "") ==> FakeTag(servers) != ""
  {
    if servers != [] {
      FakeTagIs(servers[1..]);
      assert forall s | s in servers :: s == servers[0] || s in servers[1..];
    }
  }

  lemma FakeServerIsFake(cfg: RawConfig, detour: string)
    requires cfg.dns.enable && UsesFakeIP(cfg.dns)
    ensures IsFake(Servers(cfg, detour), FakeTag(Servers(cfg, detour)))
  {
    var servers := Servers(cfg, detour);
    ServerTagsDistinct(cfg, detour);
    FakeTagIs(servers);
    var named := WithResolvers(NamedServers(cfg.dns, detour), Tags(Resolvers(cfg.dns)));
    assert SpecialServers(cfg)[0] == FAKEIP_SERVER;
    assert MainServers(cfg, detour)[|named|] == FAKEIP_SERVER;
    assert FAKEIP_SERVER in servers;
    var s :| s in servers && s.kind == "fakeip" && s.tag == FakeTag(servers);
    FindServer(servers, s);
  }

  lemma NameserverKind(cfg: RawConfig, detour: string)
    requires cfg.dns.enable && NameserverEntries(cfg.dns, detour) != []
    ensures
      var ns := NameserverEntries(cfg.dns, detour)[0];
      var found := FirstWith(Servers(cfg, detour), ns.tag);
      found.Some? && (found.value.kind == "fakeip" <==> ns.kind == "fakeip")
  {
    var ns := NameserverEntries(cfg.dns, detour)[0];
    ServerTagsDistinct(cfg, detour);
    assert ns in NamedServers(cfg.dns, detour);
    MainServersAre(cfg, detour, ns);
    assert Finished(cfg, ns) in Servers(cfg, detour);
    FindServer(Servers(cfg, detour), Finished(cfg, ns));
  }

  // ---------------------------------------------------------------------
  // Its parts
  // ---------------------------------------------------------------------

  // The table after its mode rule, if it has one.
  function AfterMode(cfg: RawConfig, cc: string, ech: seq<string>, detour: string): seq<Rule> {
    var servers := Servers(cfg, detour);
    WithActions(UserRules(cfg, detour)) + AfterUser(cfg, cc, ech, detour)
  }

  function AfterUser(cfg: RawConfig, cc: string, ech: seq<string>, detour: string): seq<Rule> {
    var servers := Servers(cfg, detour);
    (if DirectTag(servers) == "" then []
     else WithActions(EchRules(ech, EchTag(servers))) + Generated(servers, cc))
    + WithActions(Terminal(cfg.dns, detour))
  }

  function Generated(servers: seq<Server>, cc: string): seq<Rule> {
    var direct := DirectTag(servers);
    [EvaluateRule(direct), WithAction(ResponseRule(direct, cc))] + WithActions(FakeRules(FakeTag(servers)))
  }

  lemma WithActionsOfParts(
    mode: seq<Rule>, user: seq<Rule>, ech: seq<Rule>, geo: seq<Rule>, fake: seq<Rule>, terminal: seq<Rule>)
    ensures WithActions(mode + user + ech + geo + fake + terminal)
         == WithActions(mode)
            + (WithActions(user) + (WithActions(ech) + (WithActions(geo) + WithActions(fake)) + WithActions(terminal)))
  {
    WithActionsJoin(mode + user + ech + geo + fake, terminal);
    WithActionsJoin(mode + user + ech + geo, fake);
    WithActionsJoin(mode + user + ech, geo);
    WithActionsJoin(mode + user, ech);
    WithActionsJoin(mode, user);
    Reassociate(WithActions(mode), WithActions(user), WithActions(ech), WithActions(geo), WithActions(fake),
      WithActions(terminal));
  }

  lemma Reassociate(a: seq<Rule>, b: seq<Rule>, c: seq<Rule>, d: seq<Rule>, e: seq<Rule>, f: seq<Rule>)
    ensures a + b + c + d + e + f == a + (b + (c + (d + e) + f))
  {
  }

  lemma GeoActions(direct: string, cc: string)
    ensures WithActions([EvaluateRule(direct), ResponseRule(direct, cc)])
         == [EvaluateRule(direct), WithAction(ResponseRule(direct, cc))]
  {
  }

  lemma TableParts(cfg: RawConfig, cc: string, ech: seq<string>, detour: string)
    ensures
      var direct := DirectTag(Servers(cfg, detour));
      Table(cfg, cc, ech, detour)
      == (if direct == "" then [] else [WithAction(ModeRule(direct))]) + AfterMode(cfg, cc, ech, detour)
  {
    var servers := Servers(cfg, detour);
    var direct := DirectTag(servers);
    var user, terminal := UserRules(cfg, detour), Terminal(cfg.dns, detour);
    if direct == "" {
      WithActionsJoin(user, terminal);
      assert [] + WithActions(terminal) == WithActions(terminal);
      assert [] + AfterMode(cfg, cc, ech, detour) == AfterMode(cfg, cc, ech, detour);
    } else {
      WithActionsOfParts([ModeRule(direct)], user, EchRules(ech, EchTag(servers)),
        [EvaluateRule(direct), ResponseRule(direct, cc)], FakeRules(FakeTag(servers)), terminal);
      GeoActions(direct, cc);
      assert WithActions([ModeRule(direct)]) == [WithAction(ModeRule(direct))];
    }
  }

  lemma ModeRuleDecides(env: Env, ipOnly: set<string>, direct: string, after: seq<Rule>, q: Query)
    requires direct != ""
    ensures
      var choice := Choose(env, ipOnly, [WithAction(ModeRule(direct))] + after, q, None);
      if q.mode == "Direct" then choice.Some? && choice.value.server == direct
      else choice == Choose(env, ipOnly, after, q, None)
  {
    var rule := WithAction(ModeRule(direct));
    assert ([rule] + after)[0] == rule && ([rule] + after)[1..] == after;
  }

  lemma ModeDecides(
    env: Env, ipOnly: set<string>, cfg: RawConfig, cc: string, ech: seq<string>, detour: string, q: Query)
    ensures
      var direct := DirectTag(Servers(cfg, detour));
      var choice := Choose(env, ipOnly, Table(cfg, cc, ech, detour), q, None);
      if direct != "" && q.mode == "Direct" then choice.Some? && choice.value.server == direct
      else choice == Choose(env, ipOnly, AfterMode(cfg, cc, ech, detour), q, None)
  {
    var direct, after := DirectTag(Servers(cfg, detour)), AfterMode(cfg, cc, ech, detour);
    TableParts(cfg, cc, ech, detour);
    if direct == "" {
      assert [] + after == after;
    } else {
      ModeRuleDecides(env, ipOnly, direct, after, q);
    }
  }

  // A rule about names only, as it is before actions are added.
  predicate AboutNames(r: Rule) {
    && r.Rule? && r.action == "" && r.server != "" && r.matchResponse == Unset && r.ruleSets == NoSets
    && r.queryType == None && r.cond.clashMode == None && r.cond.other == None
  }

  lemma UserRulesPlain(cfg: RawConfig, detour: string)
    ensures forall r | r in UserRules(cfg, detour) :: AboutNames(r)
  {
  }

  lemma NamesRoute(rules: seq<Rule>)
    requires forall r | r in rules :: AboutNames(r)
    ensures forall r | r in WithActions(rules) :: r.Rule? && r.action == "route"
  {
    var acted := WithActions(rules);
    forall r | r in acted ensures r.Rule? && r.action == "route" {
      var i :| 0 <= i < |acted| && acted[i] == r;
      assert rules[i] in rules;
    }
  }

  // Rules without rule-sets that decide by themselves.
  predicate NoSetRules(rules: seq<Rule>) {
    forall r | r in rules ::
      r.Rule? && r.ruleSets == NoSets && r.action != "evaluate" && r.matchResponse == Unset
  }

  lemma ActedNoSetRules(rules: seq<Rule>)
    requires forall r | r in rules :: r.Rule? && r.ruleSets == NoSets && r.action == "" && r.matchResponse == Unset
    ensures NoSetRules(WithActions(rules))
  {
    var acted := WithActions(rules);
    forall r | r in acted
      ensures r.Rule? && r.ruleSets == NoSets && r.action != "evaluate" && r.matchResponse == Unset
    {
      var i :| 0 <= i < |acted| && acted[i] == r;
      assert rules[i] in rules;
    }
  }

  lemma PlainParts(cfg: RawConfig, ech: seq<string>, detour: string)
    ensures
      var servers := Servers(cfg, detour);
      && NoSetRules([WithAction(ModeRule(DirectTag(servers)))])
      && NoSetRules(WithActions(UserRules(cfg, detour)))
      && NoSetRules(WithActions(EchRules(ech, EchTag(servers))))
      && NoSetRules(WithActions(FakeRules(FakeTag(servers))))
      && NoSetRules(WithActions(Terminal(cfg.dns, detour)))
  {
    UserRulesPlain(cfg, detour);
    ActedNoSetRules(UserRules(cfg, detour));
    ActedNoSetRules(EchRules(ech, EchTag(Servers(cfg, detour))));
    ActedNoSetRules(FakeRules(FakeTag(Servers(cfg, detour))));
    ActedNoSetRules(Terminal(cfg.dns, detour));
  }
}
