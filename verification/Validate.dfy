// The last check: no two outbounds share a tag, and the members of groups,
// route.final and the references of the DNS section lead somewhere. It does not look
// at the detours of proxies.
module Validate {
  import opened Wrappers
  import opened TranslationState
  import DnsTable

  datatype Error =
    | DuplicateTag(tag: string)
    | DanglingMember(group: string, member: string)
    | DanglingFinal(tag: string)
    | DanglingDetour(server: string, detour: string)
    | DanglingDnsRule(server: string)
    | DanglingDnsFinal(tag: string)

  predicate NoDuplicates(obs: seq<Outbound>) {
    forall i, j | 0 <= i < j < |obs| :: OutboundTag(obs[i]) == "" || OutboundTag(obs[i]) != OutboundTag(obs[j])
  }

  function OutboundTags(obs: seq<Outbound>): set<string> {
    {"DIRECT"} + set ob | ob in obs && OutboundTag(ob) != "" :: OutboundTag(ob)
  }

  predicate MembersDefined(obs: seq<Outbound>, tags: set<string>) {
    forall ob | ob in obs && ob.Grouped? :: forall m | m in ob.group.members :: m in tags
  }

  predicate DetoursDefined(servers: seq<Server>, tags: set<string>) {
    forall s | s in servers :: s.detour.None? || s.detour.value == "" || s.detour.value in tags
  }

  function ServerTags(servers: seq<Server>): set<string> {
    set s | s in servers && s.tag != "" :: s.tag
  }

  predicate RuleServersDefined(rules: seq<DnsTable.Rule>, tags: set<string>) {
    forall r | r in rules && r.Rule? :: r.server == "" || r.server in tags
  }

  predicate DnsDefined(dns: Option<Dns>, tags: set<string>) {
    dns.Some? ==>
      && DetoursDefined(dns.value.servers, tags)
      && RuleServersDefined(dns.value.rules, ServerTags(dns.value.servers))
      && (dns.value.final == "" || dns.value.final in ServerTags(dns.value.servers))
  }

  // Everything but the tags being distinct.
  predicate Closed(obs: seq<Outbound>, final: string, dns: Option<Dns>) {
    && MembersDefined(obs, OutboundTags(obs))
    && (final == "" || final in OutboundTags(obs))
    && DnsDefined(dns, OutboundTags(obs))
  }

  predicate HasDirect(obs: seq<Outbound>) {
    exists ob | ob in obs :: OutboundTag(ob) == "DIRECT"
  }

  // An outbound of the list already has this tag. DIRECT counts as known, but only once
  // as taken.
  predicate Taken(obs: seq<Outbound>, tag: string) {
    if tag == "DIRECT" then HasDirect(obs) else tag in OutboundTags(obs)
  }

  lemma TakenBy(obs: seq<Outbound>, tag: string)
    requires tag != ""
    ensures Taken(obs, tag) <==> exists k | 0 <= k < |obs| :: OutboundTag(obs[k]) == tag
  {
  }

  lemma TagsStep(obs: seq<Outbound>, ob: Outbound)
    ensures OutboundTags(obs + [ob]) == OutboundTags(obs) + if OutboundTag(ob) == "" then {} else {OutboundTag(ob)}
    ensures HasDirect(obs + [ob]) <==> HasDirect(obs) || OutboundTag(ob) == "DIRECT"
    ensures NoDuplicates(obs + [ob]) <==> NoDuplicates(obs) && (OutboundTag(ob) == "" || !Taken(obs, OutboundTag(ob)))
  {
    if OutboundTag(ob) != "" {
      TakenBy(obs, OutboundTag(ob));
    }
    assert (obs + [ob])[|obs|] == ob && forall k | 0 <= k < |obs| :: (obs + [ob])[k] == obs[k];
  }

  lemma DuplicatesStay(obs: seq<Outbound>, i: int)
    requires 0 <= i <= |obs| && !NoDuplicates(obs[..i])
    ensures !NoDuplicates(obs)
  {
  }

  method CollectOutboundTags(t: Translation) returns (tags: set<string>, err: Option<Error>)
    ensures err.None? <==> NoDuplicates(t.outbounds)
    ensures err.None? ==> tags == OutboundTags(t.outbounds)
    ensures err.Some? ==> err.value.DuplicateTag?
  {
    tags, err := {"DIRECT"}, None;
    var directSeen := false;
    for i := 0 to |t.outbounds|
      invariant tags == OutboundTags(t.outbounds[..i]) && err.None?
      invariant NoDuplicates(t.outbounds[..i])
      invariant directSeen <==> HasDirect(t.outbounds[..i])
    {
      var tag := OutboundTag(t.outbounds[i]);
      TagsStep(t.outbounds[..i], t.outbounds[i]);
      assert t.outbounds[..i + 1] == t.outbounds[..i] + [t.outbounds[i]];
      if tag == "" {
        continue;
      }
      if tag == "DIRECT" {
        if directSeen {
          DuplicatesStay(t.outbounds, i + 1);
          return tags, Some(DuplicateTag(tag));
        }
        directSeen := true;
        continue;
      }
      if tag in tags {
        DuplicatesStay(t.outbounds, i + 1);
        return tags, Some(DuplicateTag(tag));
      }
      tags := tags + {tag};
    }
    assert t.outbounds[..|t.outbounds|] == t.outbounds;
  }

  method ValidateGroupMembers(t: Translation, tags: set<string>) returns (err: Option<Error>)
    ensures err.None? <==> MembersDefined(t.outbounds, tags)
    ensures err.Some? ==> err.value.DanglingMember? && err.value.member !in tags
  {
    for i := 0 to |t.outbounds|
      invariant MembersDefined(t.outbounds[..i], tags)
    {
      var ob := t.outbounds[i];
      assert t.outbounds[..i + 1] == t.outbounds[..i] + [ob];
      if ob.Grouped? {
        for j := 0 to |ob.group.members|
          invariant forall k | 0 <= k < j :: ob.group.members[k] in tags
        {
          if ob.group.members[j] !in tags {
            return Some(DanglingMember(ob.group.tag, ob.group.members[j]));
          }
        }
      }
    }
    assert t.outbounds[..|t.outbounds|] == t.outbounds;
    return None;
  }

  method ValidateDNSReferences(t: Translation, tags: set<string>) returns (err: Option<Error>)
    ensures err.None? <==> DnsDefined(t.dns, tags)
    ensures err.Some? ==> err.value.DanglingDetour? || err.value.DanglingDnsRule? || err.value.DanglingDnsFinal?
  {
    if t.dns.None? {
      return None;
    }
    var dns := t.dns.value;
    var serverTags := {};
    for i := 0 to |dns.servers|
      invariant serverTags == ServerTags(dns.servers[..i])
    {
      assert dns.servers[..i + 1] == dns.servers[..i] + [dns.servers[i]];
      if dns.servers[i].tag != "" {
        serverTags := serverTags + {dns.servers[i].tag};
      }
    }
    assert dns.servers[..|dns.servers|] == dns.servers;
    for i := 0 to |dns.servers|
      invariant DetoursDefined(dns.servers[..i], tags)
    {
      var srv := dns.servers[i];
      assert dns.servers[..i + 1] == dns.servers[..i] + [srv];
      if srv.detour.Some? && srv.detour.value != "" && srv.detour.value !in tags {
        return Some(DanglingDetour(srv.tag, srv.detour.value));
      }
    }
    for i := 0 to |dns.rules|
      invariant RuleServersDefined(dns.rules[..i], serverTags)
    {
      var rule := dns.rules[i];
      assert dns.rules[..i + 1] == dns.rules[..i] + [rule];
      if rule.Rule? && rule.server != "" && rule.server !in serverTags {
        return Some(DanglingDnsRule(rule.server));
      }
    }
    assert dns.rules[..|dns.rules|] == dns.rules;
    if dns.final != "" && dns.final !in serverTags {
      return Some(DanglingDnsFinal(dns.final));
    }
    return None;
  }

  method ValidateOutput(t: Translation) returns (err: Option<Error>)
    ensures err.None? <==> NoDuplicates(t.outbounds) && Closed(t.outbounds, t.final, t.dns)
    ensures !NoDuplicates(t.outbounds) <==> err.Some? && err.value.DuplicateTag?
  {
    var tags;
    tags, err := CollectOutboundTags(t);
    if err.Some? {
      return;
    }
    err := ValidateGroupMembers(t, tags);
    if err.Some? {
      return;
    }
    if t.final != "" && t.final !in tags {
      return Some(DanglingFinal(t.final));
    }
    err := ValidateDNSReferences(t, tags);
  }

  // ---------------------------------------------------------------------
  // What the check promises
  // ---------------------------------------------------------------------

  // A name leads somewhere: to DIRECT or to an outbound that carries it.
  ghost predicate LeadsTo(obs: seq<Outbound>, name: string) {
    name == "DIRECT" || (name != "" && exists i | 0 <= i < |obs| :: OutboundTag(obs[i]) == name)
  }

  ghost predicate Serves(servers: seq<Server>, name: string) {
    name != "" && exists i | 0 <= i < |servers| :: servers[i].tag == name
  }

  lemma LeadsToTags(obs: seq<Outbound>, name: string)
    ensures name in OutboundTags(obs) <==> LeadsTo(obs, name)
  {
    if i :| 0 <= i < |obs| && OutboundTag(obs[i]) == name {
      assert obs[i] in obs;
    }
    if ob :| ob in obs && OutboundTag(ob) == name {
      var i :| 0 <= i < |obs| && obs[i] == ob;
    }
  }

  lemma ServesTags(servers: seq<Server>, name: string)
    ensures name in ServerTags(servers) <==> Serves(servers, name)
  {
    if i :| 0 <= i < |servers| && servers[i].tag == name {
      assert servers[i] in servers;
    }
    if s :| s in servers && s.tag == name {
      var i :| 0 <= i < |servers| && servers[i] == s;
    }
  }

  // The references that must hold: members of groups, route.final, and in the DNS
  // section the detours of servers, the servers of rules and the final server. A
  // reference that is left empty holds, but a member of a group must have a name.
  lemma ClosedExactly(obs: seq<Outbound>, final: string, servers: seq<Server>, rules: seq<DnsTable.Rule>, last: string)
    ensures Closed(obs, final, Some(Dns(servers, rules, last))) <==>
      && (forall g, m | Grouped(g) in obs && m in g.members :: LeadsTo(obs, m))
      && (final == "" || LeadsTo(obs, final))
      && (forall s | s in servers && s.detour.Some? && s.detour != Some("") :: LeadsTo(obs, s.detour.value))
      && (forall r | r in rules && r.Rule? && r.server != "" :: Serves(servers, r.server))
      && (last == "" || Serves(servers, last))
    ensures Closed(obs, final, None) <==>
      && (forall g, m | Grouped(g) in obs && m in g.members :: LeadsTo(obs, m))
      && (final == "" || LeadsTo(obs, final))
  {
    forall name ensures name in OutboundTags(obs) <==> LeadsTo(obs, name) {
      LeadsToTags(obs, name);
    }
    forall name ensures name in ServerTags(servers) <==> Serves(servers, name) {
      ServesTags(servers, name);
    }
    assert forall ob | ob in obs && ob.Grouped? :: ob == Grouped(ob.group);
  }
}
