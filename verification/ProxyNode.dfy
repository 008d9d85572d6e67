// The proxy node in use: from the default outbound through the current member of
// each group.
module ProxyNode {
  import opened Wrappers

  // Direct, block and dns outbounds are Local; a group knows its current member.
  datatype Kind = Local | Leaf | Group(now: string)

  datatype Outbound = Outbound(tag: string, kind: Kind)

  const MAX_PROXY_DEPTH: nat := 16

  // Looking up a tag finds the outbound with that tag, and the default outbound is
  // one that can be looked up.
  predicate Registry(outbounds: map<string, Outbound>, start: Option<Outbound>) {
    && (forall tag | tag in outbounds :: outbounds[tag].tag == tag)
    && (start.Some? ==> start.value.tag in outbounds && outbounds[start.value.tag] == start.value)
  }

  function Next(outbounds: map<string, Outbound>, o: Outbound): Option<Outbound>
    requires o.kind.Group?
  {
    if o.kind.now != "" && o.kind.now in outbounds then Some(outbounds[o.kind.now]) else None
  }

  // A chain of groups, each followed by its current member, that ends in a leaf.
  predicate Chain(outbounds: map<string, Outbound>, path: seq<Outbound>) {
    && path != [] && path[|path| - 1].kind.Leaf?
    && forall i | 0 <= i < |path| - 1 :: path[i].kind.Group? && Next(outbounds, path[i]) == Some(path[i + 1])
  }

  // The leaf that is reached within n nodes.
  function Walk(outbounds: map<string, Outbound>, o: Option<Outbound>, n: nat): Option<Outbound>
    decreases n
  {
    if n == 0 || o == None || o.value.kind.Local? then None
    else if o.value.kind.Leaf? then o
    else Walk(outbounds, Next(outbounds, o.value), n - 1)
  }

  lemma {:induction false} WalkFollowsChain(outbounds: map<string, Outbound>, path: seq<Outbound>, n: nat)
    requires Chain(outbounds, path) && |path| <= n
    ensures Walk(outbounds, Some(path[0]), n) == Some(path[|path| - 1])
    decreases n
  {
    if |path| > 1 {
      var rest := path[1..];
      forall i | 0 <= i < |rest| - 1
        ensures rest[i].kind.Group? && Next(outbounds, rest[i]) == Some(rest[i + 1])
      {
        assert rest[i] == path[i + 1] && rest[i + 1] == path[i + 1 + 1];
      }
      WalkFollowsChain(outbounds, rest, n - 1);
    }
  }

  lemma {:induction false} WalkFindsChain(outbounds: map<string, Outbound>, o: Outbound, n: nat)
    requires Walk(outbounds, Some(o), n).Some?
    ensures
      exists path ::
        Chain(outbounds, path) && |path| <= n && path[0] == o
        && path[|path| - 1] == Walk(outbounds, Some(o), n).value
    decreases n
  {
    if o.kind.Leaf? {
      var path := [o];
      assert Chain(outbounds, path) && path[|path| - 1] == o;
    } else {
      var next := Next(outbounds, o);
      WalkFindsChain(outbounds, next.value, n - 1);
      var rest :| Chain(outbounds, rest) && |rest| <= n - 1 && rest[0] == next.value
                  && rest[|rest| - 1] == Walk(outbounds, next, n - 1).value;
      var path := [o] + rest;
      assert forall i | 0 < i < |path| - 1 :: path[i] == rest[i - 1] && path[i + 1] == rest[i];
      assert Chain(outbounds, path) && |path| <= n;
    }
  }

  // The groups visited so far, in order, and the outbound they lead to.
  ghost predicate Trail(outbounds: map<string, Outbound>, visited: seq<Outbound>, o: Option<Outbound>) {
    && (forall i | 0 <= i < |visited| :: visited[i].kind.Group?)
    && (forall i | 0 <= i < |visited| - 1 :: Next(outbounds, visited[i]) == Some(visited[i + 1]))
    && (visited != [] ==> Next(outbounds, visited[|visited| - 1]) == o)
  }

  // A walk that has come back to a group it has visited never reaches a leaf.
  lemma {:induction false} CycleReachesNothing(
      outbounds: map<string, Outbound>, visited: seq<Outbound>, o: Outbound, start: nat, i: nat, n: nat)
    requires Trail(outbounds, visited, Some(o)) && start < |visited| && visited[start] == o
    requires start <= i < |visited|
    ensures Walk(outbounds, Some(visited[i]), n) == None
    decreases n
  {
    if n > 0 {
      if i + 1 < |visited| {
        CycleReachesNothing(outbounds, visited, o, start, i + 1, n - 1);
      } else {
        CycleReachesNothing(outbounds, visited, o, start, start, n - 1);
      }
    }
  }

  method CurrentProxyNode(outbounds: map<string, Outbound>, start: Option<Outbound>)
    returns (node: Option<Outbound>)
    requires Registry(outbounds, start)
    ensures node == Walk(outbounds, start, MAX_PROXY_DEPTH)
  {
    var out := start;
    var seen: set<string> := {};
    ghost var visited: seq<Outbound> := [];
    for depth := 0 to MAX_PROXY_DEPTH
      invariant Walk(outbounds, start, MAX_PROXY_DEPTH) == Walk(outbounds, out, MAX_PROXY_DEPTH - depth)
      invariant Trail(outbounds, visited, out)
      invariant seen == set o | o in visited :: o.tag
      invariant forall i | 0 <= i < |visited| ::
        visited[i].tag in outbounds && outbounds[visited[i].tag] == visited[i]
      invariant out.Some? ==> out.value.tag in outbounds && outbounds[out.value.tag] == out.value
    {
      if out == None {
        return None;
      }
      var o := out.value;
      if o.kind.Local? {
        return None;
      }
      if !o.kind.Group? {
        return out;
      }
      var tag := o.tag;
      if tag in seen {
        ghost var v :| v in visited && v.tag == tag;
        ghost var i :| 0 <= i < |visited| && visited[i] == v;
        CycleReachesNothing(outbounds, visited, o, i, i, MAX_PROXY_DEPTH - depth);
        return None;
      }
      seen := seen + {tag};
      visited := visited + [o];
      assert Trail(outbounds, visited, Next(outbounds, o));
      var next := o.kind.now;
      if next == tag {
        SelfReachesNothing(outbounds, o, MAX_PROXY_DEPTH - depth);
        return None;
      }
      if next == "" || next !in outbounds {
        return None;
      }
      out := Some(outbounds[next]);
    }
    return None;
  }

  lemma {:induction false} SelfReachesNothing(outbounds: map<string, Outbound>, o: Outbound, n: nat)
    requires o.kind.Group? && o.kind.now == o.tag
    requires o.tag in outbounds && outbounds[o.tag] == o
    ensures Walk(outbounds, Some(o), n) == None
  {
    if n > 0 {
      SelfReachesNothing(outbounds, o, n - 1);
    }
  }

  // The node is the leaf at the end of the chain of current members, if there is
  // one with at most 16 nodes; remembering the visited groups changes nothing. A group
  // that has nothing selected leads nowhere.
  lemma NodeIsReachableLeaf(outbounds: map<string, Outbound>, start: Outbound, node: Outbound)
    ensures
      Walk(outbounds, Some(start), MAX_PROXY_DEPTH) == Some(node)
      <==> exists path ::
             Chain(outbounds, path) && |path| <= 16 && path[0] == start
             && path[|path| - 1] == node
    ensures start.kind == Group("") ==> Walk(outbounds, Some(start), MAX_PROXY_DEPTH) == None
  {
    if Walk(outbounds, Some(start), MAX_PROXY_DEPTH) == Some(node) {
      WalkFindsChain(outbounds, start, MAX_PROXY_DEPTH);
    }
    if path :| Chain(outbounds, path) && |path| <= MAX_PROXY_DEPTH && path[0] == start
               && path[|path| - 1] == node {
      WalkFollowsChain(outbounds, path, MAX_PROXY_DEPTH);
    }
  }
}
