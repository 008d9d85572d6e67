// Runs in which nobody calls Stop or Destroy from outside: any number of
// concurrent starts ends with the configuration of the newest one.
module LifecycleStarts {
  import opened Lifecycle
  import opened LifecycleInvariants
  import opened LifecycleSafety
  import opened LifecycleTheorems

  predicate Subscribed(g: Shared) {
    g.s.subCancel == g.s.running || (g.s.running.At? && g.s.running.id in g.h.unmanaged)
  }

  // The start that acted last has been published, and its instance is subscribed
  // to if there is anything to subscribe to.
  predicate Online(g: Shared) {
    && g.s.state == Running && g.s.running.At?
    && g.s.running.id in g.b.starter && g.b.starter[g.s.running.id] == g.h.touched
    && g.h.touched !in g.h.failed
    && Subscribed(g)
  }

  predicate Empty(g: Shared) {
    g.s.state == Initialized && g.s.running == Nil && g.s.subCancel == Nil
  }

  predicate Settled(g: Shared) {
    Online(g) || (Empty(g) && (g.h.touched == 0 || g.h.touched in g.h.failed))
  }

  // The service as the start that holds startMu leaves it behind, step by step.
  predicate Solo(g: Shared, c: Call) {
    match c.pc
    case CheckTicket => Settled(g)
    case UnlockStart => Settled(g)
    case LoadState => (g.s.state == Running && g.s.running.At?) || Empty(g)
    case LeaveState => g.s.state == Running && g.s.running.At?
    case TakeInstance => g.s.state == Initialized
    case LockHooks => g.s.state == Initialized && g.s.running == Nil
    case CancelHooks => g.s.state == Initialized && g.s.running == Nil
    case UnlockHooks => Empty(g)
    case StopQueries => Empty(g)
    case CloseInstance => Empty(g)
    case EnterStarting => Empty(g)
    case Build => g.s.state == Starting && g.s.running == Nil && g.s.subCancel == Nil
    case Rollback => g.s.state == Starting && g.s.running == Nil && g.s.subCancel == Nil
    case Publish => g.s.state == Starting && g.s.running == Nil && g.s.subCancel == Nil
    case EnterRunning => g.s.state == Starting && g.s.running == At(c.rs)
    case SubUnlock => g.s.state == Running && g.s.running == At(c.rs) && Subscribed(g)
    case StoreProxy => g.s.state == Running && g.s.running == At(c.rs) && Subscribed(g)
    case _ => HookSteps(c) && g.s.state == Running && g.s.running == At(c.rs)
  }

  predicate Unfailed(g: Shared, c: Call) {
    && (forall k | k in g.h.failed :: k <= g.h.touched)
    && (Acting(c) ==> g.h.touched !in g.h.failed)
  }

  predicate StartCall(g: Shared, c: Call) {
    && c.kind.CallStart? && Unfailed(g, c)
    && (HoldsStart(c) ==> Solo(g, c))
  }

  ghost predicate StartsInv(m: Machine) {
    !m.g.h.external ==>
      && Unfailed(m.g, IDLE) && m.g.h.lost == {}
      && (m.g.s.startMu == Nil ==> Settled(m.g))
      && (forall t | t in m.calls :: StartCall(m.g, m.calls[t]))
  }

  lemma SoloStop(g: Shared, t: int, c: Call, ok: bool)
    requires StopSteps(c) && c.kind.CallStart? && Locks(g, t, c) && Phase(g, c) && Solo(g, c)
    ensures var o := Advance(g, t, c, ok); HoldsStart(o.c) && Solo(o.g, o.c)
  {
  }

  lemma SoloRest(g: Shared, t: int, c: Call, ok: bool)
    requires !StopSteps(c) && c.kind.CallStart?
    requires Locks(g, t, c) && Tickets(g, c) && Built(g, c) && Subscription(g, c) && Unfailed(g, c)
    requires HoldsStart(c) ==> Solo(g, c)
    requires g.s.startMu == Nil ==> Settled(g)
    ensures
      var o := Advance(g, t, c, ok);
      && (HoldsStart(o.c) ==> Solo(o.g, o.c))
      && (o.g.s.startMu == Nil ==> Settled(o.g))
  {
  }

  lemma UnfailedStep(g: Shared, t: int, c: Call, ok: bool)
    requires c.kind.CallStart? && Tickets(g, c) && Unfailed(g, c)
    ensures var o := Advance(g, t, c, ok); Unfailed(o.g, o.c) && o.c.kind.CallStart?
  {
  }

  lemma StartOwn(g: Shared, t: int, c: Call, ok: bool)
    requires Locks(g, t, c) && Facts(g, c) && StartCall(g, c)
    requires g.s.startMu == Nil ==> Settled(g)
    ensures
      var o := Advance(g, t, c, ok);
      && StartCall(o.g, o.c)
      && (o.g.s.startMu == Nil ==> Settled(o.g))
  {
    UnfailedStep(g, t, c, ok);
    if StopSteps(c) {
      SoloStop(g, t, c, ok);
      LocksOwn(g, t, c, ok);
    } else {
      SoloRest(g, t, c, ok);
    }
  }

  // A start that waits changes nothing that the others rely on.
  lemma StartOther(g: Shared, t: int, c: Call, ok: bool, u: int, d: Call)
    requires t != u && Locks(g, t, c) && Locks(g, u, d) && Tickets(g, c)
    requires StartCall(g, c) && StartCall(g, d)
    ensures StartCall(Advance(g, t, c, ok).g, d)
  {
  }

  lemma StartsKeptByEnter(m: Machine, t: int, kind: Kind)
    requires StartsInv(m) && t !in m.calls
    ensures StartsInv(Apply(m, Enter(t, kind)))
  {
    var m' := Apply(m, Enter(t, kind));
    if !m'.g.h.external {
      forall u | u in m.calls ensures StartCall(m'.g, m.calls[u]) {
        assert StartCall(m.g, m.calls[u]);
      }
    }
  }

  // The only start that acts publishes over nothing.
  lemma NothingOverwritten(g: Shared, t: int, c: Call, ok: bool)
    requires Locks(g, t, c) && StartCall(g, c)
    ensures Advance(g, t, c, ok).g.h.lost == g.h.lost
  {
  }

  lemma StartsKeptByMove(m: Machine, t: int, ok: bool)
    requires Inv(m) && StartsInv(m) && !m.g.h.external && t in m.calls
    ensures StartsInv(Apply(m, Move(t, ok)))
  {
    var m' := Apply(m, Move(t, ok));
    var c := m.calls[t];
    assert Locks(m.g, t, c) && Facts(m.g, c) && StartCall(m.g, c);
    StartOwn(m.g, t, c, ok);
    NothingOverwritten(m.g, t, c, ok);
    forall u | u in m.calls && u != t ensures StartCall(m'.g, m.calls[u]) {
      assert Locks(m.g, u, m.calls[u]) && StartCall(m.g, m.calls[u]);
      StartOther(m.g, t, c, ok, u, m.calls[u]);
    }
  }

  lemma ExternalStays(g: Shared, t: int, c: Call, ok: bool)
    ensures Advance(g, t, c, ok).g.h.external == g.h.external
  {
  }

  lemma StartsKept(m: Machine, e: Event)
    requires Inv(m) && StartsInv(m)
    ensures StartsInv(Apply(m, e))
  {
    match e
    case Enter(t, kind) =>
      if t !in m.calls {
        StartsKeptByEnter(m, t, kind);
      }
    case Move(t, ok) =>
      if t in m.calls {
        if m.g.h.external {
          ExternalStays(m.g, t, m.calls[t], ok);
        } else {
          StartsKeptByMove(m, t, ok);
        }
      }
  }

  predicate OnlyStarts(schedule: seq<Event>) {
    forall i | 0 <= i < |schedule| :: schedule[i].Enter? ==> schedule[i].kind.CallStart?
  }

  lemma StartsRun(m: Machine, schedule: seq<Event>)
    requires Inv(m) && StartsInv(m) && OnlyStarts(schedule) && !m.g.h.external
    ensures StartsInv(Run(m, schedule)) && !Run(m, schedule).g.h.external
    decreases |schedule|
  {
    if schedule != [] {
      var e := schedule[0];
      ApplyKeeps(m, e);
      StartsKept(m, e);
      if e.Move? && e.call in m.calls {
        ExternalStays(m.g, e.call, m.calls[e.call], e.ok);
      }
      StartsRun(Apply(m, e), schedule[1..]);
    }
  }

  // Any number of concurrent starts, once they have all returned: the service
  // runs the instance built by the start with the newest ticket, subscribed to
  // and with that start's rule-set proxy stored; or, exactly if that start
  // failed, it runs nothing. Every other instance has been closed.
  lemma NewestStartWins(schedule: seq<Event>)
    requires OnlyStarts(schedule) && Quiescent(Exec(schedule)) && Exec(schedule).g.s.startSeq > 0
    ensures
      var g := Exec(schedule).g;
      var newest := g.s.startSeq;
      && (newest in g.h.failed ==> Empty(g) && g.b.subscribed == {})
      && (newest !in g.h.failed ==>
            && g.s.state == Running && g.s.running.At?
            && g.s.running.id in g.b.starter && g.b.starter[g.s.running.id] == newest
            && g.s.lastProxy == At(newest)
            && (g.s.running.id in g.h.unmanaged || g.b.subscribed == {g.s.running.id}))
      && (forall i | 0 <= i < g.b.built && g.s.running != At(i) :: g.b.closes[i] == 1)
  {
    StartsRun(INIT, schedule);
    ExecInv(schedule);
    QuiescentService(schedule);
    forall i | 0 <= i < Exec(schedule).g.b.built && Exec(schedule).g.s.running != At(i)
      ensures Exec(schedule).g.b.closes[i] == 1
    {
      InstancesAccounted(schedule, i);
    }
  }
}
