// What holds of every schedule of starts, stops and destroys.
module LifecycleTheorems {
  import opened Lifecycle
  import opened LifecycleInvariants
  import opened LifecycleSafety

  // A duty that is owed has a call in flight, and so has a mutex that is held.
  lemma DebtorInFlight(m: Machine, d: Duty)
    requires Inv(m) && Owed(m.g, d)
    ensures !Quiescent(m)
  {
    var t :| Payer(m, t, d);
    assert !m.calls[t].pc.Done?;
  }

  lemma HolderInFlight(m: Machine)
    requires Inv(m) && (m.g.s.startMu.At? || m.g.s.hooksMu.At?)
    ensures !Quiescent(m)
  {
    var u := if m.g.s.startMu.At? then m.g.s.startMu.id else m.g.s.hooksMu.id;
    assert Locks(m.g, u, m.calls[u]);
    assert !m.calls[u].pc.Done?;
  }

  lemma QuiescentOwesNothing(m: Machine)
    requires Inv(m) && Quiescent(m)
    ensures forall d :: !Owed(m.g, d)
    ensures m.g.s.startMu == Nil && m.g.s.hooksMu == Nil
  {
    forall d ensures !Owed(m.g, d) {
      if Owed(m.g, d) {
        DebtorInFlight(m, d);
      }
    }
    if m.g.s.startMu.At? || m.g.s.hooksMu.At? {
      HolderInFlight(m);
    }
  }

  // ---------------------------------------------------------------------
  // Instances
  // ---------------------------------------------------------------------

  // No instance is closed twice, none is closed while `running` still points to
  // it, and its queries are told to stop first.
  lemma ClosedAtMostOnce(schedule: seq<Event>, i: int)
    ensures
      var g := Exec(schedule).g;
      && g.b.closes[i] <= 1
      && (i in g.b.closes ==> g.s.running != At(i) && i in g.b.quiet)
  {
    ExecInv(schedule);
  }

  // When no call is in flight every instance that was ever started is in exactly
  // one of three places: published, closed once, or lost because a later start
  // overwrote it.
  lemma InstancesAccounted(schedule: seq<Event>, i: int)
    requires Quiescent(Exec(schedule)) && 0 <= i < Exec(schedule).g.b.built
    ensures
      var g := Exec(schedule).g;
      && (g.s.running == At(i) ==> g.b.closes[i] == 0 && i !in g.h.lost)
      && (i in g.h.lost ==> g.b.closes[i] == 0)
      && (g.s.running != At(i) && i !in g.h.lost ==> g.b.closes[i] == 1)
  {
    ExecInv(schedule);
    QuiescentOwesNothing(Exec(schedule));
    assert !Owed(Exec(schedule).g, Keep(i));
  }

  lemma LossStep(g: Shared, t: int, c: Call, ok: bool)
    ensures Advance(g, t, c, ok).g.h.lost != g.h.lost ==> c.pc.Publish? && g.s.running.At?
  {
  }

  // An instance is overwritten only by a start that publishes while another call
  // stands between its change of state and its Swap.
  lemma OverwrittenOnlyBeforeASwap(m: Machine, t: int, ok: bool)
    requires Inv(m) && t in m.calls
    ensures Apply(m, Move(t, ok)).g.h.lost != m.g.h.lost ==> m.calls[t].pc.Publish? && Taking(m)
  {
    LossStep(m.g, t, m.calls[t], ok);
    if m.calls[t].pc.Publish? && m.g.s.running.At? {
      PublishOver(m, t);
    }
  }

  // An instance that was in `running` when some Stop or Destroy took the state is
  // gone when all calls have returned, and it has been closed exactly once unless a
  // start overwrote it.
  lemma TakenMeansClosed(schedule: seq<Event>, i: int)
    requires Quiescent(Exec(schedule)) && i in Exec(schedule).g.h.taken
    ensures
      var g := Exec(schedule).g;
      && g.s.running != At(i)
      && (g.b.closes[i] == 1 <==> i !in g.h.lost)
      && (g.b.closes[i] == 0 <==> i in g.h.lost)
  {
    QuiescentService(schedule);
    ExecInv(schedule);
    InstancesAccounted(schedule, i);
  }

  // ---------------------------------------------------------------------
  // The service between calls
  // ---------------------------------------------------------------------

  // With no call in flight: no mutex is held, the state is not Starting, an
  // instance is published only if the state is Running, the only subscription
  // that is not cancelled is that of the published instance, the newest start was
  // the last to act, and the stored rule-set proxy is that of the published
  // instance.
  lemma QuiescentService(schedule: seq<Event>)
    requires Quiescent(Exec(schedule))
    ensures
      var g := Exec(schedule).g;
      && g.s.startMu == Nil && g.s.hooksMu == Nil
      && g.s.state != Starting
      && (g.s.state != Running ==> g.s.running == Nil)
      && g.b.subscribed <= Singleton(g.s.running)
      && g.h.touched == g.s.startSeq
      && (g.s.running.At? ==>
            g.s.running.id in g.b.starter && g.s.lastProxy == At(g.b.starter[g.s.running.id]))
  {
    var m := Exec(schedule);
    ExecInv(schedule);
    QuiescentOwesNothing(m);
    assert !Owed(m.g, Serve) && !Owed(m.g, Leave) && !Owed(m.g, Remove);
    assert !Owed(m.g, Cancel) && !Owed(m.g, Report);
  }

  lemma DestroyedStep(g: Shared, t: int, c: Call, ok: bool)
    requires Phase(g, c) && g.s.state == Destroyed
    ensures Advance(g, t, c, ok).g.s.state == Destroyed
  {
  }

  lemma DestroyedStays(m: Machine, schedule: seq<Event>)
    requires Inv(m) && m.g.s.state == Destroyed
    ensures Run(m, schedule).g.s.state == Destroyed
    decreases |schedule|
  {
    if schedule != [] {
      var e := schedule[0];
      if e.Move? && e.call in m.calls {
        DestroyedStep(m.g, e.call, m.calls[e.call], e.ok);
      }
      ApplyKeeps(m, e);
      DestroyedStays(Apply(m, e), schedule[1..]);
    }
  }

  // A service that has been destroyed stays destroyed.
  lemma DestroyedIsFinal(before: seq<Event>, after: seq<Event>)
    requires Exec(before).g.s.state == Destroyed
    ensures Exec(before + after).g.s.state == Destroyed
  {
    ExecInv(before);
    RunAppend(INIT, before, after);
    DestroyedStays(Exec(before), after);
  }

  lemma TouchStep(g: Shared, t: int, c: Call, ok: bool)
    requires Tickets(g, c)
    ensures
      var h' := Advance(g, t, c, ok).g.h;
      h'.touched != g.h.touched ==> g.h.touched < h'.touched == g.s.startSeq
  {
  }

  // Starts act in the order of their tickets, and a start that acts holds the
  // newest ticket drawn so far.
  lemma StartsActInOrder(m: Machine, e: Event)
    requires Inv(m)
    ensures
      var h' := Apply(m, e).g.h;
      h'.touched != m.g.h.touched ==> m.g.h.touched < h'.touched == m.g.s.startSeq
  {
    if e.Move? && e.call in m.calls {
      TouchStep(m.g, e.call, m.calls[e.call], e.ok);
    }
  }

  // ---------------------------------------------------------------------
  // No deadlock
  // ---------------------------------------------------------------------

  // The call can move: it is not finished and does not wait for a mutex.
  predicate Enabled(g: Shared, c: Call) {
    && !c.pc.Done?
    && !(c.pc.LockStart? && g.s.startMu.At?)
    && !((c.pc.LockHooks? || c.pc.SubLock?) && g.s.hooksMu.At?)
  }

  lemma SomebodyCanMove(schedule: seq<Event>)
    requires !Quiescent(Exec(schedule))
    ensures var m := Exec(schedule); exists t :: t in m.calls && Enabled(m.g, m.calls[t])
  {
    var m := Exec(schedule);
    ExecInv(schedule);
    var t :| t in m.calls && !m.calls[t].pc.Done?;
    if m.g.s.hooksMu.At? {
      var u := m.g.s.hooksMu.id;
      assert Locks(m.g, u, m.calls[u]);
      assert Enabled(m.g, m.calls[u]);
    } else if m.g.s.startMu.At? {
      var u := m.g.s.startMu.id;
      assert Locks(m.g, u, m.calls[u]);
      assert Enabled(m.g, m.calls[u]);
    } else {
      assert Enabled(m.g, m.calls[t]);
    }
  }

  // How many steps the holder of hooksMu needs to release it.
  function HooksRank(pc: Pc): nat {
    match pc
    case SubCancelOld => 5
    case SubCheck => 4
    case SubInstall => 3
    case SubManagers => 2
    case SubUnlock => 1
    case CancelHooks => 2
    case UnlockHooks => 1
    case _ => 0
  }

  predicate MovesOf(schedule: seq<Event>, calls: set<int>) {
    forall i | 0 <= i < |schedule| :: schedule[i].Move? && schedule[i].call in calls
  }

  lemma HooksRankDrops(g: Shared, t: int, c: Call)
    requires Locks(g, t, c) && g.s.hooksMu == At(t)
    ensures
      var o := Advance(g, t, c, true);
      o.g.s.hooksMu == Nil || (o.g.s.hooksMu == At(t) && HooksRank(o.c.pc) < HooksRank(c.pc))
  {
  }

  // One step of the holder of hooksMu: it lets go or comes nearer to it.
  lemma ReleaseStep(m: Machine, u: int)
    requires Inv(m) && m.g.s.hooksMu == At(u)
    ensures
      var m' := Apply(m, Move(u, true));
      && u in m.calls && Inv(m')
      && (m'.g.s.hooksMu == Nil
          || (m'.g.s.hooksMu == At(u) && u in m'.calls && HooksRank(m'.calls[u].pc) < HooksRank(m.calls[u].pc)))
      && forall t | t in m.calls && t != u :: t in m'.calls && m'.calls[t] == m.calls[t]
  {
    HooksRankDrops(m.g, u, m.calls[u]);
    ApplyKeeps(m, Move(u, true));
  }

  lemma ReleaseHooks(m: Machine, u: int) returns (schedule: seq<Event>)
    requires Inv(m) && m.g.s.hooksMu == At(u)
    ensures MovesOf(schedule, {u})
    ensures
      var m' := Run(m, schedule);
      && Inv(m') && m'.g.s.hooksMu == Nil
      && forall t | t in m.calls && t != u :: t in m'.calls && m'.calls[t] == m.calls[t]
    decreases HooksRank(m.calls[u].pc)
  {
    var e := Move(u, true);
    var m1 := Apply(m, e);
    ReleaseStep(m, u);
    if m1.g.s.hooksMu == Nil {
      schedule := [e];
      assert schedule[1..] == [];
    } else {
      var rest := ReleaseHooks(m1, u);
      schedule := [e] + rest;
      assert schedule[1..] == rest;
    }
  }

  // How many steps a stop needs when nobody else moves.
  function StopRank(g: Shared, c: Call): nat {
    match c.pc
    case LoadState => 8
    case LeaveState => if c.st == g.s.state then 7 else 9
    case TakeInstance => 6
    case LockHooks => 5
    case CancelHooks => 4
    case UnlockHooks => 3
    case StopQueries => 2
    case CloseInstance => 1
    case _ => 0
  }

  lemma StopRankDrops(g: Shared, t: int, c: Call, ok: bool)
    requires Locks(g, t, c) && !c.kind.CallStart? && !c.pc.Done?
    requires g.s.hooksMu == Nil || g.s.hooksMu == At(t)
    ensures
      var o := Advance(g, t, c, ok);
      && o.c.kind == c.kind && StopRank(o.g, o.c) < StopRank(g, c)
      && (o.g.s.hooksMu == Nil || o.g.s.hooksMu == At(t))
  {
  }

  lemma FinishAlone(m: Machine, t: int) returns (schedule: seq<Event>)
    requires Inv(m) && t in m.calls && !m.calls[t].kind.CallStart?
    requires m.g.s.hooksMu == Nil || m.g.s.hooksMu == At(t)
    ensures MovesOf(schedule, {t})
    ensures var m' := Run(m, schedule); t in m'.calls && m'.calls[t].pc.Done?
    decreases StopRank(m.g, m.calls[t])
  {
    if m.calls[t].pc.Done? {
      schedule := [];
    } else {
      var e := Move(t, true);
      StopRankDrops(m.g, t, m.calls[t], true);
      ApplyKeeps(m, e);
      var rest := FinishAlone(Apply(m, e), t);
      schedule := [e] + rest;
      assert schedule[1..] == rest;
    }
  }

  // Right after these steps of a start or a stop the host is called back with the
  // new state.
  predicate InCallback(c: Call) {
    c.pc.TakeInstance? || c.pc.Build? || c.pc.UnlockStart? || c.pc.SubLock?
  }

  lemma RunAppend(m: Machine, a: seq<Event>, b: seq<Event>)
    ensures Run(m, a + b) == Run(Run(m, a), b)
    decreases |a|
  {
    if a == [] {
      assert a + b == b;
    } else {
      assert (a + b)[0] == a[0] && (a + b)[1..] == a[1..] + b;
      RunAppend(Apply(m, a[0]), a[1..], b);
    }
  }

  // A Stop or Destroy never waits for a start: it can always be driven to its end
  // while every other call stands still, except one that is inside the hooks
  // critical section. In particular it can be called from within a callback.
  lemma StopReturns(m: Machine, t: int) returns (schedule: seq<Event>)
    requires Inv(m) && t in m.calls && !m.calls[t].kind.CallStart?
    ensures MovesOf(schedule, {t} + Singleton(m.g.s.hooksMu))
    ensures
      forall p | p in m.calls && p != t && InCallback(m.calls[p]) :: m.g.s.hooksMu != At(p)
    ensures var m' := Run(m, schedule); t in m'.calls && m'.calls[t].pc.Done?
  {
    forall p | p in m.calls && p != t && InCallback(m.calls[p]) ensures m.g.s.hooksMu != At(p) {
      assert Locks(m.g, p, m.calls[p]);
    }
    if m.g.s.hooksMu == Nil || m.g.s.hooksMu == At(t) {
      schedule := FinishAlone(m, t);
    } else {
      var release := ReleaseHooks(m, m.g.s.hooksMu.id);
      var finish := FinishAlone(Run(m, release), t);
      schedule := release + finish;
      RunAppend(m, release, finish);
    }
  }
}
