// That stops stop and that Destroy destroys, in every schedule.
module LifecycleDestroy {
  import opened Lifecycle
  import opened LifecycleInvariants
  import opened LifecycleSafety
  import opened LifecycleTheorems

  // A stop that has got past its change of state, or found nothing to change.
  predicate HasLeft(c: Call) {
    !c.kind.CallStart? && !c.pc.LoadState? && !c.pc.LeaveState?
  }

  ghost predicate DestroyCame(m: Machine) {
    exists t | t in m.calls :: m.calls[t].kind.CallDestroy? && HasLeft(m.calls[t])
  }

  lemma DestroyEffect(g: Shared, t: int, c: Call, ok: bool)
    requires Locks(g, t, c) && Phase(g, c)
    requires c.kind.CallDestroy? && HasLeft(c) ==> g.s.state == Destroyed
    ensures
      var o := Advance(g, t, c, ok);
      && o.c.kind == c.kind
      && (c.kind.CallDestroy? && HasLeft(o.c) ==> o.g.s.state == Destroyed)
      && (HasLeft(c) ==> HasLeft(o.c))
      && (o.g.s.state == Destroyed ==> g.s.state == Destroyed || (c.kind.CallDestroy? && HasLeft(o.c)))
      && (g.s.state == Destroyed ==> o.g.s.state == Destroyed)
  {
    if g.s.state == Destroyed {
      DestroyedStep(g, t, c, ok);
    }
  }

  lemma DestroyStep(m: Machine, t: int, ok: bool)
    requires Inv(m) && t in m.calls && (m.g.s.state == Destroyed <==> DestroyCame(m))
    ensures var m' := Apply(m, Move(t, ok)); m'.g.s.state == Destroyed <==> DestroyCame(m')
  {
    var c, m' := m.calls[t], Apply(m, Move(t, ok));
    assert Locks(m.g, t, c) && Facts(m.g, c);
    if c.kind.CallDestroy? && HasLeft(c) {
      assert DestroyCame(m);
    }
    DestroyEffect(m.g, t, c, ok);
    if m'.g.s.state == Destroyed && m.g.s.state != Destroyed {
      assert m'.calls[t].kind.CallDestroy? && HasLeft(m'.calls[t]);
    }
    if DestroyCame(m) {
      var u :| u in m.calls && m.calls[u].kind.CallDestroy? && HasLeft(m.calls[u]);
      assert m'.calls[u].kind.CallDestroy? && HasLeft(m'.calls[u]);
    }
    if DestroyCame(m') {
      var u :| u in m'.calls && m'.calls[u].kind.CallDestroy? && HasLeft(m'.calls[u]);
      if u != t {
        assert m.calls[u] == m'.calls[u];
      }
    }
  }

  lemma DestroyEnter(m: Machine, t: int, kind: Kind)
    requires t !in m.calls
    ensures DestroyCame(Apply(m, Enter(t, kind))) <==> DestroyCame(m)
  {
    var m' := Apply(m, Enter(t, kind));
    if DestroyCame(m) {
      var u :| u in m.calls && m.calls[u].kind.CallDestroy? && HasLeft(m.calls[u]);
      assert m'.calls[u] == m.calls[u];
    }
    if DestroyCame(m') {
      var u :| u in m'.calls && m'.calls[u].kind.CallDestroy? && HasLeft(m'.calls[u]);
      assert u != t && m.calls[u] == m'.calls[u];
    }
  }

  lemma {:induction false} DestroyRun(m: Machine, schedule: seq<Event>)
    requires Inv(m) && (m.g.s.state == Destroyed <==> DestroyCame(m))
    ensures Run(m, schedule).g.s.state == Destroyed <==> DestroyCame(Run(m, schedule))
    decreases |schedule|
  {
    if schedule != [] {
      var e := schedule[0];
      match e {
        case Enter(t, kind) =>
          if t !in m.calls {
            DestroyEnter(m, t, kind);
          }
        case Move(t, ok) =>
          if t in m.calls {
            DestroyStep(m, t, ok);
          }
      }
      ApplyKeeps(m, e);
      DestroyRun(Apply(m, e), schedule[1..]);
    }
  }

  // The service is destroyed exactly if some Destroy has got past its change of state.
  lemma DestroyedExactly(schedule: seq<Event>)
    ensures Exec(schedule).g.s.state == Destroyed <==> DestroyCame(Exec(schedule))
  {
    assert INIT.calls == map[];
    DestroyRun(INIT, schedule);
  }

  // When a Destroy has returned the service is destroyed, and with no call in flight
  // nothing is published, nothing is subscribed to, and every instance but those a
  // start overwrote has been closed.
  lemma DestroyDestroys(schedule: seq<Event>, t: int)
    requires t in Exec(schedule).calls && Exec(schedule).calls[t].kind == CallDestroy
    requires Exec(schedule).calls[t].pc == Done
    ensures Exec(schedule).g.s.state == Destroyed
    ensures Quiescent(Exec(schedule)) ==>
      var g := Exec(schedule).g;
      && g.s.running == Nil && g.b.subscribed == {}
      && forall i | 0 <= i < g.b.built && i !in g.h.lost :: g.b.closes[i] == 1
  {
    DestroyedExactly(schedule);
    if Quiescent(Exec(schedule)) {
      QuiescentService(schedule);
      forall i | 0 <= i < Exec(schedule).g.b.built && i !in Exec(schedule).g.h.lost
        ensures Exec(schedule).g.b.closes[i] == 1
      {
        InstancesAccounted(schedule, i);
      }
    }
  }

  // A Destroy that has been called can always be driven there, moving nobody but itself
  // and the holder of hooksMu.
  lemma DestroyComesThrough(before: seq<Event>, t: int) returns (more: seq<Event>)
    requires t in Exec(before).calls && Exec(before).calls[t].kind == CallDestroy
    ensures MovesOf(more, {t} + Singleton(Exec(before).g.s.hooksMu))
    ensures Exec(before + more).g.s.state == Destroyed
  {
    ExecInv(before);
    more := StopReturns(Exec(before), t);
    RunAppend(INIT, before, more);
    KindStays(Exec(before), more, t);
    DestroyDestroys(before + more, t);
  }

  lemma {:induction false} KindStays(m: Machine, schedule: seq<Event>, t: int)
    requires t in m.calls
    ensures t in Run(m, schedule).calls && Run(m, schedule).calls[t].kind == m.calls[t].kind
    decreases |schedule|
  {
    if schedule != [] {
      KindStays(Apply(m, schedule[0]), schedule[1..], t);
    }
  }

  // Two steps of a Destroy do it, if nothing runs.
  lemma TwoStepsDestroy()
    ensures Exec([Enter(0, CallDestroy), Move(0, true), Move(0, true)]).g.s.state == Destroyed
  {
    var entered := Apply(INIT, Enter(0, CallDestroy));
    var loaded := Apply(entered, Move(0, true));
    var left := Apply(loaded, Move(0, true));
    var schedule := [Enter(0, CallDestroy), Move(0, true), Move(0, true)];
    assert schedule[1..] == [Move(0, true), Move(0, true)] && schedule[1..][1..] == [Move(0, true)];
    assert Run(left, []) == left;
    assert Run(loaded, [Move(0, true)]) == Run(left, [Move(0, true)][1..]);
    assert Exec(schedule) == left;
  }

  // ---------------------------------------------------------------------
  // Stops
  // ---------------------------------------------------------------------

  predicate Down(m: Machine) {
    m.g.s.state != Running && m.g.s.state != Starting
  }

  lemma LeaveEffect(g: Shared, t: int, c: Call, ok: bool)
    requires Locks(g, t, c) && !HasLeft(c)
    ensures
      var o := Advance(g, t, c, ok);
      HasLeft(o.c) ==> o.g.s.state != Running && o.g.s.state != Starting
  {
  }

  // A stop goes past its change of state only when the service is neither Running nor
  // Starting: it has just made it so, or found it so.
  lemma LeavingIsDown(m: Machine, t: int, ok: bool)
    requires Inv(m) && t in m.calls && !HasLeft(m.calls[t])
    ensures var m' := Apply(m, Move(t, ok)); HasLeft(m'.calls[t]) ==> Down(m')
  {
    assert Locks(m.g, t, m.calls[t]);
    LeaveEffect(m.g, t, m.calls[t], ok);
  }

  // Every Stop and every Destroy that has returned has had its moment: in every schedule
  // there is a prefix that ends, after the call was entered, with the service neither
  // Running nor Starting.
  lemma {:induction false} StopsTakeEffect(schedule: seq<Event>, t: int)
    requires t in Exec(schedule).calls && HasLeft(Exec(schedule).calls[t])
    ensures exists k | 0 <= k <= |schedule| :: t in Exec(schedule[..k]).calls && Down(Exec(schedule[..k]))
    decreases |schedule|
  {
    var n := |schedule| - 1;
    if schedule != [] {
      var before, e := schedule[..n], schedule[n];
      assert schedule == before + [e];
      RunAppend(INIT, before, [e]);
      assert Run(Exec(before), [e]) == Run(Apply(Exec(before), e), []);
      ExecInv(before);
      if t in Exec(before).calls && HasLeft(Exec(before).calls[t]) {
        StopsTakeEffect(before, t);
        var k :| 0 <= k <= n && t in Exec(before[..k]).calls && Down(Exec(before[..k]));
        assert schedule[..k] == before[..k];
      } else {
        assert t in Exec(before).calls && e == Move(t, e.ok);
        LeavingIsDown(Exec(before), t, e.ok);
        assert schedule[..|schedule|] == schedule;
      }
    }
  }
}
