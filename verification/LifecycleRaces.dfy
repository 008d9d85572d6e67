// Two promises the service does not keep when a stop overlaps a start, each with
// the schedule that breaks it.
module LifecycleRaces {
  import opened Lifecycle
  import opened LifecycleTheorems

  // ---------------------------------------------------------------------
  // Stretches of a call that nobody interrupts
  // ---------------------------------------------------------------------

  // `n` moves of call `t`.
  function Moves(t: int, n: nat): seq<Event> {
    if n == 0 then [] else [Move(t, true)] + Moves(t, n - 1)
  }

  // The same moves seen from the call alone.
  function Steps(g: Shared, t: int, c: Call, n: nat): Outcome
    decreases n
  {
    if n == 0 then Outcome(g, c)
    else
      var o := Advance(g, t, c, true);
      Steps(o.g, t, o.c, n - 1)
  }

  lemma {:induction false} RunMoves(m: Machine, t: int, n: nat)
    requires t in m.calls
    ensures
      var o := Steps(m.g, t, m.calls[t], n);
      Run(m, Moves(t, n)) == Machine(o.g, m.calls[t := o.c])
    decreases n
  {
    if n == 0 {
      assert m.calls[t := m.calls[t]] == m.calls;
    } else {
      var m1 := Apply(m, Move(t, true));
      assert Moves(t, n)[1..] == Moves(t, n - 1);
      RunMoves(m1, t, n - 1);
      var o := Steps(m1.g, t, m1.calls[t], n - 1);
      assert m1.calls[t := o.c] == m.calls[t := o.c];
    }
  }

  ghost predicate Reaches(g: Shared, t: int, c: Call, o: Outcome) {
    exists n: nat :: Steps(g, t, c, n) == o
  }

  // TakeTicket, LockStart, CheckTicket, and LoadState with nothing to stop
  lemma DrawTicket(g: Shared, t: int, c: Call)
    requires c.kind.CallStart? && c.pc == TakeTicket && g.s.startMu == Nil && g.s.state == Initialized
    ensures Reaches(g, t, c, Outcome(
      g.(s := g.s.(startSeq := g.s.startSeq + 1, startMu := At(t)), h := g.h.(touched := g.s.startSeq + 1)),
      c.(pc := EnterStarting, mySeq := g.s.startSeq + 1)))
  {
    var o1 := Advance(g, t, c, true);
    var o2 := Advance(o1.g, t, o1.c, true);
    var o3 := Advance(o2.g, t, o2.c, true);
    assert Steps(g, t, c, 4) == Steps(o1.g, t, o1.c, 3);
    assert Steps(o1.g, t, o1.c, 3) == Steps(o2.g, t, o2.c, 2);
    assert Steps(o2.g, t, o2.c, 2) == Steps(o3.g, t, o3.c, 1);
  }

  // EnterStarting, Build, Publish, EnterRunning
  lemma Boot(g: Shared, t: int, c: Call)
    requires c.pc == EnterStarting && g.s.state == Initialized
    ensures Reaches(g, t, c, Outcome(
      Shared(g.s.(state := Running, running := At(g.b.built)),
             g.b.(built := g.b.built + 1, starter := g.b.starter[g.b.built := c.mySeq]),
             g.h.(lost := g.h.lost + Singleton(g.s.running))),
      c.(pc := SubLock, rs := g.b.built)))
  {
    var o1 := Advance(g, t, c, true);
    var o2 := Advance(o1.g, t, o1.c, true);
    var o3 := Advance(o2.g, t, o2.c, true);
    assert Steps(g, t, c, 4) == Steps(o1.g, t, o1.c, 3);
    assert Steps(o1.g, t, o1.c, 3) == Steps(o2.g, t, o2.c, 2);
    assert Steps(o2.g, t, o2.c, 2) == Steps(o3.g, t, o3.c, 1);
  }

  // SubLock, SubCancelOld, SubCheck
  lemma CheckHooks(g: Shared, t: int, c: Call)
    requires c.pc == SubLock && g.s.hooksMu == Nil
    ensures Reaches(g, t, c, Outcome(
      g.(s := g.s.(hooksMu := At(t), subCancel := Nil),
         b := g.b.(subscribed := g.b.subscribed - Singleton(g.s.subCancel))),
      c.(pc := if g.s.running == At(c.rs) then SubInstall else SubUnlock)))
  {
    var o1 := Advance(g, t, c, true);
    var o2 := Advance(o1.g, t, o1.c, true);
    assert Steps(g, t, c, 3) == Steps(o1.g, t, o1.c, 2);
    assert Steps(o1.g, t, o1.c, 2) == Steps(o2.g, t, o2.c, 1);
  }

  // SubInstall, SubManagers
  lemma InstallHooks(g: Shared, t: int, c: Call)
    requires c.pc == SubInstall
    ensures Reaches(g, t, c, Outcome(
      g.(s := g.s.(subCancel := At(c.rs)), b := g.b.(subscribed := g.b.subscribed + {c.rs})),
      c.(pc := SubUnlock)))
  {
    var o1 := Advance(g, t, c, true);
    assert Steps(g, t, c, 2) == Steps(o1.g, t, o1.c, 1);
  }

  // SubUnlock, StoreProxy, UnlockStart
  lemma FinishStart(g: Shared, t: int, c: Call)
    requires c.pc == SubUnlock
    ensures Reaches(g, t, c, Outcome(
      g.(s := g.s.(hooksMu := Nil, lastProxy := At(c.mySeq), startMu := Nil)),
      c.(pc := Done)))
  {
    var o1 := Advance(g, t, c, true);
    var o2 := Advance(o1.g, t, o1.c, true);
    assert Steps(g, t, c, 3) == Steps(o1.g, t, o1.c, 2);
    assert Steps(o1.g, t, o1.c, 2) == Steps(o2.g, t, o2.c, 1);
  }

  // LoadState, LeaveState
  lemma LeaveRunning(g: Shared, t: int, c: Call)
    requires c.kind.CallStop? && c.pc == LoadState && g.s.state == Running
    ensures Reaches(g, t, c, Outcome(
      g.(s := g.s.(state := Initialized), h := g.h.(taken := g.h.taken + Singleton(g.s.running))),
      c.(pc := TakeInstance, st := Running)))
  {
    var o1 := Advance(g, t, c, true);
    assert Steps(g, t, c, 2) == Steps(o1.g, t, o1.c, 1);
  }

  // LockHooks, CancelHooks, UnlockHooks
  lemma DropHooks(g: Shared, t: int, c: Call)
    requires c.pc == LockHooks && c.prev.At? && g.s.hooksMu == Nil
    ensures Reaches(g, t, c, Outcome(
      g.(s := g.s.(hooksMu := Nil, subCancel := Nil),
         b := g.b.(subscribed := g.b.subscribed - Singleton(g.s.subCancel))),
      c.(pc := StopQueries)))
  {
    var o1 := Advance(g, t, c, true);
    var o2 := Advance(o1.g, t, o1.c, true);
    assert Steps(g, t, c, 3) == Steps(o1.g, t, o1.c, 2);
    assert Steps(o1.g, t, o1.c, 2) == Steps(o2.g, t, o2.c, 1);
  }

  // StopQueries, CloseInstance
  lemma CloseTaken(g: Shared, t: int, c: Call)
    requires c.kind.CallStop? && c.pc == StopQueries
    ensures Reaches(g, t, c, Outcome(
      g.(b := g.b.(quiet := g.b.quiet + Singleton(c.prev), closes := g.b.closes + multiset(Singleton(c.prev)))),
      c.(pc := Done)))
  {
    var o1 := Advance(g, t, c, true);
    assert Steps(g, t, c, 2) == Steps(o1.g, t, o1.c, 1);
  }

  // ---------------------------------------------------------------------
  // Runs
  // ---------------------------------------------------------------------

  ghost predicate Leads(m: Machine, m': Machine) {
    exists schedule :: Run(m, schedule) == m'
  }

  lemma LeadsOn(m: Machine, m1: Machine, m2: Machine)
    requires Leads(m, m1) && Leads(m1, m2)
    ensures Leads(m, m2)
  {
    var a :| Run(m, a) == m1;
    var b :| Run(m1, b) == m2;
    RunAppend(m, a, b);
  }

  lemma LeadsByEnter(m: Machine, t: int, kind: Kind)
    ensures Leads(m, Apply(m, Enter(t, kind)))
  {
    var e := Enter(t, kind);
    assert Run(m, [e]) == Run(Apply(m, e), []);
  }

  // The machine `m` after call `t` has become `o.c` and the rest `o.g`.
  function With(m: Machine, t: int, o: Outcome): Machine {
    Machine(o.g, m.calls[t := o.c])
  }

  // Call `t` walks on from `o`, where it got when it left `m`.
  lemma LeadsByMoves(m: Machine, t: int, o: Outcome, o2: Outcome)
    requires t in m.calls && Leads(m, With(m, t, o))
    requires Reaches(o.g, t, o.c, o2)
    ensures Leads(m, With(m, t, o2))
  {
    var m1 := With(m, t, o);
    var n: nat :| Steps(o.g, t, o.c, n) == o2;
    RunMoves(m1, t, n);
    assert m1.calls[t := o2.c] == With(m, t, o2).calls;
    LeadsOn(m, m1, With(m, t, o2));
  }

  lemma LeadsNowhere(m: Machine, t: int)
    requires t in m.calls
    ensures Leads(m, With(m, t, Outcome(m.g, m.calls[t])))
  {
    assert m.calls[t := m.calls[t]] == m.calls;
    assert Run(m, []) == m;
  }

  // A start that nobody interrupts, when there is nothing to stop: first it
  // publishes its instance,
  function Booted(g: Shared, t: int): Shared {
    var i, k := g.b.built, g.s.startSeq + 1;
    Shared(g.s.(state := Running, running := At(i), startSeq := k, startMu := At(t)),
           g.b.(built := i + 1, starter := g.b.starter[i := k]),
           g.h.(touched := k, lost := g.h.lost + Singleton(g.s.running)))
  }

  function BootedCall(g: Shared): Call {
    Call(CallStart, SubLock, g.s.startSeq + 1, Initialized, Nil, g.b.built)
  }

  lemma StartBoots(m: Machine, t: int)
    requires t in m.calls && m.calls[t] == Entry(CallStart)
    requires m.g.s.startMu == Nil && m.g.s.state == Initialized
    ensures Leads(m, With(m, t, Outcome(Booted(m.g, t), BootedCall(m.g))))
  {
    var g, c := m.g, m.calls[t];
    LeadsNowhere(m, t);
    var o1 := Outcome(
      g.(s := g.s.(startSeq := g.s.startSeq + 1, startMu := At(t)), h := g.h.(touched := g.s.startSeq + 1)),
      c.(pc := EnterStarting, mySeq := g.s.startSeq + 1));
    DrawTicket(g, t, c);
    LeadsByMoves(m, t, Outcome(g, c), o1);
    Boot(o1.g, t, o1.c);
    LeadsByMoves(m, t, o1, Outcome(Booted(g, t), BootedCall(g)));
  }

  // then it subscribes to it, stores its rule-set proxy and returns.
  function Hooked(g: Shared, i: int, k: int): Shared {
    g.(s := g.s.(hooksMu := Nil, subCancel := At(i), lastProxy := At(k), startMu := Nil),
       b := g.b.(subscribed := g.b.subscribed - Singleton(g.s.subCancel) + {i}))
  }

  lemma StartHooks(m: Machine, t: int)
    requires t in m.calls && m.calls[t].pc == SubLock
    requires m.g.s.hooksMu == Nil && m.g.s.running == At(m.calls[t].rs)
    ensures
      var c := m.calls[t];
      Leads(m, With(m, t, Outcome(Hooked(m.g, c.rs, c.mySeq), c.(pc := Done))))
  {
    var g, c := m.g, m.calls[t];
    LeadsNowhere(m, t);
    var o1 := Outcome(
      g.(s := g.s.(hooksMu := At(t), subCancel := Nil),
         b := g.b.(subscribed := g.b.subscribed - Singleton(g.s.subCancel))),
      c.(pc := SubInstall));
    CheckHooks(g, t, c);
    LeadsByMoves(m, t, Outcome(g, c), o1);
    var o2 := Outcome(
      o1.g.(s := o1.g.s.(subCancel := At(c.rs)), b := o1.g.b.(subscribed := o1.g.b.subscribed + {c.rs})),
      c.(pc := SubUnlock));
    InstallHooks(o1.g, t, o1.c);
    LeadsByMoves(m, t, o1, o2);
    FinishStart(o2.g, t, o2.c);
    LeadsByMoves(m, t, o2, Outcome(Hooked(g, c.rs, c.mySeq), c.(pc := Done)));
  }

  function Started(g: Shared, t: int): Shared {
    Hooked(Booted(g, t), g.b.built, g.s.startSeq + 1)
  }

  lemma StartUninterrupted(m: Machine, t: int)
    requires t in m.calls && m.calls[t] == Entry(CallStart)
    requires m.g.s.startMu == Nil && m.g.s.hooksMu == Nil && m.g.s.state == Initialized
    ensures
      Leads(m, With(m, t, Outcome(Started(m.g, t), BootedCall(m.g).(pc := Done))))
  {
    var o1 := Outcome(Booted(m.g, t), BootedCall(m.g));
    var m1 := With(m, t, o1);
    StartBoots(m, t);
    StartHooks(m1, t);
    var o2 := Outcome(Started(m.g, t), o1.c.(pc := Done));
    assert m1.calls[t := o2.c] == m.calls[t := o2.c];
    LeadsOn(m, m1, With(m, t, o2));
  }

  // A start whose instance has been taken out after it entered Running skips the
  // subscription.
  lemma StartSkipsHooks(m: Machine, t: int)
    requires t in m.calls && m.calls[t].pc == SubLock && m.g.s.hooksMu == Nil && m.g.s.running == Nil
    ensures
      var c := m.calls[t];
      Leads(m, With(m, t, Outcome(
        m.g.(s := m.g.s.(hooksMu := Nil, subCancel := Nil, lastProxy := At(c.mySeq), startMu := Nil),
             b := m.g.b.(subscribed := m.g.b.subscribed - Singleton(m.g.s.subCancel))),
        c.(pc := Done))))
  {
    var g, c := m.g, m.calls[t];
    LeadsNowhere(m, t);
    var o1 := Outcome(
      g.(s := g.s.(hooksMu := At(t), subCancel := Nil),
         b := g.b.(subscribed := g.b.subscribed - Singleton(g.s.subCancel))),
      c.(pc := SubUnlock));
    CheckHooks(g, t, c);
    LeadsByMoves(m, t, Outcome(g, c), o1);
    FinishStart(o1.g, t, o1.c);
    LeadsByMoves(m, t, o1, Outcome(
      o1.g.(s := o1.g.s.(hooksMu := Nil, lastProxy := At(c.mySeq), startMu := Nil)), c.(pc := Done)));
  }

  // A stop that has changed the state,
  lemma StopLeaves(m: Machine, t: int)
    requires t in m.calls && m.calls[t] == Entry(CallStop) && m.g.s.state == Running
    ensures
      Leads(m, With(m, t, Outcome(
        m.g.(s := m.g.s.(state := Initialized), h := m.g.h.(taken := m.g.h.taken + Singleton(m.g.s.running))),
        Call(CallStop, TakeInstance, 0, Running, Nil, 0))))
  {
    LeadsNowhere(m, t);
    LeaveRunning(m.g, t, m.calls[t]);
    LeadsByMoves(m, t, Outcome(m.g, m.calls[t]), Outcome(
      m.g.(s := m.g.s.(state := Initialized), h := m.g.h.(taken := m.g.h.taken + Singleton(m.g.s.running))),
      Call(CallStop, TakeInstance, 0, Running, Nil, 0)));
  }

  // has taken the instance,
  lemma StopTakes(m: Machine, t: int)
    requires t in m.calls && m.calls[t].pc == TakeInstance
    ensures
      Leads(m, With(m, t, Outcome(
        m.g.(s := m.g.s.(running := Nil)), m.calls[t].(pc := LockHooks, prev := m.g.s.running))))
  {
    var e := Move(t, true);
    assert Run(m, [e]) == Run(Apply(m, e), []);
  }

  // and has closed it.
  lemma StopEnds(m: Machine, t: int)
    requires t in m.calls && m.calls[t].kind.CallStop? && m.calls[t].pc == LockHooks
    requires m.calls[t].prev.At? && m.g.s.hooksMu == Nil
    ensures
      var prev := m.calls[t].prev;
      Leads(m, With(m, t, Outcome(
        Shared(m.g.s.(subCancel := Nil),
               m.g.b.(subscribed := m.g.b.subscribed - Singleton(m.g.s.subCancel),
                      quiet := m.g.b.quiet + Singleton(prev),
                      closes := m.g.b.closes + multiset(Singleton(prev))),
               m.g.h),
        m.calls[t].(pc := Done))))
  {
    var g, c := m.g, m.calls[t];
    LeadsNowhere(m, t);
    var o1 := Outcome(
      g.(s := g.s.(hooksMu := Nil, subCancel := Nil),
         b := g.b.(subscribed := g.b.subscribed - Singleton(g.s.subCancel))),
      c.(pc := StopQueries));
    DropHooks(g, t, c);
    LeadsByMoves(m, t, Outcome(g, c), o1);
    CloseTaken(o1.g, t, o1.c);
    LeadsByMoves(m, t, o1, Outcome(
      o1.g.(b := o1.g.b.(quiet := o1.g.b.quiet + Singleton(c.prev),
                         closes := o1.g.b.closes + multiset(Singleton(c.prev)))),
      c.(pc := Done)));
  }

  // ---------------------------------------------------------------------
  // The two races
  // ---------------------------------------------------------------------

  // One start has finished; a stop has changed the state.
  function StoppingShared(): Shared {
    Shared(Service(Initialized, At(0), 1, Nil, Nil, At(0), At(1)),
           Instances(1, map[0 := 1], {0}, {}, multiset{}),
           History({}, {0}, {}, 1, {}, true))
  }

  function StoppingCalls(): map<int, Call> {
    map[0 := Call(CallStart, Done, 1, Initialized, Nil, 0),
        1 := Call(CallStop, TakeInstance, 0, Running, Nil, 0)]
  }

  lemma Stopping()
    ensures Leads(INIT, Machine(StoppingShared(), StoppingCalls()))
  {
    var m1 := Apply(INIT, Enter(0, CallStart));
    LeadsByEnter(INIT, 0, CallStart);
    StartUninterrupted(m1, 0);
    var o2 := Outcome(Started(m1.g, 0), BootedCall(m1.g).(pc := Done));
    var m2 := With(m1, 0, o2);
    LeadsOn(INIT, m1, m2);
    var m3 := Apply(m2, Enter(1, CallStop));
    LeadsByEnter(m2, 1, CallStop);
    LeadsOn(INIT, m2, m3);
    StopLeaves(m3, 1);
    var m4 := Machine(StoppingShared(), StoppingCalls());
    assert m3.calls[1 := Call(CallStop, TakeInstance, 0, Running, Nil, 0)] == m4.calls;
    assert m4.g.b.subscribed == {} - {} + {0};
    LeadsOn(INIT, m3, m4);
  }

  // A stop that pauses before it takes the instance lets a start store its own
  // one over it: the old instance is never closed, the stop takes the new one,
  // and the service ends Running with nothing published.
  lemma RunningWithoutInstance()
    ensures
      exists schedule ::
        var m := Exec(schedule);
        Quiescent(m) && m.g.s.state == Running && m.g.s.running == Nil && m.g.h.lost == {0}
        && m.g.b.closes == multiset{1}
  {
    Stopping();
    var m0 := Machine(StoppingShared(), StoppingCalls());
    var m1 := Apply(m0, Enter(2, CallStart));
    LeadsByEnter(m0, 2, CallStart);
    LeadsOn(INIT, m0, m1);
    StartBoots(m1, 2);
    var m2 := With(m1, 2, Outcome(Booted(m1.g, 2), BootedCall(m1.g)));
    LeadsOn(INIT, m1, m2);
    StopTakes(m2, 1);
    var m3 := With(m2, 1, Outcome(m2.g.(s := m2.g.s.(running := Nil)),
                                  m2.calls[1].(pc := LockHooks, prev := m2.g.s.running)));
    LeadsOn(INIT, m2, m3);
    RunningWithoutInstanceEnds(m3);
  }

  lemma RunningWithoutInstanceEnds(m3: Machine)
    requires Leads(INIT, m3)
    requires m3.calls == map[0 := Call(CallStart, Done, 1, Initialized, Nil, 0),
                             1 := Call(CallStop, LockHooks, 0, Running, At(1), 0),
                             2 := Call(CallStart, SubLock, 2, Initialized, Nil, 1)]
    requires m3.g.s.state == Running && m3.g.s.running == Nil && m3.g.s.hooksMu == Nil
    requires m3.g.b.closes == multiset{} && m3.g.h.lost == {0}
    ensures
      exists schedule ::
        var m := Exec(schedule);
        Quiescent(m) && m.g.s.state == Running && m.g.s.running == Nil && m.g.h.lost == {0}
        && m.g.b.closes == multiset{1}
  {
    StartSkipsHooks(m3, 2);
    var c := m3.calls[2];
    var m4 := With(m3, 2, Outcome(
      m3.g.(s := m3.g.s.(hooksMu := Nil, subCancel := Nil, lastProxy := At(c.mySeq), startMu := Nil),
            b := m3.g.b.(subscribed := m3.g.b.subscribed - Singleton(m3.g.s.subCancel))),
      c.(pc := Done)));
    LeadsOn(INIT, m3, m4);
    StopEnds(m4, 1);
    var m5 := With(m4, 1, Outcome(
      Shared(m4.g.s.(subCancel := Nil),
             m4.g.b.(subscribed := m4.g.b.subscribed - Singleton(m4.g.s.subCancel),
                     quiet := m4.g.b.quiet + Singleton(At(1)),
                     closes := m4.g.b.closes + multiset(Singleton(At(1)))),
             m4.g.h),
      m4.calls[1].(pc := Done)));
    LeadsOn(INIT, m4, m5);
    var schedule :| Run(INIT, schedule) == m5;
    assert Exec(schedule) == m5;
  }

  // A stop that pauses after it has taken the instance lets a start publish and
  // subscribe the next one, and then cancels that subscription: the service ends
  // Running an instance nobody listens to.
  lemma RunningWithoutHooks()
    ensures
      exists schedule ::
        var m := Exec(schedule);
        Quiescent(m) && m.g.s.state == Running && m.g.s.running == At(1) && m.g.h.lost == {}
        && m.g.h.unmanaged == {} && m.g.b.subscribed == {}
  {
    Stopping();
    var m0 := Machine(StoppingShared(), StoppingCalls());
    StopTakes(m0, 1);
    var m1 := With(m0, 1, Outcome(m0.g.(s := m0.g.s.(running := Nil)),
                                  m0.calls[1].(pc := LockHooks, prev := At(0))));
    LeadsOn(INIT, m0, m1);
    var m2 := Apply(m1, Enter(2, CallStart));
    LeadsByEnter(m1, 2, CallStart);
    LeadsOn(INIT, m1, m2);
    StartUninterrupted(m2, 2);
    var m3 := With(m2, 2, Outcome(Started(m2.g, 2), BootedCall(m2.g).(pc := Done)));
    LeadsOn(INIT, m2, m3);
    RunningWithoutHooksEnds(m3);
  }

  lemma RunningWithoutHooksEnds(m3: Machine)
    requires Leads(INIT, m3)
    requires m3.calls == map[0 := Call(CallStart, Done, 1, Initialized, Nil, 0),
                             1 := Call(CallStop, LockHooks, 0, Running, At(0), 0),
                             2 := Call(CallStart, Done, 2, Initialized, Nil, 1)]
    requires m3.g.s.state == Running && m3.g.s.running == At(1) && m3.g.s.hooksMu == Nil
    requires m3.g.s.subCancel == At(1) && m3.g.b.subscribed == {1}
    requires m3.g.h.lost == {} && m3.g.h.unmanaged == {}
    ensures
      exists schedule ::
        var m := Exec(schedule);
        Quiescent(m) && m.g.s.state == Running && m.g.s.running == At(1) && m.g.h.lost == {}
        && m.g.h.unmanaged == {} && m.g.b.subscribed == {}
  {
    StopEnds(m3, 1);
    var m4 := With(m3, 1, Outcome(
      Shared(m3.g.s.(subCancel := Nil),
             m3.g.b.(subscribed := m3.g.b.subscribed - Singleton(m3.g.s.subCancel),
                     quiet := m3.g.b.quiet + Singleton(At(0)),
                     closes := m3.g.b.closes + multiset(Singleton(At(0)))),
             m3.g.h),
      m3.calls[1].(pc := Done)));
    LeadsOn(INIT, m3, m4);
    var schedule :| Run(INIT, schedule) == m4;
    assert Exec(schedule) == m4;
  }
}
