// The two moments at which a start can be disturbed, and exactly what depends on
// them. A schedule is watched while it runs: was some call between its change of
// state and its Swap when a start published, and was some call waiting to cancel
// the subscription when a start installed one?
module LifecycleWindows {
  import opened Lifecycle
  import opened LifecycleInvariants
  import opened LifecycleSafety
  import opened LifecycleTheorems

  datatype Windows = Windows(
    exposed: bool,        // the last publication happened while a call was taking
    everExposed: bool,    // some publication did
    interrupted: bool)    // the last installation happened while a call waited to cancel

  const UNDISTURBED := Windows(false, false, false)

  function Watch(m: Machine, e: Event, w: Windows): Windows {
    if e.Enter? || e.call !in m.calls then w
    else if m.calls[e.call].pc.Publish? then
      w.(exposed := Taking(m), everExposed := w.everExposed || Taking(m))
    else if m.calls[e.call].pc.SubInstall? then w.(interrupted := Cancelling(m))
    else w
  }

  function WatchAll(m: Machine, schedule: seq<Event>, w: Windows): Windows
    decreases |schedule|
  {
    if schedule == [] then w
    else WatchAll(Apply(m, schedule[0]), schedule[1..], Watch(m, schedule[0], w))
  }

  predicate Exposed(schedule: seq<Event>) {
    WatchAll(INIT, schedule, UNDISTURBED).exposed
  }

  predicate EverExposed(schedule: seq<Event>) {
    WatchAll(INIT, schedule, UNDISTURBED).everExposed
  }

  predicate Interrupted(schedule: seq<Event>) {
    WatchAll(INIT, schedule, UNDISTURBED).interrupted
  }

  // ---------------------------------------------------------------------
  // What a step does
  // ---------------------------------------------------------------------

  lemma RunningEffect(g: Shared, t: int, c: Call, ok: bool)
    ensures
      var running := Advance(g, t, c, ok).g.s.running;
      || running == g.s.running
      || (running == Nil && (c.pc.TakeInstance? || c.pc.Reclaim?))
      || (running == At(c.rs) && c.pc.Publish?)
    ensures c.pc.TakeInstance? || c.pc.Reclaim? ==> Advance(g, t, c, ok).g.s.running == Nil
    ensures c.pc.Publish? ==>
      Advance(g, t, c, ok).g.s.running == At(c.rs) && Advance(g, t, c, ok).c == c.(pc := EnterRunning)
  {
  }

  lemma StateEffect(g: Shared, t: int, c: Call, ok: bool)
    requires Phase(g, c)
    ensures
      var o := Advance(g, t, c, ok);
      && (o.g.s.state == Running ==>
            (g.s.state == Running && !o.c.pc.TakeInstance?)
            || (c.pc.EnterRunning? && g.s.state == Starting && o.c.pc.SubLock?))
      && (o.g.s.state == Starting ==>
            (g.s.state == Starting && !o.c.pc.TakeInstance?) || c.pc.EnterStarting?)
      && (o.c.pc.EnterRunning? ==> c.pc.Publish?)
  {
  }

  lemma SubscriptionEffect(g: Shared, t: int, c: Call, ok: bool)
    ensures
      var sub := Advance(g, t, c, ok).g.s.subCancel;
      || (sub == g.s.subCancel && !c.pc.CancelHooks? && !c.pc.SubCancelOld? && !c.pc.SubInstall?)
      || (sub == Nil && (c.pc.CancelHooks? || c.pc.SubCancelOld?))
      || (sub == Nil && c.pc.SubManagers? && c.rs in Advance(g, t, c, ok).g.h.unmanaged)
      || (sub == At(c.rs) && c.pc.SubInstall?)
    ensures g.h.unmanaged <= Advance(g, t, c, ok).g.h.unmanaged
  {
  }

  // ---------------------------------------------------------------------
  // Publication
  // ---------------------------------------------------------------------

  predicate Entering(m: Machine, t: int) {
    t in m.calls && m.calls[t].pc.EnterRunning? && m.g.s.state == Starting
  }

  // After an exposed publication some call is still to take the instance, or it is
  // gone. After any other, Running means that nobody is about to take it.
  ghost predicate ExposedInv(m: Machine, exposed: bool) {
    && (exposed ==> m.g.s.running == Nil || Taking(m))
    && (!exposed && m.g.s.state == Running ==> m.g.s.running.At? && !Taking(m))
    && (!exposed ==> forall t :: Entering(m, t) ==> m.g.s.running == At(m.calls[t].rs) && !Taking(m))
  }

  lemma TakingStays(m: Machine, t: int, ok: bool)
    requires t in m.calls && !m.calls[t].pc.TakeInstance? && Taking(m)
    ensures Taking(Apply(m, Move(t, ok)))
  {
    var u :| u in m.calls && m.calls[u].pc.TakeInstance?;
    assert Apply(m, Move(t, ok)).calls[u] == m.calls[u];
  }

  lemma TakingComes(m: Machine, t: int, ok: bool)
    requires t in m.calls && !Taking(m) && !Apply(m, Move(t, ok)).calls[t].pc.TakeInstance?
    ensures !Taking(Apply(m, Move(t, ok)))
  {
    var m' := Apply(m, Move(t, ok));
    forall u | u in m'.calls ensures !m'.calls[u].pc.TakeInstance? {
      assert u != t ==> m'.calls[u] == m.calls[u];
    }
  }

  lemma ExposedStays(m: Machine, t: int, ok: bool)
    requires t in m.calls && (m.g.s.running == Nil || Taking(m)) && !m.calls[t].pc.Publish?
    ensures var m' := Apply(m, Move(t, ok)); m'.g.s.running == Nil || Taking(m')
  {
    RunningEffect(m.g, t, m.calls[t], ok);
    if Taking(m) && !m.calls[t].pc.TakeInstance? {
      TakingStays(m, t, ok);
    }
  }

  // The call that holds startMu is the only one that enters Starting or publishes.
  lemma EnteringIsAlone(m: Machine, t: int, u: int)
    requires Inv(m) && t in m.calls && Entering(m, u) && t != u
    ensures !m.calls[t].pc.EnterStarting? && !m.calls[t].pc.Publish? && !m.calls[t].pc.Reclaim?
  {
    assert Locks(m.g, t, m.calls[t]) && Locks(m.g, u, m.calls[u]);
  }

  lemma EnteringBefore(m: Machine, t: int, ok: bool, u: int)
    requires Inv(m) && t in m.calls && !m.calls[t].pc.Publish? && Entering(Apply(m, Move(t, ok)), u)
    ensures u != t && Entering(m, u) && !Apply(m, Move(t, ok)).calls[t].pc.TakeInstance?
  {
    var m' := Apply(m, Move(t, ok));
    assert Facts(m.g, m.calls[t]) && Locks(m.g, t, m.calls[t]);
    StateEffect(m.g, t, m.calls[t], ok);
    assert u in m.calls && m'.calls[u] == m.calls[u];
    assert Locks(m.g, u, m.calls[u]);
  }

  lemma ExposedStep(m: Machine, t: int, ok: bool, exposed: bool)
    requires Inv(m) && t in m.calls && ExposedInv(m, exposed) && !m.calls[t].pc.Publish?
    ensures ExposedInv(Apply(m, Move(t, ok)), exposed)
  {
    var c, m' := m.calls[t], Apply(m, Move(t, ok));
    assert Facts(m.g, c) && Locks(m.g, t, c);
    if exposed {
      ExposedStays(m, t, ok);
    } else {
      RunningEffect(m.g, t, c, ok);
      StateEffect(m.g, t, c, ok);
      if m'.g.s.state == Running {
        assert m.g.s.state == Starting ==> Entering(m, t);
        assert !Taking(m) && !c.pc.TakeInstance?;
        TakingComes(m, t, ok);
      }
      forall u | Entering(m', u) ensures m'.g.s.running == At(m'.calls[u].rs) && !Taking(m') {
        EnteringBefore(m, t, ok, u);
        EnteringIsAlone(m, t, u);
        assert !c.pc.TakeInstance?;
        TakingComes(m, t, ok);
      }
    }
  }

  lemma ExposedPublish(m: Machine, t: int, ok: bool)
    requires Inv(m) && t in m.calls && m.calls[t].pc.Publish?
    ensures ExposedInv(Apply(m, Move(t, ok)), Taking(m))
  {
    var c, m' := m.calls[t], Apply(m, Move(t, ok));
    assert Facts(m.g, c) && Locks(m.g, t, c);
    RunningEffect(m.g, t, c, ok);
    StateEffect(m.g, t, c, ok);
    if Taking(m) {
      TakingStays(m, t, ok);
    } else {
      TakingComes(m, t, ok);
      forall u | u in m.calls && u != t ensures !m.calls[u].pc.EnterRunning? {
        assert Locks(m.g, u, m.calls[u]);
      }
      assert forall u :: Entering(m', u) ==> u == t;
    }
  }

  // ---------------------------------------------------------------------
  // Subscription
  // ---------------------------------------------------------------------

  predicate CancelComing(m: Machine) {
    exists t | t in m.calls :: m.calls[t].pc.LockHooks? || m.calls[t].pc.CancelHooks?
  }

  predicate Subscribing(c: Call) {
    || c.pc.EnterRunning? || c.pc.Reclaim? || c.pc.SubLock?
    || c.pc.SubCancelOld? || c.pc.SubCheck? || c.pc.SubInstall?
  }

  ghost predicate Subscriber(m: Machine, t: int) {
    t in m.calls && Subscribing(m.calls[t]) && m.g.s.running == At(m.calls[t].rs)
  }

  predicate Unheard(g: Shared) {
    g.s.running.At? && g.s.subCancel != g.s.running && g.s.running.id !in g.h.unmanaged
  }

  // After an interrupted installation some call is still to cancel it, or it is
  // cancelled. After any other, nobody is about to cancel the subscription of the
  // instance in `running`, and if it has none a start is about to install it.
  ghost predicate InterruptedInv(m: Machine, interrupted: bool) {
    && (interrupted ==> m.g.s.subCancel == Nil || CancelComing(m))
    && (!interrupted && m.g.s.running.At? && m.g.s.subCancel == m.g.s.running ==> !CancelComing(m))
    && (!interrupted && Unheard(m.g) ==> exists t :: Subscriber(m, t))
  }

  lemma ComingStays(m: Machine, t: int, ok: bool)
    requires t in m.calls && !m.calls[t].pc.CancelHooks? && CancelComing(m)
    ensures CancelComing(Apply(m, Move(t, ok)))
  {
    var u :| u in m.calls && (m.calls[u].pc.LockHooks? || m.calls[u].pc.CancelHooks?);
    var m' := Apply(m, Move(t, ok));
    assert u != t ==> m'.calls[u] == m.calls[u];
    assert m'.calls[u].pc.LockHooks? || m'.calls[u].pc.CancelHooks?;
  }

  lemma ComingComes(m: Machine, t: int, ok: bool)
    requires t in m.calls && !CancelComing(m) && !m.calls[t].pc.TakeInstance?
    ensures !CancelComing(Apply(m, Move(t, ok)))
  {
    var m' := Apply(m, Move(t, ok));
    forall u | u in m'.calls ensures !m'.calls[u].pc.LockHooks? && !m'.calls[u].pc.CancelHooks? {
      assert u != t ==> m'.calls[u] == m.calls[u];
    }
  }

  lemma SubscriberStep(g: Shared, t: int, c: Call, ok: bool)
    requires Stored(g, c) && Subscribing(c) && !c.pc.SubInstall? && g.s.running == At(c.rs)
    ensures
      var o := Advance(g, t, c, ok);
      o.g.s.running.At? ==> Subscribing(o.c) && o.g.s.running == At(o.c.rs)
  {
  }

  // The start that is about to subscribe goes on doing so.
  lemma SubscriberStays(m: Machine, t: int, ok: bool, u: int)
    requires Inv(m) && t in m.calls && Subscriber(m, u) && !m.calls[t].pc.SubInstall?
    ensures var m' := Apply(m, Move(t, ok)); m'.g.s.running.At? ==> Subscriber(m', u)
  {
    var c := m.calls[t];
    assert Facts(m.g, c) && Locks(m.g, t, c) && Locks(m.g, u, m.calls[u]);
    RunningEffect(m.g, t, c, ok);
    if u == t {
      SubscriberStep(m.g, t, c, ok);
    } else {
      assert Apply(m, Move(t, ok)).calls[u] == m.calls[u];
    }
  }

  lemma InterruptedStep(m: Machine, t: int, ok: bool, interrupted: bool)
    requires Inv(m) && t in m.calls && InterruptedInv(m, interrupted) && !m.calls[t].pc.SubInstall?
    ensures InterruptedInv(Apply(m, Move(t, ok)), interrupted)
  {
    var c, m' := m.calls[t], Apply(m, Move(t, ok));
    assert Facts(m.g, c) && Locks(m.g, t, c);
    RunningEffect(m.g, t, c, ok);
    SubscriptionEffect(m.g, t, c, ok);
    if interrupted {
      if !c.pc.CancelHooks? && CancelComing(m) {
        ComingStays(m, t, ok);
      }
    } else {
      if m'.g.s.running.At? && m'.g.s.subCancel == m'.g.s.running {
        ComingComes(m, t, ok);
      }
      if Unheard(m'.g) {
        if c.pc.Publish? {
          assert Subscriber(m', t);
        } else if Unheard(m.g) {
          var u :| Subscriber(m, u);
          SubscriberStays(m, t, ok, u);
        } else {
          StillHeard(m, t, ok);
        }
      }
    }
  }

  // A subscription that nobody is about to cancel is not cancelled.
  lemma StillHeard(m: Machine, t: int, ok: bool)
    requires Inv(m) && t in m.calls && !m.calls[t].pc.SubInstall? && !m.calls[t].pc.Publish?
    requires !Unheard(m.g) && (m.g.s.running.At? && m.g.s.subCancel == m.g.s.running ==> !CancelComing(m))
    ensures !Unheard(Apply(m, Move(t, ok)).g)
  {
    var c := m.calls[t];
    assert Facts(m.g, c) && Locks(m.g, t, c);
    RunningEffect(m.g, t, c, ok);
    SubscriptionEffect(m.g, t, c, ok);
  }

  lemma InterruptedInstall(m: Machine, t: int, ok: bool)
    requires Inv(m) && t in m.calls && m.calls[t].pc.SubInstall?
    ensures InterruptedInv(Apply(m, Move(t, ok)), Cancelling(m))
  {
    var c, m' := m.calls[t], Apply(m, Move(t, ok));
    assert Facts(m.g, c) && Locks(m.g, t, c);
    SubscriptionEffect(m.g, t, c, ok);
    RunningEffect(m.g, t, c, ok);
    if Cancelling(m) {
      var u :| u in m.calls && m.calls[u].pc.LockHooks?;
      assert m'.calls[u] == m.calls[u];
    } else {
      forall u | u in m.calls ensures !m.calls[u].pc.LockHooks? && !m.calls[u].pc.CancelHooks? {
        assert Locks(m.g, u, m.calls[u]);
      }
      ComingComes(m, t, ok);
    }
  }

  // ---------------------------------------------------------------------
  // Every schedule
  // ---------------------------------------------------------------------

  ghost predicate WindowsInv(m: Machine, w: Windows) {
    && Inv(m) && ExposedInv(m, w.exposed) && InterruptedInv(m, w.interrupted)
    && (!w.everExposed ==> m.g.h.lost == {})
  }

  // A call that has just entered changes none of this.
  lemma EnterSees(m: Machine, t: int, kind: Kind)
    requires t !in m.calls
    ensures
      var m' := Apply(m, Enter(t, kind));
      && (Taking(m') <==> Taking(m)) && (CancelComing(m') <==> CancelComing(m))
      && (forall u :: Entering(m', u) <==> Entering(m, u))
      && (forall u :: Subscriber(m', u) <==> Subscriber(m, u))
  {
    var m' := Apply(m, Enter(t, kind));
    assert forall u | u in m.calls :: u in m'.calls && m'.calls[u] == m.calls[u];
    assert forall u | u in m'.calls && u !in m.calls :: u == t && m'.calls[u] == Entry(kind);
  }

  lemma EnterKeepsWindows(m: Machine, t: int, kind: Kind, w: Windows)
    requires WindowsInv(m, w) && t !in m.calls
    ensures WindowsInv(Apply(m, Enter(t, kind)), w)
  {
    var m' := Apply(m, Enter(t, kind));
    ApplyKeeps(m, Enter(t, kind));
    EnterSees(m, t, kind);
    forall u | Entering(m', u) ensures Entering(m, u) && m'.calls[u] == m.calls[u] {
    }
    if !w.interrupted && Unheard(m.g) {
      var u :| Subscriber(m, u);
      assert Subscriber(m', u);
    }
  }

  lemma MoveKeepsWindows(m: Machine, t: int, ok: bool, w: Windows)
    requires WindowsInv(m, w) && t in m.calls
    ensures WindowsInv(Apply(m, Move(t, ok)), Watch(m, Move(t, ok), w))
  {
    ApplyKeeps(m, Move(t, ok));
    OverwrittenOnlyBeforeASwap(m, t, ok);
    if m.calls[t].pc.Publish? {
      ExposedPublish(m, t, ok);
    } else {
      ExposedStep(m, t, ok, w.exposed);
    }
    if m.calls[t].pc.SubInstall? {
      InterruptedInstall(m, t, ok);
    } else {
      InterruptedStep(m, t, ok, w.interrupted);
    }
  }

  lemma WatchKeeps(m: Machine, schedule: seq<Event>, w: Windows)
    requires WindowsInv(m, w)
    ensures WindowsInv(Run(m, schedule), WatchAll(m, schedule, w))
    decreases |schedule|
  {
    if schedule != [] {
      var e := schedule[0];
      match e {
        case Enter(t, kind) =>
          if t !in m.calls {
            EnterKeepsWindows(m, t, kind, w);
          }
        case Move(t, ok) =>
          if t in m.calls {
            MoveKeepsWindows(m, t, ok, w);
          }
      }
      WatchKeeps(Apply(m, e), schedule[1..], Watch(m, e, w));
    }
  }

  // Running means that an instance is published, exactly if the last publication
  // did not happen while some call stood between its change of state and its Swap.
  lemma RunningMeansPublished(schedule: seq<Event>)
    requires Quiescent(Exec(schedule)) && Exec(schedule).g.s.state == Running
    ensures Exec(schedule).g.s.running.At? <==> !Exposed(schedule)
  {
    WatchKeeps(INIT, schedule, UNDISTURBED);
  }

  // The published instance is subscribed to, if there is anything to subscribe to,
  // exactly if nobody waited to cancel when the last subscription was installed.
  lemma PublishedMeansSubscribed(schedule: seq<Event>, i: int)
    requires Quiescent(Exec(schedule)) && Exec(schedule).g.s.running == At(i)
    requires i !in Exec(schedule).g.h.unmanaged
    ensures Exec(schedule).g.b.subscribed == {i} <==> !Interrupted(schedule)
  {
    WatchKeeps(INIT, schedule, UNDISTURBED);
    var m := Exec(schedule);
    assert Installed(m.g);
    assert forall t :: !Subscriber(m, t);
  }

  // If no start ever publishes while a call stands between its change of state and
  // its Swap, nothing is lost: every instance that is not published any more, and in
  // particular every instance whose state some Stop or Destroy took, has been closed
  // exactly once.
  lemma ClosedExactlyOnce(schedule: seq<Event>, i: int)
    requires Quiescent(Exec(schedule)) && !EverExposed(schedule) && 0 <= i < Exec(schedule).g.b.built
    ensures Exec(schedule).g.h.lost == {}
    ensures Exec(schedule).g.b.closes[i] == if Exec(schedule).g.s.running == At(i) then 0 else 1
    ensures i in Exec(schedule).g.h.taken ==> Exec(schedule).g.b.closes[i] == 1
  {
    WatchKeeps(INIT, schedule, UNDISTURBED);
    InstancesAccounted(schedule, i);
    if i in Exec(schedule).g.h.taken {
      TakenMeansClosed(schedule, i);
    }
  }

  // ---------------------------------------------------------------------
  // Nothing to subscribe to
  // ---------------------------------------------------------------------

  // A start that has built its instance and not yet looked for its managers.
  predicate BeforeManagers(c: Call) {
    HasBuilt(c) && !c.pc.SubUnlock? && !c.pc.StoreProxy?
  }

  // Instances without managers hold no subscription, and no start will give them one.
  predicate Forgone(g: Shared) {
    && (forall i | i in g.h.unmanaged :: i < g.b.built)
    && (g.s.subCancel.At? ==> g.s.subCancel.id !in g.h.unmanaged)
  }

  predicate StillServed(g: Shared, c: Call) {
    BeforeManagers(c) ==> c.rs !in g.h.unmanaged
  }

  lemma ForgoneOwnHooks(g: Shared, t: int, c: Call, ok: bool)
    requires HookSteps(c) && Forgone(g) && Built(g, c) && StillServed(g, c)
    ensures var o := Advance(g, t, c, ok); Forgone(o.g) && StillServed(o.g, o.c)
  {
  }

  lemma ForgoneOwnStop(g: Shared, t: int, c: Call, ok: bool)
    requires StopSteps(c) && Forgone(g)
    ensures var o := Advance(g, t, c, ok); Forgone(o.g) && StillServed(o.g, o.c)
  {
  }

  lemma ForgoneOwnRest(g: Shared, t: int, c: Call, ok: bool)
    requires !StopSteps(c) && !HookSteps(c) && Forgone(g) && Built(g, c) && StillServed(g, c)
    ensures var o := Advance(g, t, c, ok); Forgone(o.g) && StillServed(o.g, o.c)
  {
  }

  lemma ForgoneOwn(g: Shared, t: int, c: Call, ok: bool)
    requires Forgone(g) && Built(g, c) && StillServed(g, c)
    ensures var o := Advance(g, t, c, ok); Forgone(o.g) && StillServed(o.g, o.c)
  {
    if StopSteps(c) {
      ForgoneOwnStop(g, t, c, ok);
    } else if HookSteps(c) {
      ForgoneOwnHooks(g, t, c, ok);
    } else {
      ForgoneOwnRest(g, t, c, ok);
    }
  }

  lemma ForgoneOther(g: Shared, t: int, c: Call, ok: bool, u: int, d: Call)
    requires t != u && Locks(g, t, c) && Locks(g, u, d) && StillServed(g, d)
    ensures StillServed(Advance(g, t, c, ok).g, d)
  {
  }

  ghost predicate ForgoneInv(m: Machine) {
    Forgone(m.g) && forall t | t in m.calls :: StillServed(m.g, m.calls[t])
  }

  lemma ForgoneStep(m: Machine, t: int, ok: bool)
    requires Inv(m) && ForgoneInv(m) && t in m.calls
    ensures ForgoneInv(Apply(m, Move(t, ok)))
  {
    var c, m' := m.calls[t], Apply(m, Move(t, ok));
    assert Locks(m.g, t, c) && Facts(m.g, c);
    ForgoneOwn(m.g, t, c, ok);
    forall u | u in m'.calls ensures StillServed(m'.g, m'.calls[u]) {
      if u != t {
        assert Locks(m.g, u, m.calls[u]);
        ForgoneOther(m.g, t, c, ok, u, m.calls[u]);
      }
    }
  }

  lemma {:induction false} ForgoneRun(m: Machine, schedule: seq<Event>)
    requires Inv(m) && ForgoneInv(m)
    ensures ForgoneInv(Run(m, schedule))
    decreases |schedule|
  {
    if schedule != [] {
      ApplyKeeps(m, schedule[0]);
      if schedule[0].Move? && schedule[0].call in m.calls {
        ForgoneStep(m, schedule[0].call, schedule[0].ok);
      }
      ForgoneRun(Apply(m, schedule[0]), schedule[1..]);
    }
  }

  // An instance that registered no manager is never left with a subscription: in no
  // schedule, from the moment its start has looked, is it subscribed to.
  lemma UnmanagedIsUnsubscribed(schedule: seq<Event>)
    ensures
      var g := Exec(schedule).g;
      g.b.subscribed !! g.h.unmanaged && (g.s.subCancel.At? ==> g.s.subCancel.id !in g.h.unmanaged)
  {
    ExecInv([]);
    ExecInv(schedule);
    ForgoneRun(INIT, schedule);
    assert Installed(Exec(schedule).g);
  }
}
