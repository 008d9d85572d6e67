// What every step of the lifecycle machine keeps, argued call by call: facts
// about one call (Local), about two calls (Pair), and about the shared state
// (Global). A step must keep the facts of the call that moves, of every other
// call, and of every pair; what remains are the obligations that some call in
// flight still has to meet (Pending).
module LifecycleInvariants {
  import opened Lifecycle

  // ---------------------------------------------------------------------
  // Reading a call
  // ---------------------------------------------------------------------

  predicate ReclaimSteps(c: Call) {
    c.pc.Reclaim? || c.pc.StopReclaimed? || c.pc.CloseReclaimed?
  }

  predicate HoldsStart(c: Call) {
    c.kind.CallStart? && !c.pc.TakeTicket? && !c.pc.LockStart? && !c.pc.Done?
  }

  predicate HoldsHooks(c: Call) {
    c.pc.CancelHooks? || c.pc.UnlockHooks? || (HookSteps(c) && !c.pc.SubLock?)
  }

  // A start that has not yet learned whether its ticket is the newest.
  predicate Waiting(c: Call) {
    c.pc.LockStart? || c.pc.CheckTicket?
  }

  // A start that has passed the ticket check and has not yet finished.
  predicate Acting(c: Call) {
    HoldsStart(c) && !c.pc.CheckTicket? && !c.pc.UnlockStart?
  }

  // The start has stored its instance into `running`.
  predicate HasPublished(c: Call) {
    c.pc.EnterRunning? || ReclaimSteps(c) || HookSteps(c) || c.pc.StoreProxy?
  }

  predicate HasBuilt(c: Call) {
    c.pc.Publish? || HasPublished(c)
  }

  // The start owns the state Starting, unless a stop has taken it.
  predicate InStarting(c: Call) {
    c.pc.Build? || c.pc.Rollback? || c.pc.Publish? || c.pc.EnterRunning?
  }

  // The start has seen the state leave Running and Starting; nobody else can
  // bring it back while the start holds startMu.
  predicate SeenOffline(c: Call) {
    || (c.kind.CallStart? && StopSteps(c) && !c.pc.LoadState? && !c.pc.LeaveState?)
    || c.pc.EnterStarting? || ReclaimSteps(c)
  }

  // The instance a call must still publish or close.
  function Holding(c: Call): Ref {
    if c.pc.LockHooks? || c.pc.CancelHooks? || c.pc.UnlockHooks? || c.pc.StopQueries?
       || c.pc.CloseInstance? || c.pc.StopReclaimed? || c.pc.CloseReclaimed? then c.prev
    else if c.pc.Publish? then At(c.rs)
    else Nil
  }

  predicate Unsubscribed(c: Call) {
    || c.pc.Publish? || c.pc.EnterRunning? || c.pc.Reclaim?
    || c.pc.SubLock? || c.pc.SubCancelOld? || c.pc.SubCheck? || c.pc.SubInstall?
  }

  // ---------------------------------------------------------------------
  // The invariant
  // ---------------------------------------------------------------------

  // A mutex is held by the call whose program counter says so, and only a start
  // executes the steps of a start.
  predicate Locks(g: Shared, t: int, c: Call) {
    && (HoldsStart(c) <==> g.s.startMu == At(t))
    && (HoldsHooks(c) <==> g.s.hooksMu == At(t))
    && (!c.kind.CallStart? ==> StopSteps(c) || c.pc.Done?)
  }

  // No waiting ticket has been served; the start that acts holds the last one
  // that was.
  predicate Tickets(g: Shared, c: Call) {
    && g.h.touched <= g.s.startSeq
    && (Waiting(c) ==> c.mySeq <= g.s.startSeq && c.mySeq != g.h.touched)
    && (Acting(c) ==> c.mySeq == g.h.touched)
  }

  // The state, as far as a start can rely on it.
  predicate Phase(g: Shared, c: Call) {
    && (InStarting(c) ==> g.s.state != Running)
    && (SeenOffline(c) ==> g.s.state != Running && g.s.state != Starting)
    && (c.pc.LeaveState? ==> c.st == Running || c.st == Starting || c.kind.CallDestroy?)
    && (c.pc.LeaveState? ==> c.st != Destroyed)
  }

  // `running` holds the instance of the start that finishes, or nothing.
  predicate Stored(g: Shared, c: Call) {
    && (HasPublished(c) ==> g.s.running == Nil || g.s.running == At(c.rs))
    && (c.pc.StopReclaimed? || c.pc.CloseReclaimed? ==> g.s.running == Nil && c.prev.At?)
    && (c.pc.StopQueries? || c.pc.CloseInstance? ==> c.prev.At?)
  }

  // Instances in `running` or in the hands of a call are not closed and not lost.
  predicate Alive(g: Shared, r: Ref) {
    r.At? ==> 0 <= r.id < g.b.built && r.id !in g.b.closes && r.id !in g.h.lost
  }

  predicate Place(g: Shared, c: Call) {
    && Alive(g, g.s.running)
    && Alive(g, Holding(c))
    && (Holding(c).At? ==> g.s.running != Holding(c))
  }

  // Queries on an instance are told to stop before it is closed.
  predicate Quieted(g: Shared, c: Call) {
    c.pc.CloseInstance? || c.pc.CloseReclaimed? ==> Singleton(c.prev) <= g.b.quiet
  }

  // The instance a start has built is its own; while the service is Running, no
  // stop has taken the state of the instance in `running`.
  predicate Built(g: Shared, c: Call) {
    && (HasBuilt(c) ==>
          0 <= c.rs < g.b.built && c.rs in g.b.starter && g.b.starter[c.rs] == c.mySeq)
    && (c.pc.Publish? || (c.pc.EnterRunning? && g.s.state == Starting) ==> c.rs !in g.h.taken)
    && (g.s.state == Running && g.s.running.At? ==> g.s.running.id !in g.h.taken)
  }

  // The subscription that is not cancelled is the one installed.
  predicate Installed(g: Shared) {
    g.b.subscribed == Singleton(g.s.subCancel)
  }

  predicate Subscription(g: Shared, c: Call) {
    && (g.s.subCancel.At? ==> g.s.subCancel.id < g.b.built)
    && (Unsubscribed(c) ==> g.s.subCancel != At(c.rs))
    && (c.pc.SubCheck? || c.pc.SubInstall? ==> g.s.subCancel == Nil)
    && (c.pc.SubManagers? ==> g.s.subCancel == At(c.rs))
  }

  // What is known of every instance.
  ghost predicate EachInstance(g: Shared) {
    && 0 <= g.b.built
    && (forall i | i in g.b.closes ::
          i < g.b.built && g.b.closes[i] == 1 && i !in g.h.lost && i in g.b.quiet)
    && (forall i | i in g.h.lost :: i < g.b.built)
    && (forall i | i in g.h.taken :: 0 <= i < g.b.built)
    && (forall i | 0 <= i < g.b.built :: i in g.b.starter)
  }

  // ---------------------------------------------------------------------
  // Steps
  // ---------------------------------------------------------------------

  lemma LocksOwnStop(g: Shared, t: int, c: Call, ok: bool)
    requires StopSteps(c) && Locks(g, t, c)
    ensures var o := Advance(g, t, c, ok); Locks(o.g, t, o.c)
  {
  }

  lemma LocksOwnRest(g: Shared, t: int, c: Call, ok: bool)
    requires !StopSteps(c) && Locks(g, t, c)
    ensures var o := Advance(g, t, c, ok); Locks(o.g, t, o.c)
  {
  }

  lemma LocksOwn(g: Shared, t: int, c: Call, ok: bool)
    requires Locks(g, t, c)
    ensures var o := Advance(g, t, c, ok); Locks(o.g, t, o.c)
  {
    if StopSteps(c) {
      LocksOwnStop(g, t, c, ok);
    } else {
      LocksOwnRest(g, t, c, ok);
    }
  }

  lemma LocksOther(g: Shared, t: int, c: Call, ok: bool, u: int, d: Call)
    requires t != u && Locks(g, t, c) && Locks(g, u, d)
    ensures var o := Advance(g, t, c, ok); Locks(o.g, u, d)
  {
  }

  lemma TicketsOwn(g: Shared, t: int, c: Call, ok: bool)
    requires Locks(g, t, c) && Tickets(g, c)
    ensures var o := Advance(g, t, c, ok); Tickets(o.g, o.c)
  {
  }

  lemma TicketsOther(g: Shared, t: int, c: Call, ok: bool, u: int, d: Call)
    requires t != u && Locks(g, t, c) && Locks(g, u, d) && Tickets(g, c) && Tickets(g, d)
    requires Waiting(c) && Waiting(d) ==> c.mySeq != d.mySeq
    ensures
      var o := Advance(g, t, c, ok);
      Tickets(o.g, d) && (Waiting(o.c) && Waiting(d) ==> o.c.mySeq != d.mySeq)
  {
  }

  lemma PhaseOwn(g: Shared, t: int, c: Call, ok: bool)
    requires Locks(g, t, c) && Phase(g, c)
    ensures var o := Advance(g, t, c, ok); Phase(o.g, o.c)
  {
  }

  lemma PhaseOther(g: Shared, t: int, c: Call, ok: bool, u: int, d: Call)
    requires t != u && Locks(g, t, c) && Locks(g, u, d) && Phase(g, c) && Phase(g, d)
    ensures var o := Advance(g, t, c, ok); Phase(o.g, d)
  {
  }

  lemma StoredOwnStop(g: Shared, t: int, c: Call, ok: bool)
    requires StopSteps(c) && Locks(g, t, c) && Stored(g, c)
    ensures var o := Advance(g, t, c, ok); Stored(o.g, o.c)
  {
  }

  lemma StoredOtherStop(g: Shared, t: int, c: Call, ok: bool, u: int, d: Call)
    requires StopSteps(c) && t != u && Locks(g, t, c) && Locks(g, u, d) && Stored(g, c) && Stored(g, d)
    ensures var o := Advance(g, t, c, ok); Stored(o.g, d)
  {
  }

  lemma StoredOwnRest(g: Shared, t: int, c: Call, ok: bool)
    requires !StopSteps(c) && Locks(g, t, c) && Stored(g, c)
    ensures var o := Advance(g, t, c, ok); Stored(o.g, o.c)
  {
  }

  lemma StoredOtherRest(g: Shared, t: int, c: Call, ok: bool, u: int, d: Call)
    requires !StopSteps(c) && t != u && Locks(g, t, c) && Locks(g, u, d) && Stored(g, c) && Stored(g, d)
    ensures var o := Advance(g, t, c, ok); Stored(o.g, d)
  {
  }

  lemma PlaceOwnStop(g: Shared, t: int, c: Call, ok: bool)
    requires StopSteps(c) && Locks(g, t, c) && Stored(g, c) && Place(g, c) && EachInstance(g)
    ensures var o := Advance(g, t, c, ok); Place(o.g, o.c)
  {
  }

  lemma PlaceOtherStop(g: Shared, t: int, c: Call, ok: bool, u: int, d: Call)
    requires StopSteps(c) && t != u && Locks(g, t, c) && Locks(g, u, d) && Stored(g, c) && Stored(g, d)
    requires Place(g, c) && Place(g, d) && EachInstance(g)
    requires Holding(c).At? ==> Holding(c) != Holding(d)
    ensures var o := Advance(g, t, c, ok); Place(o.g, d)
  {
  }

  lemma PlaceOwnPublish(g: Shared, t: int, c: Call, ok: bool)
    requires c.pc.Publish? && Locks(g, t, c) && Stored(g, c) && Place(g, c) && EachInstance(g)
    ensures var o := Advance(g, t, c, ok); Place(o.g, o.c)
  {
  }

  lemma PlaceOtherPublish(g: Shared, t: int, c: Call, ok: bool, u: int, d: Call)
    requires c.pc.Publish? && t != u && Locks(g, t, c) && Locks(g, u, d) && Stored(g, c) && Stored(g, d)
    requires Place(g, c) && Place(g, d) && EachInstance(g)
    requires Holding(c).At? ==> Holding(c) != Holding(d)
    ensures var o := Advance(g, t, c, ok); Place(o.g, d)
  {
  }

  lemma PlaceOwnBoot(g: Shared, t: int, c: Call, ok: bool)
    requires BootSteps(c) && !c.pc.Publish? && Locks(g, t, c) && Stored(g, c) && Place(g, c) && EachInstance(g)
    ensures var o := Advance(g, t, c, ok); Place(o.g, o.c)
  {
  }

  lemma PlaceOtherBoot(g: Shared, t: int, c: Call, ok: bool, u: int, d: Call)
    requires BootSteps(c) && !c.pc.Publish? && t != u && Locks(g, t, c) && Locks(g, u, d) && Stored(g, c)
    requires Stored(g, d) && Place(g, c) && Place(g, d) && EachInstance(g)
    requires Holding(c).At? ==> Holding(c) != Holding(d)
    ensures var o := Advance(g, t, c, ok); Place(o.g, d)
  {
  }

  lemma PlaceOwnRest(g: Shared, t: int, c: Call, ok: bool)
    requires !StopSteps(c) && !BootSteps(c) && Locks(g, t, c) && Stored(g, c) && Place(g, c) && EachInstance(g)
    ensures var o := Advance(g, t, c, ok); Place(o.g, o.c)
  {
  }

  lemma PlaceOtherRest(g: Shared, t: int, c: Call, ok: bool, u: int, d: Call)
    requires !StopSteps(c) && !BootSteps(c) && t != u && Locks(g, t, c) && Locks(g, u, d) && Stored(g, c)
    requires Stored(g, d) && Place(g, c) && Place(g, d) && EachInstance(g)
    requires Holding(c).At? ==> Holding(c) != Holding(d)
    ensures var o := Advance(g, t, c, ok); Place(o.g, d)
  {
  }

  lemma QuietedOwn(g: Shared, t: int, c: Call, ok: bool)
    requires Quieted(g, c)
    ensures var o := Advance(g, t, c, ok); Quieted(o.g, o.c)
  {
  }

  lemma QuietedOther(g: Shared, t: int, c: Call, ok: bool, u: int, d: Call)
    requires t != u && Quieted(g, c) && Quieted(g, d)
    ensures var o := Advance(g, t, c, ok); Quieted(o.g, d)
  {
  }

  lemma BuiltOwnStop(g: Shared, t: int, c: Call, ok: bool)
    requires StopSteps(c) && Locks(g, t, c) && Phase(g, c) && Stored(g, c) && Built(g, c) && EachInstance(g)
    ensures var o := Advance(g, t, c, ok); Built(o.g, o.c)
  {
  }

  lemma BuiltOtherStop(g: Shared, t: int, c: Call, ok: bool, u: int, d: Call)
    requires StopSteps(c) && t != u && Locks(g, t, c) && Locks(g, u, d) && Phase(g, c) && Phase(g, d)
    requires Stored(g, c) && Stored(g, d) && Built(g, c) && Built(g, d) && EachInstance(g)
    requires Place(g, d)
    ensures var o := Advance(g, t, c, ok); Built(o.g, d)
  {
  }

  lemma BuiltOwnBoot(g: Shared, t: int, c: Call, ok: bool)
    requires BootSteps(c) && Locks(g, t, c) && Phase(g, c) && Stored(g, c) && Built(g, c) && EachInstance(g)
    ensures var o := Advance(g, t, c, ok); Built(o.g, o.c)
  {
  }

  lemma BuiltOtherBoot(g: Shared, t: int, c: Call, ok: bool, u: int, d: Call)
    requires BootSteps(c) && t != u && Locks(g, t, c) && Locks(g, u, d) && Phase(g, c) && Phase(g, d)
    requires Stored(g, c) && Stored(g, d) && Built(g, c) && Built(g, d) && EachInstance(g)
    ensures var o := Advance(g, t, c, ok); Built(o.g, d)
  {
  }

  lemma BuiltOwnRest(g: Shared, t: int, c: Call, ok: bool)
    requires !StopSteps(c) && !BootSteps(c) && Locks(g, t, c) && Phase(g, c) && Stored(g, c) && Built(g, c)
    requires EachInstance(g)
    ensures var o := Advance(g, t, c, ok); Built(o.g, o.c)
  {
  }

  lemma BuiltOtherRest(g: Shared, t: int, c: Call, ok: bool, u: int, d: Call)
    requires !StopSteps(c) && !BootSteps(c) && t != u && Locks(g, t, c) && Locks(g, u, d) && Phase(g, c)
    requires Phase(g, d) && Stored(g, c) && Stored(g, d) && Built(g, c) && Built(g, d) && EachInstance(g)
    ensures var o := Advance(g, t, c, ok); Built(o.g, d)
  {
  }

  lemma SubscriptionOwnStop(g: Shared, t: int, c: Call, ok: bool)
    requires StopSteps(c) && Locks(g, t, c) && Built(g, c) && Subscription(g, c)
    ensures var o := Advance(g, t, c, ok); Subscription(o.g, o.c)
  {
  }

  lemma SubscriptionOtherStop(g: Shared, t: int, c: Call, ok: bool, u: int, d: Call)
    requires StopSteps(c) && t != u && Locks(g, t, c) && Locks(g, u, d) && Built(g, c) && Built(g, d)
    requires Subscription(g, c) && Subscription(g, d)
    ensures var o := Advance(g, t, c, ok); Subscription(o.g, d)
  {
  }

  lemma SubscriptionOwnBoot(g: Shared, t: int, c: Call, ok: bool)
    requires BootSteps(c) && Locks(g, t, c) && Built(g, c) && Subscription(g, c)
    ensures var o := Advance(g, t, c, ok); Subscription(o.g, o.c)
  {
  }

  lemma SubscriptionOtherBoot(g: Shared, t: int, c: Call, ok: bool, u: int, d: Call)
    requires BootSteps(c) && t != u && Locks(g, t, c) && Locks(g, u, d) && Built(g, c) && Built(g, d)
    requires Subscription(g, c) && Subscription(g, d)
    ensures var o := Advance(g, t, c, ok); Subscription(o.g, d)
  {
  }

  lemma SubscriptionOwnRest(g: Shared, t: int, c: Call, ok: bool)
    requires !StopSteps(c) && !BootSteps(c) && Locks(g, t, c) && Built(g, c) && Subscription(g, c)
    ensures var o := Advance(g, t, c, ok); Subscription(o.g, o.c)
  {
  }

  lemma SubscriptionOtherRest(g: Shared, t: int, c: Call, ok: bool, u: int, d: Call)
    requires !StopSteps(c) && !BootSteps(c) && t != u && Locks(g, t, c) && Locks(g, u, d) && Built(g, c)
    requires Built(g, d) && Subscription(g, c) && Subscription(g, d)
    ensures var o := Advance(g, t, c, ok); Subscription(o.g, d)
  {
  }

  lemma InstalledStep(g: Shared, t: int, c: Call, ok: bool)
    requires Installed(g) && Subscription(g, c)
    ensures Installed(Advance(g, t, c, ok).g)
  {
  }

  lemma InstancesStop(g: Shared, t: int, c: Call, ok: bool)
    requires StopSteps(c) && Stored(g, c) && Place(g, c) && Quieted(g, c) && EachInstance(g)
    ensures EachInstance(Advance(g, t, c, ok).g)
  {
  }

  lemma InstancesPublish(g: Shared, t: int, c: Call, ok: bool)
    requires c.pc.Publish? && Stored(g, c) && Place(g, c) && Quieted(g, c) && EachInstance(g)
    ensures EachInstance(Advance(g, t, c, ok).g)
  {
  }

  lemma InstancesBoot(g: Shared, t: int, c: Call, ok: bool)
    requires BootSteps(c) && !c.pc.Publish? && Stored(g, c) && Place(g, c) && Quieted(g, c) && EachInstance(g)
    ensures EachInstance(Advance(g, t, c, ok).g)
  {
  }

  lemma InstancesRest(g: Shared, t: int, c: Call, ok: bool)
    requires !StopSteps(c) && !BootSteps(c) && Stored(g, c) && Place(g, c) && Quieted(g, c) && EachInstance(g)
    ensures EachInstance(Advance(g, t, c, ok).g)
  {
  }

  lemma HoldingPair(g: Shared, t: int, c: Call, ok: bool, d: Call)
    requires Stored(g, c) && Place(g, d)
    requires Holding(c).At? ==> Holding(c) != Holding(d)
    ensures var o := Advance(g, t, c, ok); Holding(o.c).At? ==> Holding(o.c) != Holding(d)
  {
  }

  // ---------------------------------------------------------------------
  // What some call in flight still has to do
  // ---------------------------------------------------------------------

  datatype Duty =
    | Serve           // the newest ticket
    | Leave           // the state Starting
    | Remove          // an instance left in `running` although the state has moved on
    | Keep(inst: int) // an instance that is not in `running`, not closed and not lost
    | Cancel          // a subscription of an instance that is not in `running`
    | Report          // the rule-set proxy of the instance in `running`

  predicate Owed(g: Shared, d: Duty) {
    match d
    case Serve => g.h.touched != g.s.startSeq
    case Leave => g.s.state == Starting
    case Remove => g.s.running.At? && g.s.state != Running
    case Keep(i) =>
      0 <= i < g.b.built && g.s.running != At(i) && i !in g.b.closes && i !in g.h.lost
    case Cancel => g.s.subCancel.At? && g.s.running != g.s.subCancel
    case Report =>
      g.s.running.At? && g.s.running.id in g.b.starter
      && g.s.lastProxy != At(g.b.starter[g.s.running.id])
  }

  predicate Pays(g: Shared, c: Call, d: Duty) {
    match d
    case Serve => Waiting(c) && c.mySeq == g.s.startSeq
    case Leave => InStarting(c)
    case Remove => c.pc.TakeInstance? || c.pc.EnterRunning? || c.pc.Reclaim?
    case Keep(i) => Holding(c) == At(i)
    case Cancel => Unsettled(c)
    case Report => HasPublished(c) && g.s.running == At(c.rs)
  }

  // A duty that is owed after a step and not the mover's was owed before and not
  // the mover's. Two steps can leave a subscription for somebody else to cancel:
  // storing a new instance over the one that is subscribed, and installing the
  // subscription of an instance that has been taken out after the check.
  lemma DutyPassedPublish(g: Shared, t: int, c: Call, ok: bool, d: Duty)
    requires c.pc.Publish? && Locks(g, t, c) && Phase(g, c) && Stored(g, c) && Built(g, c)
    requires Place(g, c) && Subscription(g, c) && Tickets(g, c)
    requires var o := Advance(g, t, c, ok); Owed(o.g, d) && !Pays(o.g, o.c, d)
    ensures (Owed(g, d) && !Pays(g, c, d)) || (d == Cancel && Owed(g, Remove))
  {
  }

  lemma DutyPassedUnpublished(g: Shared, t: int, c: Call, ok: bool, d: Duty)
    requires BootSteps(c) && !c.pc.Publish? && Locks(g, t, c) && Phase(g, c) && Stored(g, c) && Built(g, c)
    requires Place(g, c) && Subscription(g, c) && Tickets(g, c)
    requires var o := Advance(g, t, c, ok); Owed(o.g, d) && !Pays(o.g, o.c, d)
    ensures Owed(g, d) && !Pays(g, c, d)
  {
  }

  lemma DutyPassedBoot(g: Shared, t: int, c: Call, ok: bool, d: Duty)
    requires BootSteps(c) && Locks(g, t, c) && Phase(g, c) && Stored(g, c) && Built(g, c)
    requires Place(g, c) && Subscription(g, c) && Tickets(g, c)
    requires var o := Advance(g, t, c, ok); Owed(o.g, d) && !Pays(o.g, o.c, d)
    ensures
      || (Owed(g, d) && !Pays(g, c, d))
      || (d == Cancel && c.pc.Publish? && Owed(g, Remove))
  {
    if c.pc.Publish? {
      DutyPassedPublish(g, t, c, ok, d);
    } else {
      DutyPassedUnpublished(g, t, c, ok, d);
    }
  }

  lemma DutyPassedRest(g: Shared, t: int, c: Call, ok: bool, d: Duty)
    requires !StopSteps(c) && !BootSteps(c) && Locks(g, t, c) && Phase(g, c) && Stored(g, c) && Built(g, c)
    requires Place(g, c) && Subscription(g, c) && Tickets(g, c)
    requires var o := Advance(g, t, c, ok); Owed(o.g, d) && !Pays(o.g, o.c, d)
    ensures
      || (Owed(g, d) && !Pays(g, c, d))
      || (d == Cancel && c.pc.SubInstall? && g.s.running != At(c.rs))
  {
  }

  lemma DutyPassedStop(g: Shared, t: int, c: Call, ok: bool, d: Duty)
    requires StopSteps(c) && Locks(g, t, c) && Phase(g, c) && Stored(g, c) && Built(g, c)
    requires Place(g, c) && Subscription(g, c) && Tickets(g, c)
    requires var o := Advance(g, t, c, ok); Owed(o.g, d) && !Pays(o.g, o.c, d)
    ensures Owed(g, d) && !Pays(g, c, d)
  {
  }

  // A start goes on to install a subscription only for the instance in `running`;
  // while it does, only a stop that is on its way to cancel touches `running`.
  lemma InstallOwn(g: Shared, t: int, c: Call, ok: bool)
    ensures var o := Advance(g, t, c, ok); o.c.pc.SubInstall? ==> o.g.s.running == At(o.c.rs)
  {
  }

  lemma InstallOther(g: Shared, t: int, c: Call, ok: bool, u: int, d: Call)
    requires t != u && Locks(g, t, c) && Locks(g, u, d) && d.pc.SubInstall?
    requires var o := Advance(g, t, c, ok); !Unsettled(o.c)
    ensures var o := Advance(g, t, c, ok); !Unsettled(c) && o.g.s.running == g.s.running
  {
  }

  lemma MutexEffect(g: Shared, t: int, c: Call, ok: bool)
    ensures
      var s := Advance(g, t, c, ok).g.s;
      && (s.startMu == g.s.startMu || s.startMu == At(t) || s.startMu == Nil)
      && (s.hooksMu == g.s.hooksMu || s.hooksMu == At(t) || s.hooksMu == Nil)
  {
  }

  // Another call's duty stays its own.
  lemma DutyKept(g: Shared, t: int, c: Call, ok: bool, e: Call, d: Duty)
    requires Pays(g, e, d)
    requires var o := Advance(g, t, c, ok); Owed(o.g, d) && !Pays(o.g, o.c, d)
    ensures Pays(Advance(g, t, c, ok).g, e, d)
  {
  }

}
