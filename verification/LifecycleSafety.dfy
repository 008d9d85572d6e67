// The invariant of the whole machine, kept by every event, and what it says
// about every run.
module LifecycleSafety {
  import opened Lifecycle
  import opened LifecycleInvariants

  // Everything known of one call.
  ghost predicate Facts(g: Shared, c: Call) {
    && Tickets(g, c) && Phase(g, c) && Stored(g, c) && Place(g, c) && Quieted(g, c)
    && Built(g, c) && Subscription(g, c)
  }

  ghost predicate PairFacts(g: Shared, c: Call, d: Call) {
    && (Waiting(c) && Waiting(d) ==> c.mySeq != d.mySeq)
    && (Holding(c).At? ==> Holding(c) != Holding(d))
  }

  // A call that is finished: what Facts says of it holds of the shared state alone.
  const IDLE := Call(CallStart, Done, 0, Initialized, Nil, 0)

  ghost predicate Payer(m: Machine, t: int, d: Duty) {
    t in m.calls && Pays(m.g, m.calls[t], d)
  }

  ghost predicate PairsInv(m: Machine) {
    forall t, u | t in m.calls && u in m.calls && t != u :: PairFacts(m.g, m.calls[t], m.calls[u])
  }

  ghost predicate CallsInv(m: Machine) {
    && EachInstance(m.g) && Installed(m.g) && Facts(m.g, IDLE)
    && (m.g.s.startMu.At? ==> m.g.s.startMu.id in m.calls)
    && (m.g.s.hooksMu.At? ==> m.g.s.hooksMu.id in m.calls)
    && (forall t | t in m.calls :: Locks(m.g, t, m.calls[t]) && Facts(m.g, m.calls[t]))
  }

  ghost predicate DutiesInv(m: Machine) {
    && (forall d | Owed(m.g, d) :: exists t :: Payer(m, t, d))
    && (forall t | t in m.calls && m.calls[t].pc.SubInstall? && m.g.s.running != At(m.calls[t].rs) ::
          exists u :: Payer(m, u, Cancel))
  }

  ghost predicate Inv(m: Machine) {
    CallsInv(m) && PairsInv(m) && DutiesInv(m)
  }

  lemma FactsOwn(g: Shared, t: int, c: Call, ok: bool)
    requires EachInstance(g) && Locks(g, t, c) && Facts(g, c)
    ensures var o := Advance(g, t, c, ok); Locks(o.g, t, o.c) && Facts(o.g, o.c)
  {
    LocksOwn(g, t, c, ok);
    TicketsOwn(g, t, c, ok);
    PhaseOwn(g, t, c, ok);
    QuietedOwn(g, t, c, ok);
    if StopSteps(c) {
      StoredOwnStop(g, t, c, ok);
      PlaceOwnStop(g, t, c, ok);
      BuiltOwnStop(g, t, c, ok);
      SubscriptionOwnStop(g, t, c, ok);
    } else {
      StoredOwnRest(g, t, c, ok);
      if BootSteps(c) {
        if c.pc.Publish? {
          PlaceOwnPublish(g, t, c, ok);
        } else {
          PlaceOwnBoot(g, t, c, ok);
        }
        BuiltOwnBoot(g, t, c, ok);
        SubscriptionOwnBoot(g, t, c, ok);
      } else {
        PlaceOwnRest(g, t, c, ok);
        BuiltOwnRest(g, t, c, ok);
        SubscriptionOwnRest(g, t, c, ok);
      }
    }
  }

  lemma FactsOther(g: Shared, t: int, c: Call, ok: bool, u: int, d: Call)
    requires t != u && EachInstance(g) && Locks(g, t, c) && Facts(g, c) && Locks(g, u, d) && Facts(g, d)
    requires PairFacts(g, c, d) && PairFacts(g, d, c)
    ensures
      var o := Advance(g, t, c, ok);
      Locks(o.g, u, d) && Facts(o.g, d) && PairFacts(o.g, o.c, d) && PairFacts(o.g, d, o.c)
  {
    LocksOther(g, t, c, ok, u, d);
    TicketsOther(g, t, c, ok, u, d);
    PhaseOther(g, t, c, ok, u, d);
    QuietedOther(g, t, c, ok, u, d);
    HoldingPair(g, t, c, ok, d);
    if StopSteps(c) {
      StoredOtherStop(g, t, c, ok, u, d);
      PlaceOtherStop(g, t, c, ok, u, d);
      BuiltOtherStop(g, t, c, ok, u, d);
      SubscriptionOtherStop(g, t, c, ok, u, d);
    } else {
      StoredOtherRest(g, t, c, ok, u, d);
      if BootSteps(c) {
        if c.pc.Publish? {
          PlaceOtherPublish(g, t, c, ok, u, d);
        } else {
          PlaceOtherBoot(g, t, c, ok, u, d);
        }
        BuiltOtherBoot(g, t, c, ok, u, d);
        SubscriptionOtherBoot(g, t, c, ok, u, d);
      } else {
        PlaceOtherRest(g, t, c, ok, u, d);
        BuiltOtherRest(g, t, c, ok, u, d);
        SubscriptionOtherRest(g, t, c, ok, u, d);
      }
    }
  }

  lemma InstancesKeep(m: Machine, t: int, ok: bool)
    requires Inv(m) && t in m.calls
    ensures EachInstance(Apply(m, Move(t, ok)).g)
  {
    var c := m.calls[t];
    if StopSteps(c) {
      InstancesStop(m.g, t, c, ok);
    } else if c.pc.Publish? {
      InstancesPublish(m.g, t, c, ok);
    } else if BootSteps(c) {
      InstancesBoot(m.g, t, c, ok);
    } else {
      InstancesRest(m.g, t, c, ok);
    }
  }

  // Two calls that stand still while a third one moves.
  lemma BystandersPair(m: Machine, t: int, ok: bool, u: int, v: int)
    requires Inv(m) && t in m.calls && u in m.calls && v in m.calls
    requires t != u && t != v && u != v
    ensures PairFacts(Apply(m, Move(t, ok)).g, m.calls[u], m.calls[v])
  {
    assert PairFacts(m.g, m.calls[u], m.calls[v]);
  }

  // Who pays a duty after a step of call `t`.
  lemma PayerAfter(m: Machine, t: int, ok: bool, d: Duty)
    requires Inv(m) && t in m.calls
    requires Owed(Apply(m, Move(t, ok)).g, d)
    ensures exists u :: Payer(Apply(m, Move(t, ok)), u, d)
  {
    var m' := Apply(m, Move(t, ok));
    var c := m.calls[t];
    if Pays(m'.g, m'.calls[t], d) {
      assert Payer(m', t, d);
    } else {
      var u := PayerBefore(m, t, ok, d);
      DutyKept(m.g, t, c, ok, m.calls[u], d);
      assert Payer(m', u, d);
    }
  }

  // The call, other than the mover, that already had the duty.
  lemma PayerBefore(m: Machine, t: int, ok: bool, d: Duty) returns (u: int)
    requires Inv(m) && t in m.calls
    requires
      var o := Advance(m.g, t, m.calls[t], ok);
      Owed(o.g, d) && !Pays(o.g, o.c, d)
    ensures u != t && Payer(m, u, d)
  {
    var c := m.calls[t];
    if StopSteps(c) {
      DutyPassedStop(m.g, t, c, ok, d);
      u :| Payer(m, u, d);
    } else if BootSteps(c) {
      DutyPassedBoot(m.g, t, c, ok, d);
      if Owed(m.g, d) && !Pays(m.g, c, d) {
        u :| Payer(m, u, d);
      } else {
        u :| Payer(m, u, Remove);
      }
    } else {
      DutyPassedRest(m.g, t, c, ok, d);
      u :| Payer(m, u, d);
    }
  }

  // A start that overwrites an instance does so while another call is about to
  // take that instance.
  lemma PublishOver(m: Machine, t: int)
    requires Inv(m) && t in m.calls && m.calls[t].pc.Publish? && m.g.s.running.At?
    ensures Taking(m)
  {
    assert Owed(m.g, Remove);
    var u :| Payer(m, u, Remove);
    assert Locks(m.g, u, m.calls[u]) && Locks(m.g, t, m.calls[t]);
    assert m.calls[u].pc.TakeInstance?;
  }

  lemma FactsEnter(g: Shared, kind: Kind, c: Call)
    requires Facts(g, c)
    ensures
      var g' := g.(h := g.h.(external := g.h.external || !kind.CallStart?));
      Facts(g', c) && Facts(g', Entry(kind)) && Facts(g', IDLE)
  {
  }

  lemma EnterKeepsCalls(m: Machine, t: int, kind: Kind)
    requires CallsInv(m) && t !in m.calls
    ensures CallsInv(Apply(m, Enter(t, kind)))
  {
    var m' := Apply(m, Enter(t, kind));
    FactsEnter(m.g, kind, IDLE);
    forall u | u in m.calls ensures Locks(m'.g, u, m.calls[u]) && Facts(m'.g, m.calls[u]) {
      assert Locks(m.g, u, m.calls[u]);
      FactsEnter(m.g, kind, m.calls[u]);
    }
  }

  lemma EnterKeepsPairs(m: Machine, t: int, kind: Kind)
    requires PairsInv(m) && t !in m.calls
    ensures PairsInv(Apply(m, Enter(t, kind)))
  {
    var m' := Apply(m, Enter(t, kind));
    forall u, v | u in m.calls && v in m.calls && u != v
      ensures PairFacts(m'.g, m.calls[u], m.calls[v])
    {
      assert PairFacts(m.g, m.calls[u], m.calls[v]);
    }
  }

  lemma EnterKeepsDuties(m: Machine, t: int, kind: Kind)
    requires DutiesInv(m) && t !in m.calls
    ensures DutiesInv(Apply(m, Enter(t, kind)))
  {
    var m' := Apply(m, Enter(t, kind));
    forall d | Owed(m'.g, d) ensures exists u :: Payer(m', u, d) {
      assert Owed(m.g, d);
      var u :| Payer(m, u, d);
      assert Payer(m', u, d);
    }
    forall u | u in m'.calls && m'.calls[u].pc.SubInstall? && m'.g.s.running != At(m'.calls[u].rs)
      ensures exists v :: Payer(m', v, Cancel)
    {
      var v :| Payer(m, v, Cancel);
      assert Payer(m', v, Cancel);
    }
  }

  lemma MoveKeepsOwn(m: Machine, t: int, ok: bool)
    requires Inv(m) && t in m.calls
    ensures
      var m' := Apply(m, Move(t, ok));
      && EachInstance(m'.g) && Installed(m'.g)
      && Locks(m'.g, t, m'.calls[t]) && Facts(m'.g, m'.calls[t]) && Facts(m'.g, IDLE)
  {
    var c := m.calls[t];
    InstalledStep(m.g, t, c, ok);
    InstancesKeep(m, t, ok);
    FactsOwn(m.g, t, c, ok);
  }

  lemma MoveKeepsOther(m: Machine, t: int, ok: bool, u: int)
    requires Inv(m) && t in m.calls && u in m.calls && t != u
    ensures
      var m' := Apply(m, Move(t, ok));
      && Locks(m'.g, u, m.calls[u]) && Facts(m'.g, m.calls[u])
      && PairFacts(m'.g, m'.calls[t], m.calls[u]) && PairFacts(m'.g, m.calls[u], m'.calls[t])
  {
    FactsOther(m.g, t, m.calls[t], ok, u, m.calls[u]);
  }

  lemma MoveKeepsCalls(m: Machine, t: int, ok: bool)
    requires Inv(m) && t in m.calls
    ensures CallsInv(Apply(m, Move(t, ok)))
  {
    var m' := Apply(m, Move(t, ok));
    MoveKeepsOwn(m, t, ok);
    forall u | u in m.calls && u != t ensures Locks(m'.g, u, m.calls[u]) && Facts(m'.g, m.calls[u]) {
      MoveKeepsOther(m, t, ok, u);
    }
    MutexEffect(m.g, t, m.calls[t], ok);
  }

  lemma MoveKeepsPairs(m: Machine, t: int, ok: bool)
    requires Inv(m) && t in m.calls
    ensures PairsInv(Apply(m, Move(t, ok)))
  {
    var m' := Apply(m, Move(t, ok));
    forall u, v | u in m.calls && v in m.calls && u != v
      ensures PairFacts(m'.g, m'.calls[u], m'.calls[v])
    {
      if u == t {
        MoveKeepsOther(m, t, ok, v);
      } else if v == t {
        MoveKeepsOther(m, t, ok, u);
      } else {
        BystandersPair(m, t, ok, u, v);
      }
    }
  }

  // The subscription that is about to be installed for an instance that is no
  // longer in `running` has a call that will cancel it.
  lemma InstallKeeps(m: Machine, t: int, ok: bool, u: int)
    requires Inv(m) && t in m.calls
    requires
      var m' := Apply(m, Move(t, ok));
      u in m'.calls && m'.calls[u].pc.SubInstall? && m'.g.s.running != At(m'.calls[u].rs)
    ensures exists v :: Payer(Apply(m, Move(t, ok)), v, Cancel)
  {
    var m' := Apply(m, Move(t, ok));
    var c := m.calls[t];
    if Unsettled(m'.calls[t]) {
      assert Payer(m', t, Cancel);
    } else {
      InstallOwn(m.g, t, c, ok);
      assert Locks(m.g, u, m.calls[u]);
      InstallOther(m.g, t, c, ok, u, m.calls[u]);
      var v :| Payer(m, v, Cancel);
      assert v != t && Payer(m', v, Cancel);
    }
  }

  lemma MoveKeepsDuties(m: Machine, t: int, ok: bool)
    requires Inv(m) && t in m.calls
    ensures DutiesInv(Apply(m, Move(t, ok)))
  {
    var m' := Apply(m, Move(t, ok));
    forall d | Owed(m'.g, d) ensures exists u :: Payer(m', u, d) {
      PayerAfter(m, t, ok, d);
    }
    forall u | u in m'.calls && m'.calls[u].pc.SubInstall? && m'.g.s.running != At(m'.calls[u].rs)
      ensures exists v :: Payer(m', v, Cancel)
    {
      InstallKeeps(m, t, ok, u);
    }
  }

  // Every event keeps the invariant.
  lemma ApplyKeeps(m: Machine, e: Event)
    requires Inv(m)
    ensures Inv(Apply(m, e))
  {
    match e
    case Enter(t, kind) =>
      if t !in m.calls {
        EnterKeepsCalls(m, t, kind);
        EnterKeepsPairs(m, t, kind);
        EnterKeepsDuties(m, t, kind);
      }
    case Move(t, ok) =>
      if t in m.calls {
        MoveKeepsCalls(m, t, ok);
        MoveKeepsPairs(m, t, ok);
        MoveKeepsDuties(m, t, ok);
      }
  }

  lemma RunKeeps(m: Machine, schedule: seq<Event>)
    requires Inv(m)
    ensures Inv(Run(m, schedule))
    decreases |schedule|
  {
    if schedule != [] {
      ApplyKeeps(m, schedule[0]);
      RunKeeps(Apply(m, schedule[0]), schedule[1..]);
    }
  }

  lemma ExecInv(schedule: seq<Event>)
    ensures Inv(Exec(schedule))
  {
    RunKeeps(INIT, schedule);
  }
}
