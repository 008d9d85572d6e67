// What a restart for health works with. The watchdog reads `running` and, later, the
// stored rule-set proxy: two reads with any number of steps between them. Then it
// calls StartWithContent like anybody else.
module LifecycleRestart {
  import opened Lifecycle
  import opened LifecycleInvariants
  import opened LifecycleSafety
  import opened LifecycleTheorems
  import opened LifecycleRaces

  // A start has published its instance and has yet to store its rule-set proxy.
  predicate Finishing(m: Machine) {
    exists t | t in m.calls :: HasPublished(m.calls[t])
  }

  predicate StoresProxy(m: Machine, e: Event) {
    e.Move? && e.call in m.calls && m.calls[e.call].pc.StoreProxy?
  }

  // How many proxies are stored in the course of a schedule.
  function Stores(m: Machine, schedule: seq<Event>): nat
    decreases |schedule|
  {
    if schedule == [] then 0
    else (if StoresProxy(m, schedule[0]) then 1 else 0) + Stores(Apply(m, schedule[0]), schedule[1..])
  }

  // No call stores the proxy of this ticket any more.
  ghost predicate Spent(m: Machine, ticket: int) {
    && ticket <= m.g.s.startSeq
    && forall t | t in m.calls && (Waiting(m.calls[t]) || Acting(m.calls[t])) :: m.calls[t].mySeq != ticket
  }

  // A call has yet to store it.
  predicate Unstored(m: Machine, t: int, ticket: int) {
    t in m.calls && HasPublished(m.calls[t]) && m.calls[t].mySeq == ticket
  }

  // The proxy of this ticket, when `n` proxies have been stored since its start was
  // about to store it: not stored, stored last, or replaced.
  ghost predicate Stage(m: Machine, ticket: int, n: nat) {
    && (m.g.s.lastProxy == At(ticket) <==> n == 1)
    && (if n == 0 then exists t :: Unstored(m, t, ticket) else Spent(m, ticket))
  }

  lemma TicketEffect(g: Shared, t: int, c: Call, ok: bool)
    requires Locks(g, t, c)
    ensures
      var o := Advance(g, t, c, ok);
      && g.s.startSeq <= o.g.s.startSeq
      && (Waiting(o.c) || Acting(o.c) ==>
            || (c.pc.TakeTicket? && o.c.mySeq == g.s.startSeq + 1)
            || ((Waiting(c) || Acting(c)) && o.c.mySeq == c.mySeq))
  {
  }

  lemma ProxyEffect(g: Shared, t: int, c: Call, ok: bool)
    ensures
      var o := Advance(g, t, c, ok);
      && o.g.s.lastProxy == (if c.pc.StoreProxy? then At(c.mySeq) else g.s.lastProxy)
      && (c.pc.StoreProxy? ==> !Waiting(o.c) && !Acting(o.c))
      && (HasPublished(c) && !c.pc.StoreProxy? ==> HasPublished(o.c) && o.c.mySeq == c.mySeq)
  {
  }

  lemma SpentStays(m: Machine, e: Event, ticket: int)
    requires Inv(m) && Spent(m, ticket)
    ensures Spent(Apply(m, e), ticket)
  {
    if e.Move? && e.call in m.calls {
      assert Locks(m.g, e.call, m.calls[e.call]);
      TicketEffect(m.g, e.call, m.calls[e.call], e.ok);
    }
  }

  // Who stores the proxy of a ticket spends it.
  lemma StoringSpends(m: Machine, t: int, ok: bool)
    requires Inv(m) && t in m.calls && m.calls[t].pc.StoreProxy?
    ensures Spent(Apply(m, Move(t, ok)), m.calls[t].mySeq)
    ensures Apply(m, Move(t, ok)).g.s.lastProxy == At(m.calls[t].mySeq)
  {
    var c, m' := m.calls[t], Apply(m, Move(t, ok));
    assert Locks(m.g, t, c) && Facts(m.g, c);
    forall u | u in m'.calls && (Waiting(m'.calls[u]) || Acting(m'.calls[u])) ensures m'.calls[u].mySeq != c.mySeq {
      assert u != t && Locks(m.g, u, m.calls[u]) && Facts(m.g, m.calls[u]);
    }
  }

  // The only call that can store a proxy while one is outstanding is the one that has
  // to.
  lemma OutstandingIsAlone(m: Machine, t: int, u: int, ticket: int)
    requires Inv(m) && Unstored(m, u, ticket) && t in m.calls && m.calls[t].pc.StoreProxy?
    ensures t == u
  {
    assert Locks(m.g, t, m.calls[t]) && Locks(m.g, u, m.calls[u]);
  }

  lemma StageStep(m: Machine, e: Event, ticket: int, n: nat)
    requires Inv(m) && Stage(m, ticket, n)
    ensures Stage(Apply(m, e), ticket, n + if StoresProxy(m, e) then 1 else 0)
  {
    var m' := Apply(m, e);
    if n > 0 {
      SpentStays(m, e, ticket);
    }
    if e.Move? && e.call in m.calls {
      ProxyEffect(m.g, e.call, m.calls[e.call], e.ok);
    }
    if StoresProxy(m, e) {
      StoringSpends(m, e.call, e.ok);
      if n == 0 {
        var u :| Unstored(m, u, ticket);
        OutstandingIsAlone(m, e.call, u, ticket);
      }
    } else if n == 0 {
      var u :| Unstored(m, u, ticket);
      assert Unstored(m', u, ticket);
    }
  }

  lemma {:induction false} StageRun(m: Machine, schedule: seq<Event>, ticket: int, n: nat)
    requires Inv(m) && Stage(m, ticket, n)
    ensures Stage(Run(m, schedule), ticket, n + Stores(m, schedule))
    decreases |schedule|
  {
    if schedule != [] {
      ApplyKeeps(m, schedule[0]);
      StageStep(m, schedule[0], ticket, n);
      StageRun(Apply(m, schedule[0]), schedule[1..], ticket, n + if StoresProxy(m, schedule[0]) then 1 else 0);
    }
  }

  // The proxy stored last is spent.
  ghost predicate LastIsSpent(m: Machine) {
    m.g.s.lastProxy.At? ==> Spent(m, m.g.s.lastProxy.id)
  }

  lemma {:induction false} LastStaysSpent(m: Machine, schedule: seq<Event>)
    requires Inv(m) && LastIsSpent(m)
    ensures LastIsSpent(Run(m, schedule))
    decreases |schedule|
  {
    if schedule != [] {
      var e := schedule[0];
      ApplyKeeps(m, e);
      if StoresProxy(m, e) {
        StoringSpends(m, e.call, e.ok);
      } else {
        if m.g.s.lastProxy.At? {
          SpentStays(m, e, m.g.s.lastProxy.id);
        }
        if e.Move? && e.call in m.calls {
          ProxyEffect(m.g, e.call, m.calls[e.call], e.ok);
        }
      }
      LastStaysSpent(Apply(m, e), schedule[1..]);
    }
  }

  lemma PublishedHasStarter(m: Machine, i: int)
    requires Inv(m) && m.g.s.running == At(i)
    ensures i in m.g.b.starter
  {
    assert Alive(m.g, m.g.s.running) && EachInstance(m.g);
  }

  lemma FinishingTicket(g: Shared, t: int, c: Call, i: int)
    requires Locks(g, t, c) && Stored(g, c) && Built(g, c) && HasPublished(c) && g.s.running == At(i)
    ensures i in g.b.starter && c.mySeq == g.b.starter[i] && Acting(c)
  {
  }

  lemma FinishingIsUnstored(m: Machine, i: int)
    requires Inv(m) && LastIsSpent(m) && m.g.s.running == At(i) && i in m.g.b.starter && Finishing(m)
    ensures Stage(m, m.g.b.starter[i], 0)
  {
    var t :| t in m.calls && HasPublished(m.calls[t]);
    assert Locks(m.g, t, m.calls[t]) && Facts(m.g, m.calls[t]);
    FinishingTicket(m.g, t, m.calls[t], i);
    assert Unstored(m, t, m.g.b.starter[i]);
  }

  lemma FinishedIsStored(m: Machine, i: int)
    requires Inv(m) && m.g.s.running == At(i) && i in m.g.b.starter && !Finishing(m)
    ensures m.g.s.lastProxy == At(m.g.b.starter[i])
  {
    assert !Owed(m.g, Report);
  }

  // While an instance is published, its proxy is outstanding or the one stored last.
  lemma PublishedStage(schedule: seq<Event>, i: int)
    requires Exec(schedule).g.s.running == At(i)
    ensures i in Exec(schedule).g.b.starter
    ensures Stage(Exec(schedule), Exec(schedule).g.b.starter[i], if Finishing(Exec(schedule)) then 0 else 1)
  {
    var m := Exec(schedule);
    ExecInv(schedule);
    LastStaysSpent(INIT, schedule);
    PublishedHasStarter(m, i);
    if Finishing(m) {
      FinishingIsUnstored(m, i);
    } else {
      FinishedIsStored(m, i);
    }
  }

  // Whatever happens between the two reads, the instance and the proxy belong to the
  // same start exactly if as many proxies are stored between them as were outstanding
  // at the first: one if the start of the instance had not stored its own yet, or
  // else none.
  lemma RestartPairsExactly(before: seq<Event>, between: seq<Event>, i: int)
    requires Exec(before).g.s.running == At(i)
    ensures i in Exec(before).g.b.starter
    ensures
      Exec(before + between).g.s.lastProxy == At(Exec(before).g.b.starter[i])
      <==> Stores(Exec(before), between) == if Finishing(Exec(before)) then 1 else 0
  {
    var m := Exec(before);
    ExecInv(before);
    PublishedStage(before, i);
    StageRun(m, between, m.g.b.starter[i], if Finishing(m) then 0 else 1);
    RunAppend(INIT, before, between);
  }

  // ---------------------------------------------------------------------
  // After a stop
  // ---------------------------------------------------------------------

  // A start that is called when nothing is under way, such as one the watchdog decided
  // on before a stop, brings the service up.
  lemma StartComesUp(m: Machine, t: int)
    requires Inv(m) && Quiescent(m) && m.g.s.state == Initialized && t !in m.calls
    ensures exists more :: Run(m, more).g.s.state == Running
  {
    QuiescentOwesNothing(m);
    var m1 := Apply(m, Enter(t, CallStart));
    LeadsByEnter(m, t, CallStart);
    StartUninterrupted(m1, t);
    var m2 := With(m1, t, Outcome(Started(m1.g, t), BootedCall(m1.g).(pc := Done)));
    LeadsOn(m, m1, m2);
    var more :| Run(m, more) == m2;
    assert Run(m, more).g.s.state == Running;
  }

  // So a stop that has returned is overruled by a restart that comes later; only a
  // destroyed service stays down.
  lemma OnlyDestroyIsFinal(schedule: seq<Event>, t: int)
    requires Quiescent(Exec(schedule)) && t !in Exec(schedule).calls
    ensures (exists more :: Exec(schedule + more).g.s.state == Running) <==> Exec(schedule).g.s.state != Destroyed
  {
    var m := Exec(schedule);
    ExecInv(schedule);
    QuiescentService(schedule);
    if m.g.s.state == Initialized {
      StartComesUp(m, t);
      var more :| Run(m, more).g.s.state == Running;
      RunAppend(INIT, schedule, more);
      assert Exec(schedule + more).g.s.state == Running;
    } else if m.g.s.state == Running {
      assert schedule + [] == schedule;
      assert Exec(schedule + []).g.s.state == Running;
    } else {
      forall more ensures Exec(schedule + more).g.s.state != Running {
        DestroyedIsFinal(schedule, more);
      }
    }
  }
}
