// The lifecycle of the sing-box instance owned by core.Service, after a
// successful Init: every atomic operation and every lock operation of
// StartWithContent, Stop and Destroy is one step, and any number of calls
// interleave. A schedule is a sequence of events; an event whose call cannot
// move (it waits for a lock, or it is finished) leaves the machine as it is, so
// every sequence of events is a run.
module Lifecycle {

  datatype State = Initialized | Starting | Running | Destroyed

  // A reference: an instance, a call or a ticket, each known by its number.
  datatype Ref = Nil | At(id: int)

  datatype Kind = CallStart | CallStop | CallDestroy

  // The next step of a call. StartWithContent calls Stop while it holds startMu,
  // and Destroy has the same tail as Stop, so the three share the stop steps.
  datatype Pc =
    // StartWithContent, up to its call of Stop
    | TakeTicket | LockStart | CheckTicket
    // Stop and Destroy
    | LoadState | LeaveState | TakeInstance | LockHooks | CancelHooks | UnlockHooks
    | StopQueries | CloseInstance
    // startWithJSON
    | EnterStarting | Build | Rollback | Publish | EnterRunning
    | Reclaim | StopReclaimed | CloseReclaimed
    // subscribeHooks
    | SubLock | SubCancelOld | SubCheck | SubInstall | SubManagers | SubUnlock
    // the rest of StartWithContent
    | StoreProxy | UnlockStart
    | Done

  // A call and its local variables.
  datatype Call = Call(
    kind: Kind,
    pc: Pc,
    mySeq: int,           // the ticket of a start
    st: State,            // the state a stop has loaded
    prev: Ref,            // the instance a Swap(nil) has returned
    rs: int)              // the instance a start has built

  // The fields of Service.
  datatype Service = Service(
    state: State,
    running: Ref,
    startSeq: int,
    startMu: Ref,         // the call that holds the mutex
    hooksMu: Ref,
    subCancel: Ref,       // the instance whose subscription is installed
    lastProxy: Ref)       // the ticket whose rule-set proxy was stored last

  // The instances, numbered in the order in which they were built.
  datatype Instances = Instances(
    built: int,
    starter: map<int, int>,    // instance -> ticket of the start that built it
    subscribed: set<int>,      // instances whose subscription is not cancelled
    quiet: set<int>,           // instances whose stopCtx is cancelled
    closes: multiset<int>)     // calls of Close, per instance

  // What happened so far.
  datatype History = History(
    lost: set<int>,            // overwritten in `running` before anybody took them
    taken: set<int>,           // in `running` when a Stop or Destroy took the state
    unmanaged: set<int>,       // no manager to subscribe to
    touched: int,              // last ticket that passed the ticket check
    failed: set<int>,          // tickets whose start rolled back
    external: bool)            // some Stop or Destroy was called

  datatype Shared = Shared(s: Service, b: Instances, h: History)

  datatype Machine = Machine(g: Shared, calls: map<int, Call>)

  // `ok` resolves what the model does not know: whether the instance starts,
  // and whether it registers any manager to subscribe to.
  datatype Event = Enter(call: int, kind: Kind) | Move(call: int, ok: bool)

  const INIT := Machine(
    Shared(Service(Initialized, Nil, 0, Nil, Nil, Nil, Nil),
           Instances(0, map[], {}, {}, multiset{}),
           History({}, {}, {}, 0, {}, false)),
    map[])

  function Entry(kind: Kind): Call {
    Call(kind, if kind.CallStart? then TakeTicket else LoadState, 0, Initialized, Nil, 0)
  }

  function Singleton(r: Ref): set<int> {
    if r.Nil? then {} else {r.id}
  }

  // Between the moment a stop has changed the state and the moment it has
  // cancelled the subscription.
  predicate Unsettled(c: Call) {
    c.pc.TakeInstance? || c.pc.LockHooks? || c.pc.CancelHooks?
  }

  // Some call has changed the state and not yet taken what is in `running`.
  predicate Taking(m: Machine) {
    exists t | t in m.calls :: m.calls[t].pc.TakeInstance?
  }

  // Some call has taken what was in `running` and waits to cancel the subscription.
  predicate Cancelling(m: Machine) {
    exists t | t in m.calls :: m.calls[t].pc.LockHooks?
  }

  // Where a call continues after its stop sequence.
  function AfterStop(kind: Kind): Pc {
    if kind.CallStart? then EnterStarting else Done
  }

  datatype Outcome = Outcome(g: Shared, c: Call)

  function Goto(g: Shared, c: Call, pc: Pc): Outcome {
    Outcome(g, c.(pc := pc))
  }

  // StartWithContent, before its call of Stop and after startWithJSON.
  function TicketStep(g: Shared, t: int, c: Call): Outcome {
    var s := g.s;
    match c.pc
    case TakeTicket =>
      Outcome(g.(s := s.(startSeq := s.startSeq + 1)), c.(pc := LockStart, mySeq := s.startSeq + 1))
    case LockStart =>
      if s.startMu.At? then Outcome(g, c) else Goto(g.(s := s.(startMu := At(t))), c, CheckTicket)
    case CheckTicket =>
      if s.startSeq != c.mySeq then Goto(g, c, UnlockStart)
      else Goto(g.(h := g.h.(touched := c.mySeq)), c, LoadState)
    case StoreProxy =>
      Goto(g.(s := s.(lastProxy := At(c.mySeq))), c, UnlockStart)
    case UnlockStart =>
      Goto(g.(s := s.(startMu := Nil)), c, Done)
    case _ => Outcome(g, c)
  }

  // Stop and Destroy, and the Stop that StartWithContent calls.
  function StopStep(g: Shared, t: int, c: Call): Outcome {
    var s := g.s;
    match c.pc
    case LoadState =>
      var nothingToStop := if c.kind.CallDestroy? then s.state == Destroyed
                           else s.state != Running && s.state != Starting;
      if nothingToStop then Goto(g, c, AfterStop(c.kind))
      else Outcome(g, c.(pc := LeaveState, st := s.state))
    case LeaveState =>
      if s.state != c.st then Goto(g, c, LoadState)
      else
        Goto(g.(s := s.(state := if c.kind.CallDestroy? then Destroyed else Initialized),
                h := g.h.(taken := g.h.taken + Singleton(s.running))),
             c, TakeInstance)
    case TakeInstance =>
      Outcome(g.(s := s.(running := Nil)), c.(pc := LockHooks, prev := s.running))
    case LockHooks =>
      if s.hooksMu.At? then Outcome(g, c) else Goto(g.(s := s.(hooksMu := At(t))), c, CancelHooks)
    case CancelHooks =>
      Goto(CancelSubscription(g), c, UnlockHooks)
    case UnlockHooks =>
      Goto(g.(s := s.(hooksMu := Nil)), c, if c.prev.At? then StopQueries else AfterStop(c.kind))
    case StopQueries =>
      Goto(Silence(g, c.prev), c, CloseInstance)
    case CloseInstance =>
      Goto(Close(g, c.prev), c, AfterStop(c.kind))
    case _ => Outcome(g, c)
  }

  // cancelHooksLocked
  function CancelSubscription(g: Shared): Shared {
    g.(s := g.s.(subCancel := Nil),
       b := g.b.(subscribed := g.b.subscribed - Singleton(g.s.subCancel)))
  }

  // The two halves of runningState.close.
  function Silence(g: Shared, r: Ref): Shared {
    g.(b := g.b.(quiet := g.b.quiet + Singleton(r)))
  }

  function Close(g: Shared, r: Ref): Shared {
    g.(b := g.b.(closes := g.b.closes + multiset(Singleton(r))))
  }

  // startWithJSON.
  function BootStep(g: Shared, c: Call, ok: bool): Outcome {
    var s := g.s;
    match c.pc
    case EnterStarting =>
      if s.state != Initialized then Goto(g, c, UnlockStart)
      else Goto(g.(s := s.(state := Starting)), c, Build)
    case Build =>
      if !ok then Goto(g, c, Rollback)
      else Outcome(g.(b := g.b.(built := g.b.built + 1, starter := g.b.starter[g.b.built := c.mySeq])),
                   c.(pc := Publish, rs := g.b.built))
    case Rollback =>
      Goto(g.(s := s.(state := if s.state == Starting then Initialized else s.state),
              h := g.h.(failed := g.h.failed + {c.mySeq})),
           c, UnlockStart)
    case Publish =>
      Goto(g.(s := s.(running := At(c.rs)),
              h := g.h.(lost := g.h.lost + Singleton(s.running))),
           c, EnterRunning)
    case EnterRunning =>
      if s.state != Starting then Goto(g, c, Reclaim)
      else Goto(g.(s := s.(state := Running)), c, SubLock)
    case Reclaim =>
      Outcome(g.(s := s.(running := Nil)),
              c.(pc := if s.running.At? then StopReclaimed else StoreProxy, prev := s.running))
    case StopReclaimed =>
      Goto(Silence(g, c.prev), c, CloseReclaimed)
    case CloseReclaimed =>
      Goto(Close(g, c.prev), c, StoreProxy)
    case _ => Outcome(g, c)
  }

  // subscribeHooks.
  function HookStep(g: Shared, t: int, c: Call, ok: bool): Outcome {
    var s := g.s;
    match c.pc
    case SubLock =>
      if s.hooksMu.At? then Outcome(g, c) else Goto(g.(s := s.(hooksMu := At(t))), c, SubCancelOld)
    case SubCancelOld =>
      Goto(CancelSubscription(g), c, SubCheck)
    case SubCheck =>
      Goto(g, c, if s.running == At(c.rs) then SubInstall else SubUnlock)
    case SubInstall =>
      Goto(g.(s := s.(subCancel := At(c.rs)), b := g.b.(subscribed := g.b.subscribed + {c.rs})),
           c, SubManagers)
    case SubManagers =>
      if ok then Goto(g, c, SubUnlock)
      else
        Goto(CancelSubscription(g).(h := g.h.(unmanaged := g.h.unmanaged + {c.rs})), c, SubUnlock)
    case SubUnlock =>
      Goto(g.(s := s.(hooksMu := Nil)), c, StoreProxy)
    case _ => Outcome(g, c)
  }

  predicate StopSteps(c: Call) {
    || c.pc.LoadState? || c.pc.LeaveState? || c.pc.TakeInstance? || c.pc.LockHooks?
    || c.pc.CancelHooks? || c.pc.UnlockHooks? || c.pc.StopQueries? || c.pc.CloseInstance?
  }

  predicate BootSteps(c: Call) {
    || c.pc.EnterStarting? || c.pc.Build? || c.pc.Rollback? || c.pc.Publish? || c.pc.EnterRunning?
    || c.pc.Reclaim? || c.pc.StopReclaimed? || c.pc.CloseReclaimed?
  }

  predicate HookSteps(c: Call) {
    || c.pc.SubLock? || c.pc.SubCancelOld? || c.pc.SubCheck? || c.pc.SubInstall?
    || c.pc.SubManagers? || c.pc.SubUnlock?
  }

  // One step of call `t`.
  function Advance(g: Shared, t: int, c: Call, ok: bool): Outcome {
    if StopSteps(c) then StopStep(g, t, c)
    else if BootSteps(c) then BootStep(g, c, ok)
    else if HookSteps(c) then HookStep(g, t, c, ok)
    else TicketStep(g, t, c)
  }

  function Apply(m: Machine, e: Event): Machine {
    match e
    case Enter(t, kind) =>
      if t in m.calls then m
      else Machine(m.g.(h := m.g.h.(external := m.g.h.external || !kind.CallStart?)),
                   m.calls[t := Entry(kind)])
    case Move(t, ok) =>
      if t !in m.calls then m
      else
        var o := Advance(m.g, t, m.calls[t], ok);
        Machine(o.g, m.calls[t := o.c])
  }

  // The machine after a schedule that starts in `m`.
  function Run(m: Machine, schedule: seq<Event>): Machine
    decreases |schedule|
  {
    if schedule == [] then m else Run(Apply(m, schedule[0]), schedule[1..])
  }

  // The machine after a schedule that starts where a successful Init ends.
  function Exec(schedule: seq<Event>): Machine {
    Run(INIT, schedule)
  }

  predicate Quiescent(m: Machine) {
    forall t | t in m.calls :: m.calls[t].pc.Done?
  }
}
