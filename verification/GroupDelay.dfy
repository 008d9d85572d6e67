// Testing the delay of a whole group: one probe a member, at most sixteen at a
// time, under one deadline for all. Every schedule of the loop, the probes and the
// deadline is a run.
module GroupDelay {
  import opened Wrappers

  const CONCURRENCY := 16

  // What became of the members the loop has passed. A probe holds a place in the
  // semaphore until it has written its result, and is waited for until it finishes.
  datatype Worker =
    | Skipped
    | Testing
    | Measured(delay: int)
    | Stored(delay: int)
    | Released(delay: int)
    | Gone(delay: int)

  datatype Loop = Choosing | Acquired | GivingUp | Waiting | Returned

  datatype State = State(
    tags: seq<string>,
    loop: Loop,
    workers: seq<Worker>,          // of the first members
    slots: int,                    // places taken in the semaphore
    pending: int,                  // the wait group
    expired: bool,                 // timeout, or the service stopped
    results: map<string, int>)

  datatype Event =
    | Expire
    | Take
    | Launch
    | GiveUp
    | Skip
    | Wait
    | Return
    | Measure(worker: int, delay: int)   // -1 if the probe fails
    | Store(worker: int)
    | Release(worker: int)
    | Finish(worker: int)

  function Start(tags: seq<string>): State {
    State(tags, Choosing, [], 0, 0, false, map[])
  }

  predicate More(s: State) {
    |s.workers| < |s.tags|
  }

  predicate Has(s: State, j: int) {
    0 <= j < |s.workers| && j < |s.tags|
  }

  predicate Enabled(s: State, e: Event) {
    match e
    case Expire => !s.expired
    case Take => s.loop == Choosing && More(s) && s.slots < CONCURRENCY
    case Launch => s.loop == Acquired && More(s)
    case GiveUp => s.loop == Choosing && More(s) && s.expired
    case Skip => s.loop == GivingUp && More(s)
    case Wait => s.loop == Choosing && !More(s)
    case Return => s.loop == Waiting && s.pending == 0
    case Measure(j, d) => Has(s, j) && s.workers[j] == Testing && d >= -1
    case Store(j) => Has(s, j) && s.workers[j].Measured?
    case Release(j) => Has(s, j) && s.workers[j].Stored?
    case Finish(j) => Has(s, j) && s.workers[j].Released?
  }

  function Step(s: State, e: Event): State {
    if !Enabled(s, e) then s
    else
      match e
      case Expire => s.(expired := true)
      case Take => s.(loop := Acquired, slots := s.slots + 1)
      case Launch => s.(loop := Choosing, workers := s.workers + [Testing], pending := s.pending + 1)
      case GiveUp => s.(loop := GivingUp)
      case Skip =>
        s.(loop := Choosing, workers := s.workers + [Skipped], results := s.results[s.tags[|s.workers|] := -1])
      case Wait => s.(loop := Waiting)
      case Return => s.(loop := Returned)
      case Measure(j, d) => s.(workers := s.workers[j := Measured(d)])
      case Store(j) =>
        s.(workers := s.workers[j := Stored(s.workers[j].delay)],
           results := s.results[s.tags[j] := s.workers[j].delay])
      case Release(j) => s.(workers := s.workers[j := Released(s.workers[j].delay)], slots := s.slots - 1)
      case Finish(j) => s.(workers := s.workers[j := Gone(s.workers[j].delay)], pending := s.pending - 1)
  }

  function Run(s: State, events: seq<Event>): State
    decreases |events|
  {
    if events == [] then s else Run(Step(s, events[0]), events[1..])
  }

  // ---------------------------------------------------------------------
  // Counting
  // ---------------------------------------------------------------------

  datatype Count = Probes | Places | Awaited | Effort

  function Weight(c: Count, w: Worker): int {
    match c
    case Probes => if w.Testing? then 1 else 0
    case Places => if w.Testing? || w.Measured? || w.Stored? then 1 else 0
    case Awaited => if w.Skipped? || w.Gone? then 0 else 1
    case Effort =>
      match w
      case Testing => 4
      case Measured(_) => 3
      case Stored(_) => 2
      case Released(_) => 1
      case _ => 0
  }

  function Sum(c: Count, ws: seq<Worker>): int {
    if ws == [] then 0 else Sum(c, ws[..|ws| - 1]) + Weight(c, ws[|ws| - 1])
  }

  lemma SumAppend(c: Count, ws: seq<Worker>, w: Worker)
    ensures Sum(c, ws + [w]) == Sum(c, ws) + Weight(c, w)
  {
    assert (ws + [w])[..|ws|] == ws;
  }

  lemma {:induction false} SumUpdate(c: Count, ws: seq<Worker>, j: int, w: Worker)
    requires 0 <= j < |ws|
    ensures Sum(c, ws[j := w]) == Sum(c, ws) - Weight(c, ws[j]) + Weight(c, w)
  {
    var n := |ws| - 1;
    if j == n {
      assert ws[j := w][..n] == ws[..n];
    } else {
      assert ws[j := w][..n] == ws[..n][j := w];
      SumUpdate(c, ws[..n], j, w);
    }
  }

  lemma {:induction false} SumBounds(ws: seq<Worker>)
    ensures 0 <= Sum(Probes, ws) <= Sum(Places, ws) <= Sum(Awaited, ws) && 0 <= Sum(Effort, ws)
  {
    if ws != [] {
      SumBounds(ws[..|ws| - 1]);
    }
  }

  lemma {:induction false} SomeWeight(c: Count, ws: seq<Worker>)
    requires Sum(c, ws) > 0
    ensures exists j | 0 <= j < |ws| :: Weight(c, ws[j]) > 0
  {
    var n := |ws| - 1;
    if Weight(c, ws[n]) <= 0 {
      SomeWeight(c, ws[..n]);
      var j :| 0 <= j < n && Weight(c, ws[..n][j]) > 0;
      assert Weight(c, ws[j]) > 0;
    }
  }

  lemma {:induction false} NoWeight(c: Count, ws: seq<Worker>, j: int)
    requires Sum(c, ws) == 0 && 0 <= j < |ws|
    ensures Weight(c, ws[j]) == 0
  {
    var n := |ws| - 1;
    NonNegative(c, ws[..n]);
    if j < n {
      NoWeight(c, ws[..n], j);
      assert ws[..n][j] == ws[j];
    }
  }

  lemma {:induction false} NonNegative(c: Count, ws: seq<Worker>)
    ensures Sum(c, ws) >= 0
  {
    if ws != [] {
      NonNegative(c, ws[..|ws| - 1]);
    }
  }

  // ---------------------------------------------------------------------
  // What every run keeps
  // ---------------------------------------------------------------------

  // The result is in the map.
  predicate Recorded(w: Worker) {
    w.Skipped? || w.Stored? || w.Released? || w.Gone?
  }

  function Outcome(w: Worker): int
    requires Recorded(w)
  {
    if w.Skipped? then -1 else w.delay
  }

  predicate CountsMatch(s: State) {
    && |s.workers| <= |s.tags|
    && s.slots == Sum(Places, s.workers) + (if s.loop == Acquired then 1 else 0)
    && s.slots <= CONCURRENCY
    && s.pending == Sum(Awaited, s.workers)
    && (s.loop == Acquired || s.loop == GivingUp ==> More(s))
    && (s.loop == Waiting || s.loop == Returned ==> !More(s))
    && (s.loop == Returned ==> s.pending == 0)
  }

  // Some member with this tag has this result.
  predicate From(s: State, tag: string, delay: int)
    requires |s.workers| <= |s.tags|
  {
    exists j | 0 <= j < |s.workers| :: s.tags[j] == tag && Recorded(s.workers[j]) && Outcome(s.workers[j]) == delay
  }

  predicate ResultsMatch(s: State)
    requires |s.workers| <= |s.tags|
  {
    && (forall j | 0 <= j < |s.workers| && Recorded(s.workers[j]) :: s.tags[j] in s.results)
    && (forall tag | tag in s.results :: From(s, tag, s.results[tag]))
  }

  predicate Inv(s: State) {
    CountsMatch(s) && ResultsMatch(s)
  }

  lemma PassCounts(s: State, e: Event)
    requires CountsMatch(s) && Enabled(s, e) && (e == Launch || e == Skip)
    ensures CountsMatch(Step(s, e))
  {
    var w := if e == Launch then Testing else Skipped;
    SumAppend(Places, s.workers, w);
    SumAppend(Awaited, s.workers, w);
    assert Step(s, e).workers == s.workers + [w];
  }

  lemma LoopCounts(s: State, e: Event)
    requires CountsMatch(s) && Enabled(s, e)
    requires e == Expire || e == Take || e == GiveUp || e == Wait || e == Return
    ensures CountsMatch(Step(s, e))
  {
    assert Step(s, e).workers == s.workers;
  }

  lemma WorkerCounts(s: State, e: Event)
    requires CountsMatch(s) && Enabled(s, e) && (e.Measure? || e.Store? || e.Release? || e.Finish?)
    ensures CountsMatch(Step(s, e))
  {
    var s' := Step(s, e);
    MoveCounts(s.workers, e.worker, s'.workers[e.worker]);
    SumBounds(s'.workers);
  }

  lemma StepCounts(s: State, e: Event)
    requires CountsMatch(s)
    ensures CountsMatch(Step(s, e)) && Step(s, e).tags == s.tags
  {
    if Enabled(s, e) {
      if e.Measure? || e.Store? || e.Release? || e.Finish? {
        WorkerCounts(s, e);
      } else if e == Launch || e == Skip {
        PassCounts(s, e);
      } else {
        LoopCounts(s, e);
      }
    }
  }

  lemma MoveCounts(ws: seq<Worker>, j: int, w: Worker)
    requires 0 <= j < |ws|
    ensures Sum(Places, ws[j := w]) == Sum(Places, ws) - Weight(Places, ws[j]) + Weight(Places, w)
    ensures Sum(Awaited, ws[j := w]) == Sum(Awaited, ws) - Weight(Awaited, ws[j]) + Weight(Awaited, w)
  {
    SumUpdate(Places, ws, j, w);
    SumUpdate(Awaited, ws, j, w);
  }

  // Workers recorded before keep their outcome.
  predicate Grows(ws: seq<Worker>, ws': seq<Worker>) {
    && |ws| <= |ws'|
    && forall j | 0 <= j < |ws| && Recorded(ws[j]) :: Recorded(ws'[j]) && Outcome(ws'[j]) == Outcome(ws[j])
  }

  lemma FromStays(s: State, s': State, tag: string, delay: int)
    requires |s.workers| <= |s.tags| && |s'.workers| <= |s'.tags|
    requires From(s, tag, delay) && Grows(s.workers, s'.workers) && s'.tags == s.tags
    ensures From(s', tag, delay)
  {
    var j :| 0 <= j < |s.workers| && s.tags[j] == tag && Recorded(s.workers[j]) && Outcome(s.workers[j]) == delay;
    assert s'.tags[j] == tag && Recorded(s'.workers[j]) && Outcome(s'.workers[j]) == delay;
  }

  lemma StepGrows(s: State, e: Event)
    requires Enabled(s, e)
    ensures Grows(s.workers, Step(s, e).workers)
  {
  }

  lemma StepRecords(s: State, e: Event)
    requires Inv(s) && Enabled(s, e) && |Step(s, e).workers| <= |s.tags|
    ensures
      var s' := Step(s, e);
      forall j | 0 <= j < |s'.workers| && Recorded(s'.workers[j]) :: s'.tags[j] in s'.results
  {
  }

  lemma StepResults(s: State, e: Event)
    requires Inv(s) && Enabled(s, e)
    ensures Inv(Step(s, e))
  {
    var s' := Step(s, e);
    StepCounts(s, e);
    StepGrows(s, e);
    StepRecords(s, e);
    forall tag | tag in s'.results ensures From(s', tag, s'.results[tag]) {
      if e == Skip && tag == s.tags[|s.workers|] {
        assert Outcome(s'.workers[|s.workers|]) == -1;
      } else if e.Store? && tag == s.tags[e.worker] {
        assert Outcome(s'.workers[e.worker]) == s'.results[tag];
      } else {
        FromStays(s, s', tag, s.results[tag]);
      }
    }
  }

  lemma {:induction false} RunInv(s: State, events: seq<Event>)
    requires Inv(s)
    ensures Inv(Run(s, events)) && Run(s, events).tags == s.tags
    decreases |events|
  {
    if events != [] {
      StepCounts(s, events[0]);
      if Enabled(s, events[0]) {
        StepResults(s, events[0]);
      }
      RunInv(Step(s, events[0]), events[1..]);
    }
  }

  // ---------------------------------------------------------------------
  // Theorems
  // ---------------------------------------------------------------------

  // In every schedule at most sixteen probes are in flight.
  lemma ProbesAreBounded(tags: seq<string>, events: seq<Event>)
    ensures Sum(Probes, Run(Start(tags), events).workers) <= 16
  {
    RunInv(Start(tags), events);
    SumBounds(Run(Start(tags), events).workers);
  }

  // When the call returns, every probe is over and the results are those of the
  // group's members, no more and no less: each is the delay measured for a member
  // with that tag, or -1 if its probe failed or was never started.
  lemma ResultsAreComplete(tags: seq<string>, events: seq<Event>)
    ensures
      var s := Run(Start(tags), events);
      s.loop == Returned ==>
        && s.results.Keys == (set tag | tag in tags)
        && |s.workers| == |tags| && (forall j | 0 <= j < |tags| :: s.workers[j].Skipped? || s.workers[j].Gone?)
        && (forall tag | tag in tags :: exists j | 0 <= j < |tags| ::
              tags[j] == tag && s.results[tag] == Outcome(s.workers[j]))
  {
    var s := Run(Start(tags), events);
    RunInv(Start(tags), events);
    if s.loop == Returned {
      forall j | 0 <= j < |tags| ensures s.workers[j].Skipped? || s.workers[j].Gone? {
        NoWeight(Awaited, s.workers, j);
      }
      forall tag ensures tag in s.results <==> tag in tags {
        if tag in tags {
          var j :| 0 <= j < |tags| && tags[j] == tag;
          assert Recorded(s.workers[j]);
        }
        if tag in s.results {
          assert From(s, tag, s.results[tag]);
        }
      }
      forall tag | tag in tags
        ensures exists j | 0 <= j < |tags| :: tags[j] == tag && s.results[tag] == Outcome(s.workers[j])
      {
        assert From(s, tag, s.results[tag]);
      }
    }
  }

  // With distinct tags every member gets its own result.
  lemma ResultsAreOwn(tags: seq<string>, events: seq<Event>, j: int)
    requires forall i, k | 0 <= i < k < |tags| :: tags[i] != tags[k]
    requires Run(Start(tags), events).loop == Returned && 0 <= j < |tags|
    ensures
      var s := Run(Start(tags), events);
      && |s.workers| == |tags| && Recorded(s.workers[j])
      && tags[j] in s.results && s.results[tags[j]] == Outcome(s.workers[j])
  {
    ResultsAreComplete(tags, events);
    var s := Run(Start(tags), events);
    assert tags[j] in tags;
    var i :| 0 <= i < |tags| && tags[i] == tags[j] && s.results[tags[j]] == Outcome(s.workers[i]);
    assert i == j;
  }

  // What is left to do.
  function Work(s: State): int {
    Sum(Effort, s.workers) + 7 * (|s.tags| - |s.workers|)
    + match s.loop
      case Choosing => 2
      case Returned => 0
      case _ => 1
  }

  // Every step but the deadline brings the end closer, so every schedule is finite.
  lemma EveryStepCounts(s: State, e: Event)
    requires Enabled(s, e) && e != Expire
    ensures Work(Step(s, e)) < Work(s)
  {
    var s' := Step(s, e);
    match e {
      case Launch => SumAppend(Effort, s.workers, Testing);
      case Skip => SumAppend(Effort, s.workers, Skipped);
      case Measure(j, _) => SumUpdate(Effort, s.workers, j, s'.workers[j]);
      case Store(j) => SumUpdate(Effort, s.workers, j, s'.workers[j]);
      case Release(j) => SumUpdate(Effort, s.workers, j, s'.workers[j]);
      case Finish(j) => SumUpdate(Effort, s.workers, j, s'.workers[j]);
      case _ =>
    }
  }

  // How many steps of a schedule do something.
  function Taken(s: State, events: seq<Event>): int
    decreases |events|
  {
    if events == [] then 0
    else (if Enabled(s, events[0]) && events[0] != Expire then 1 else 0) + Taken(Step(s, events[0]), events[1..])
  }

  lemma {:induction false} TakenIsPaid(s: State, events: seq<Event>)
    requires Inv(s)
    ensures Taken(s, events) + Work(Run(s, events)) <= Work(s)
    decreases |events|
  {
    if events != [] {
      var e := events[0];
      if Enabled(s, e) {
        StepResults(s, e);
        if e != Expire {
          EveryStepCounts(s, e);
        }
      }
      TakenIsPaid(Step(s, e), events[1..]);
    }
  }

  // A call takes at most seven steps a member and two more, however it is scheduled.
  lemma SchedulesAreShort(tags: seq<string>, events: seq<Event>)
    ensures Taken(Start(tags), events) <= 7 * |tags| + 2
  {
    TakenIsPaid(Start(tags), events);
    RunInv(Start(tags), events);
    SumBounds(Run(Start(tags), events).workers);
  }

  // The next step of a worker that is not done.
  function NextOf(w: Worker, j: int): Event {
    match w
    case Measured(_) => Store(j)
    case Stored(_) => Release(j)
    case Released(_) => Finish(j)
    case _ => Measure(j, -1)
  }

  // Until the call returns something other than the deadline can happen: the loop
  // never waits for a place or for a probe that cannot come.
  lemma NeverStuck(tags: seq<string>, events: seq<Event>)
    ensures
      var s := Run(Start(tags), events);
      s.loop != Returned ==> exists e :: e != Expire && Enabled(s, e)
  {
    var s := Run(Start(tags), events);
    RunInv(Start(tags), events);
    if s.loop == Acquired {
      assert Enabled(s, Launch);
    } else if s.loop == GivingUp {
      assert Enabled(s, Skip);
    } else if s.loop == Choosing && More(s) && s.slots < CONCURRENCY {
      assert Enabled(s, Take);
    } else if s.loop == Choosing && !More(s) {
      assert Enabled(s, Wait);
    } else if s.loop == Waiting && s.pending == 0 {
      assert Enabled(s, Return);
    } else if s.loop != Returned {
      SumBounds(s.workers);
      SomeWeight(Awaited, s.workers);
      var j :| 0 <= j < |s.workers| && Weight(Awaited, s.workers[j]) > 0;
      assert Enabled(s, NextOf(s.workers[j], j));
    }
  }

  // ---------------------------------------------------------------------
  // Nothing is held back
  // ---------------------------------------------------------------------

  // Starting probes, one after the other.
  function Launches(n: nat): seq<Event> {
    if n == 0 then [] else Launches(n - 1) + [Take, Launch]
  }

  lemma {:induction false} RunTwo(s: State, events: seq<Event>, a: Event, b: Event)
    ensures Run(s, events + [a, b]) == Step(Step(Run(s, events), a), b)
    decreases |events|
  {
    if events == [] {
      assert events + [a, b] == [a, b] && [a, b][1..] == [b] && [b][1..] == [];
      assert Run(Step(Step(s, a), b), []) == Step(Step(s, a), b);
      assert Run(Step(s, a), [b]) == Run(Step(Step(s, a), b), [b][1..]);
    } else {
      assert (events + [a, b])[0] == events[0] && (events + [a, b])[1..] == events[1..] + [a, b];
      RunTwo(Step(s, events[0]), events[1..], a, b);
    }
  }

  // The loop has started n probes, and none has come to anything.
  predicate Launched(s: State, tags: seq<string>, n: nat) {
    && s.tags == tags && s.loop == Choosing && s.slots == n && |s.workers| == n
    && (forall j | 0 <= j < n :: s.workers[j] == Testing) && Sum(Probes, s.workers) == n
  }

  lemma LaunchOne(s: State, tags: seq<string>, n: nat)
    requires Launched(s, tags, n) && n < |tags| && n < 16
    ensures Launched(Step(Step(s, Take), Launch), tags, n + 1)
  {
    SumAppend(Probes, s.workers, Testing);
  }

  // Sixteen probes can be in flight at once, if there are so many members.
  lemma {:induction false} ProbesCanBeSixteen(tags: seq<string>, n: nat)
    requires n <= |tags| && n <= 16
    ensures Launched(Run(Start(tags), Launches(n)), tags, n)
  {
    if n > 0 {
      ProbesCanBeSixteen(tags, n - 1);
      RunTwo(Start(tags), Launches(n - 1), Take, Launch);
      LaunchOne(Run(Start(tags), Launches(n - 1)), tags, n - 1);
    }
  }

  ghost predicate SkipsWait(s: State) {
    && (s.loop == GivingUp ==> s.expired)
    && ((exists w | w in s.workers :: w.Skipped?) ==> s.expired)
  }

  // A member is passed over only after the deadline.
  lemma {:induction false} SkippedAfterDeadline(s: State, events: seq<Event>)
    requires SkipsWait(s)
    ensures SkipsWait(Run(s, events))
    decreases |events|
  {
    if events != [] {
      var s' := Step(s, events[0]);
      assert SkipsWait(s') by {
        if w :| w in s'.workers && w.Skipped? {
          var j :| 0 <= j < |s'.workers| && s'.workers[j] == w;
          assert j < |s.workers| && s.workers[j].Skipped? ==> s.workers[j] in s.workers;
        }
      }
      SkippedAfterDeadline(s', events[1..]);
    }
  }

  lemma NothingSkippedInTime(tags: seq<string>, events: seq<Event>)
    ensures
      var s := Run(Start(tags), events);
      !s.expired ==> forall j | 0 <= j < |s.workers| :: !s.workers[j].Skipped?
  {
    SkippedAfterDeadline(Start(tags), events);
    var s := Run(Start(tags), events);
    assert forall j | 0 <= j < |s.workers| :: s.workers[j] in s.workers;
  }

  // ---------------------------------------------------------------------
  // After the deadline
  // ---------------------------------------------------------------------

  // What the loop does next once the deadline has passed.
  function LateStep(s: State): Event {
    match s.loop
    case Acquired => Launch
    case GivingUp => Skip
    case _ => if More(s) then GiveUp else Wait
  }

  lemma LateStepCounts(s: State)
    requires Inv(s) && s.expired && s.loop != Waiting && s.loop != Returned
    ensures Enabled(s, LateStep(s)) && Inv(Step(s, LateStep(s))) && Step(s, LateStep(s)).expired
    ensures 0 <= Work(Step(s, LateStep(s))) < Work(s)
  {
    StepResults(s, LateStep(s));
    EveryStepCounts(s, LateStep(s));
    SumBounds(Step(s, LateStep(s)).workers);
  }

  // Once the deadline has passed the loop needs nobody else: it can always go through
  // the members that are left without waiting for a probe and without starting another,
  // but for the one it has taken a place for, however many places are taken.
  lemma {:induction false} DeadlineEndsLoop(s: State) returns (more: seq<Event>)
    requires Inv(s) && s.expired
    ensures forall e | e in more :: e in {Launch, GiveUp, Skip, Wait}
    ensures Run(s, more).loop == Waiting || Run(s, more).loop == Returned
    ensures s.loop != Acquired ==> Launch !in more
    decreases Work(s)
  {
    more := [];
    if s.loop != Waiting && s.loop != Returned {
      LateStepCounts(s);
      var rest := DeadlineEndsLoop(Step(s, LateStep(s)));
      more := [LateStep(s)] + rest;
      assert more[1..] == rest;
    }
  }

  // So it is in every schedule whose deadline has passed.
  lemma DeadlineCutsShort(tags: seq<string>, events: seq<Event>) returns (more: seq<Event>)
    requires Run(Start(tags), events).expired
    ensures forall e | e in more :: e in {Launch, GiveUp, Skip, Wait}
    ensures
      var s := Run(Run(Start(tags), events), more);
      s.loop == Waiting || s.loop == Returned
  {
    RunInv(Start(tags), events);
    more := DeadlineEndsLoop(Run(Start(tags), events));
  }
}
