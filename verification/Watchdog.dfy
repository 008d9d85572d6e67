// The health watchdog: a loop over clock ticks that probes the proxy and restarts
// the core after enough failures.
module Watchdog {
  import opened Wrappers

  // Durations in milliseconds, as configured.
  datatype HealthCheckConfig = HealthCheckConfig(interval: int, timeout: int, failThreshold: int, cooldown: int)

  // Durations in nanoseconds.
  datatype HealthConfig = HealthConfig(interval: int, timeout: int, failThreshold: int, cooldown: int)

  const MILLISECOND := 1_000_000
  const SECOND := 1000 * MILLISECOND
  const DEFAULTS := HealthConfig(60 * SECOND, 10 * SECOND, 3, 300 * SECOND)

  const TWO_TO_63: int := 0x8000_0000_0000_0000

  // The value a signed 64-bit word holds.
  function Wrap64(x: int): (r: int)
    ensures -TWO_TO_63 <= r < TWO_TO_63 && (r - x) % (2 * TWO_TO_63) == 0
  {
    (x + TWO_TO_63) % (2 * TWO_TO_63) - TWO_TO_63
  }

  // time.Duration(ms) * time.Millisecond
  function Milliseconds(ms: int): int {
    Wrap64(ms * MILLISECOND)
  }

  // The largest number of milliseconds a duration can hold, some 292 years.
  const MAX_MILLISECONDS := 9_223_372_036_854

  // A setting of this many milliseconds is a positive duration.
  predicate StaysPositive(ms: int) {
    0 < ms * MILLISECOND % (2 * TWO_TO_63) < TWO_TO_63
  }

  predicate AllPositive(c: HealthConfig) {
    c.interval > 0 && c.timeout > 0 && c.failThreshold > 0 && c.cooldown > 0
  }

  function Setting(ms: int, fallback: int): int {
    if ms > 0 then Milliseconds(ms) else fallback
  }

  // A setting keeps its value exactly up to MAX_MILLISECONDS. Beyond that it wraps,
  // and is positive exactly if the wrapped product is.
  lemma SettingExactly(ms: int)
    requires ms > 0
    ensures Milliseconds(ms) == ms * MILLISECOND <==> ms <= MAX_MILLISECONDS
    ensures Milliseconds(ms) > 0 <==> StaysPositive(ms)
    ensures ms <= MAX_MILLISECONDS ==> StaysPositive(ms)
  {
    assert MAX_MILLISECONDS * MILLISECOND < TWO_TO_63 <= (MAX_MILLISECONDS + 1) * MILLISECOND;
    WrapIs(ms * MILLISECOND);
  }

  lemma WrapIs(x: int)
    requires x > 0
    ensures Wrap64(x) == x <==> x < TWO_TO_63
    ensures Wrap64(x) > 0 <==> 0 < x % (2 * TWO_TO_63) < TWO_TO_63
    ensures x < TWO_TO_63 ==> x % (2 * TWO_TO_63) == x
  {
  }

  // One millisecond more is a negative interval, on which the ticker panics; 2^58
  // milliseconds are none at all.
  lemma LongIntervalsWrap()
    ensures Milliseconds(MAX_MILLISECONDS + 1) < 0
    ensures Milliseconds(0x400_0000_0000_0000) == 0
  {
    assert 0x400_0000_0000_0000 * MILLISECOND == 15625 * (2 * TWO_TO_63);
  }

  // Every setting is the given one, or the default if it is missing or not positive.
  // All of them end up positive exactly if no given one wraps to something that is not.
  method NormalizeHealthConfig(cfg: Option<HealthCheckConfig>) returns (c: HealthConfig)
    ensures cfg == None ==> c == HealthConfig(60_000_000_000, 10_000_000_000, 3, 300_000_000_000)
    ensures cfg.Some? ==>
      && c.interval == Setting(cfg.value.interval, 60_000_000_000)
      && c.timeout == Setting(cfg.value.timeout, 10_000_000_000)
      && c.failThreshold == (if cfg.value.failThreshold > 0 then cfg.value.failThreshold else 3)
      && c.cooldown == Setting(cfg.value.cooldown, 300_000_000_000)
    ensures AllPositive(c) <==>
      (cfg.Some? ==> forall ms | ms in [cfg.value.interval, cfg.value.timeout, cfg.value.cooldown] && ms > 0 ::
         StaysPositive(ms))
  {
    c := DEFAULTS;
    if cfg == None {
      return;
    }
    if cfg.value.interval > 0 {
      c := c.(interval := Milliseconds(cfg.value.interval));
      SettingExactly(cfg.value.interval);
    }
    if cfg.value.timeout > 0 {
      c := c.(timeout := Milliseconds(cfg.value.timeout));
      SettingExactly(cfg.value.timeout);
    }
    if cfg.value.failThreshold > 0 {
      c := c.(failThreshold := cfg.value.failThreshold);
    }
    if cfg.value.cooldown > 0 {
      c := c.(cooldown := Milliseconds(cfg.value.cooldown));
      SettingExactly(cfg.value.cooldown);
    }
    ghost var given := [cfg.value.interval, cfg.value.timeout, cfg.value.cooldown];
    assert given[0] in given && given[1] in given && given[2] in given;
  }

  // One turn of the loop: the time the tick carries, what a probe at that tick
  // reports, and when a restart at that tick begins and ends. The clock does not
  // run backwards.
  datatype Tick = Tick(now: int, healthy: bool, begin: int, end: int)

  predicate Clock(ticks: seq<Tick>) {
    forall t | t in ticks :: t.now <= t.begin <= t.end
  }

  // A restart, and how many probes had been made when it happened.
  datatype Restart = Restart(begin: int, end: int, after: nat)

  // The loop variables, and a log of the probes and the restarts.
  datatype Watch = Watch(fails: int, cooldownUntil: Option<int>, probes: seq<bool>, restarts: seq<Restart>)

  const FRESH := Watch(0, None, [], [])

  function OnTick(threshold: int, cooldown: int, w: Watch, t: Tick): Watch {
    if w.cooldownUntil.Some? && t.now < w.cooldownUntil.value then w
    else
      var probes := w.probes + [t.healthy];
      if t.healthy then w.(fails := 0, probes := probes)
      else if w.fails + 1 < threshold then w.(fails := w.fails + 1, probes := probes)
      else Watch(0, Some(t.end + cooldown), probes, w.restarts + [Restart(t.begin, t.end, |probes|)])
  }

  function After(threshold: int, cooldown: int, ticks: seq<Tick>): Watch {
    if ticks == [] then FRESH
    else OnTick(threshold, cooldown, After(threshold, cooldown, ticks[..|ticks| - 1]), ticks[|ticks| - 1])
  }

  method Run(threshold: int, cooldown: int, ticks: seq<Tick>)
    returns (fails: int, cooldownUntil: Option<int>, restarts: seq<Restart>)
    ensures
      var w := After(threshold, cooldown, ticks);
      fails == w.fails && cooldownUntil == w.cooldownUntil && restarts == w.restarts
  {
    fails, cooldownUntil, restarts := 0, None, [];
    var probes := 0;
    for i := 0 to |ticks|
      invariant
        var w := After(threshold, cooldown, ticks[..i]);
        fails == w.fails && cooldownUntil == w.cooldownUntil && restarts == w.restarts && probes == |w.probes|
    {
      assert ticks[..i + 1][..i] == ticks[..i];
      var tick := ticks[i];
      if cooldownUntil.Some? && tick.now < cooldownUntil.value {
        continue;
      }
      probes := probes + 1;
      if tick.healthy {
        fails := 0;
        continue;
      }
      fails := fails + 1;
      if fails >= threshold {
        restarts := restarts + [Restart(tick.begin, tick.end, probes)];
        fails := 0;
        cooldownUntil := Some(tick.end + cooldown);
      }
    }
    assert ticks[..|ticks|] == ticks;
  }

  // ---------------------------------------------------------------------
  // When it restarts
  // ---------------------------------------------------------------------

  // How many failures in a row the probes end with.
  function Streak(probes: seq<bool>): nat {
    if probes == [] || probes[|probes| - 1] then 0 else 1 + Streak(probes[..|probes| - 1])
  }

  function Failures(probes: seq<bool>): nat {
    if probes == [] then 0
    else Failures(probes[..|probes| - 1]) + (if probes[|probes| - 1] then 0 else 1)
  }

  predicate RestartsAfter(w: Watch, n: int) {
    exists r | r in w.restarts :: r.after == n
  }

  // The loop restarts after exactly those probes that make the current run of
  // failures a multiple of the threshold long.
  predicate Due(threshold: int, probes: seq<bool>, n: int)
    requires threshold > 0 && 0 <= n <= |probes|
  {
    Streak(probes[..n]) > 0 && Streak(probes[..n]) % threshold == 0
  }

  ghost predicate Exact(threshold: int, w: Watch)
    requires threshold > 0
  {
    && w.fails == Streak(w.probes) % threshold
    && (forall r | r in w.restarts :: r.after <= |w.probes|)
    && (forall n | 0 <= n <= |w.probes| :: RestartsAfter(w, n) <==> Due(threshold, w.probes, n))
  }

  lemma NextMod(x: int, m: int)
    requires 0 <= x && m > 0
    ensures (x + 1) % m == if x % m + 1 == m then 0 else x % m + 1
  {
    var q, r := x / m, x % m;
    assert x == q * m + r;
    if r + 1 == m {
      assert x + 1 == (q + 1) * m;
      ModIs(x + 1, m, q + 1, 0);
    } else {
      ModIs(x + 1, m, q, r + 1);
    }
  }

  lemma ModIs(x: int, m: int, q: int, r: int)
    requires m > 0 && x == q * m + r && 0 <= r < m
    ensures x % m == r
  {
    var d := x / m - q;
    assert d * m == r - x % m;
    assert -m < d * m < m;
    assert d <= 0 by {
      assert d >= 1 ==> d * m >= m;
    }
    assert d >= 0 by {
      assert d <= -1 ==> d * m <= -m;
    }
  }

  // What one more probe does to the streak.
  lemma NextStreak(threshold: int, probes: seq<bool>, healthy: bool)
    requires threshold > 0
    ensures
      var next, k := probes + [healthy], Streak(probes) % threshold;
      && Streak(next) == (if healthy then 0 else Streak(probes) + 1)
      && Streak(next) % threshold == (if healthy || k + 1 == threshold then 0 else k + 1)
  {
    assert (probes + [healthy])[..|probes|] == probes;
    if healthy {
      ModIs(0, threshold, 0, 0);
    } else {
      NextMod(Streak(probes), threshold);
    }
  }

  lemma EarlierDue(threshold: int, probes: seq<bool>, healthy: bool, n: int)
    requires threshold > 0 && 0 <= n <= |probes|
    ensures Due(threshold, probes + [healthy], n) == Due(threshold, probes, n)
  {
    assert (probes + [healthy])[..n] == probes[..n];
  }

  lemma ProbeCounts(threshold: int, cooldown: int, w: Watch, t: Tick)
    requires threshold > 0 && Exact(threshold, w) && !(w.cooldownUntil.Some? && t.now < w.cooldownUntil.value)
    ensures
      var w', probes := OnTick(threshold, cooldown, w, t), w.probes + [t.healthy];
      && w'.probes == probes && w'.fails == Streak(probes) % threshold
      && (w'.restarts == w.restarts || w'.restarts == w.restarts + [Restart(t.begin, t.end, |probes|)])
      && (w'.restarts != w.restarts <==> Due(threshold, probes, |probes|))
  {
    NextStreak(threshold, w.probes, t.healthy);
    var probes := w.probes + [t.healthy];
    assert probes[..|probes|] == probes;
    assert w.restarts + [Restart(t.begin, t.end, |probes|)] != w.restarts;
  }

  lemma ExactStep(threshold: int, cooldown: int, w: Watch, t: Tick)
    requires threshold > 0 && Exact(threshold, w)
    ensures Exact(threshold, OnTick(threshold, cooldown, w, t))
  {
    var w' := OnTick(threshold, cooldown, w, t);
    if !(w.cooldownUntil.Some? && t.now < w.cooldownUntil.value) {
      var probes := w.probes + [t.healthy];
      ProbeCounts(threshold, cooldown, w, t);
      forall n | 0 <= n <= |probes| ensures RestartsAfter(w', n) <==> Due(threshold, probes, n) {
        if n <= |w.probes| {
          EarlierDue(threshold, w.probes, t.healthy, n);
          assert RestartsAfter(w', n) <==> RestartsAfter(w, n);
        } else if w'.restarts != w.restarts {
          assert w'.restarts[|w.restarts|].after == n;
        }
      }
    }
  }

  lemma {:induction false} RestartsExactly(threshold: int, cooldown: int, ticks: seq<Tick>)
    requires threshold > 0
    ensures Exact(threshold, After(threshold, cooldown, ticks))
  {
    if ticks != [] {
      RestartsExactly(threshold, cooldown, ticks[..|ticks| - 1]);
      ExactStep(threshold, cooldown, After(threshold, cooldown, ticks[..|ticks| - 1]), ticks[|ticks| - 1]);
    }
  }

  // No failure counts towards two restarts.
  lemma {:induction false} FailuresPayForRestarts(threshold: int, cooldown: int, ticks: seq<Tick>)
    requires threshold > 0
    ensures
      var w := After(threshold, cooldown, ticks);
      0 <= w.fails < threshold && |w.restarts| * threshold + w.fails <= Failures(w.probes)
  {
    if ticks != [] {
      var w := After(threshold, cooldown, ticks[..|ticks| - 1]);
      FailuresPayForRestarts(threshold, cooldown, ticks[..|ticks| - 1]);
      assert (w.probes + [ticks[|ticks| - 1].healthy])[..|w.probes|] == w.probes;
      assert (|w.restarts| + 1) * threshold == |w.restarts| * threshold + threshold;
    }
  }

  // The last restart still keeps the loop from probing.
  predicate Cooling(cooldown: int, restarts: seq<Restart>, now: int) {
    restarts != [] && now < restarts[|restarts| - 1].end + cooldown
  }

  lemma {:induction false} CoolingIs(threshold: int, cooldown: int, ticks: seq<Tick>)
    ensures
      var w := After(threshold, cooldown, ticks);
      w.cooldownUntil
      == if w.restarts == [] then None else Some(w.restarts[|w.restarts| - 1].end + cooldown)
  {
    if ticks != [] {
      CoolingIs(threshold, cooldown, ticks[..|ticks| - 1]);
    }
  }

  // At every tick: nothing happens less than a cooldown after the end of the last restart;
  // otherwise there is a probe, and a restart exactly if it makes the run of failures a
  // multiple of the threshold.
  lemma EveryTick(threshold: int, cooldown: int, ticks: seq<Tick>, t: Tick)
    requires threshold > 0
    ensures
      var w, w' := After(threshold, cooldown, ticks), After(threshold, cooldown, ticks + [t]);
      if Cooling(cooldown, w.restarts, t.now) then w' == w
      else
        && w'.probes == w.probes + [t.healthy]
        && w'.restarts == w.restarts
           + if Due(threshold, w'.probes, |w'.probes|) then [Restart(t.begin, t.end, |w'.probes|)] else []
  {
    var w := After(threshold, cooldown, ticks);
    assert (ticks + [t])[..|ticks|] == ticks;
    CoolingIs(threshold, cooldown, ticks);
    RestartsExactly(threshold, cooldown, ticks);
    if !Cooling(cooldown, w.restarts, t.now) {
      ProbeCounts(threshold, cooldown, w, t);
      assert w.restarts + [] == w.restarts;
    }
  }

  lemma StreakMeansFailures(probes: seq<bool>, j: int)
    requires |probes| - Streak(probes) <= j < |probes|
    ensures 0 <= j && !probes[j]
  {
    StreakBound(probes);
    if j < |probes| - 1 {
      StreakMeansFailures(probes[..|probes| - 1], j);
    }
  }

  lemma StreakBound(probes: seq<bool>)
    ensures Streak(probes) <= |probes|
  {
  }

  lemma RestartIsDue(threshold: int, w: Watch, n: int)
    requires threshold > 0 && Exact(threshold, w) && RestartsAfter(w, n)
    ensures 0 <= n <= |w.probes| && Due(threshold, w.probes, n)
  {
  }

  lemma DueMeansFailures(threshold: int, probes: seq<bool>, n: int, j: int)
    requires threshold > 0 && 0 <= n <= |probes| && Due(threshold, probes, n) && n - threshold <= j < n
    ensures 0 <= j && !probes[j]
  {
    var before := probes[..n];
    assert Streak(before) >= threshold;
    StreakMeansFailures(before, j);
  }

  // A restart comes after `threshold` failed probes with no success among them.
  lemma RestartNeedsFailures(threshold: int, cooldown: int, ticks: seq<Tick>, r: Restart, j: int)
    requires threshold > 0 && r in After(threshold, cooldown, ticks).restarts
    requires r.after - threshold <= j < r.after
    ensures 0 <= j < |After(threshold, cooldown, ticks).probes| && !After(threshold, cooldown, ticks).probes[j]
  {
    var w := After(threshold, cooldown, ticks);
    RestartsExactly(threshold, cooldown, ticks);
    assert RestartsAfter(w, r.after);
    RestartIsDue(threshold, w, r.after);
    DueMeansFailures(threshold, w.probes, r.after, j);
  }

  // The next restart begins at least `cooldown` after the previous one has ended.
  ghost predicate Spaced(cooldown: int, w: Watch) {
    && (w.restarts == [] <==> w.cooldownUntil == None)
    && (w.restarts != [] ==>
          w.cooldownUntil == Some(w.restarts[|w.restarts| - 1].end + cooldown))
    && (forall k | 0 < k < |w.restarts| :: w.restarts[k].begin >= w.restarts[k - 1].end + cooldown)
  }

  lemma {:induction false} RestartsAreSpaced(threshold: int, cooldown: int, ticks: seq<Tick>)
    requires Clock(ticks)
    ensures Spaced(cooldown, After(threshold, cooldown, ticks))
  {
    if ticks != [] {
      var w := After(threshold, cooldown, ticks[..|ticks| - 1]);
      RestartsAreSpaced(threshold, cooldown, ticks[..|ticks| - 1]);
      assert ticks[|ticks| - 1] in ticks;
    }
  }
}
