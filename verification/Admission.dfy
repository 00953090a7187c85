/**
 The theory two limiters share: a ceiling per fixed one-second window, and a
 bounded memory of what was admitted. `ReceiveLimiter` and `ReplayGuard` in
 crates/mosschat-net/src/discovery.rs:340-381, 433-467 are one instance,
 `PongLimiter` in crates/mosschat-net/src/punch.rs:1207-1253 the other.
 Instants are nanoseconds.
 */
module Admission {
  import opened Common

  const SECOND := 1_000_000_000

  // ----- one fixed window -----

  datatype Window = Window(start: nat, used: nat)

  /** The window a packet at `now` falls in: the current one for its first second. */
  function Rolled(w: Window, now: nat): Window {
    if Since(now, w.start) >= SECOND then Window(now, 0) else w
  }

  function Counted(w: Window): Window {
    w.(used := w.used + 1)
  }

  // ----- a bounded memory -----

  datatype Memory<T> = Memory(seen: set<T>, order: seq<T>)

  /** The oldest entries go until the memory is back at its cap. */
  function Evicted<T>(m: Memory<T>, cap: nat): Memory<T>
    decreases |m.order|
  {
    if |m.order| <= cap then m else Evicted(Memory(m.seen - {m.order[0]}, m.order[1..]), cap)
  }

  function Remembered<T>(m: Memory<T>, cap: nat, x: T): Memory<T> {
    Evicted(Memory(m.seen + {x}, m.order + [x]), cap)
  }

  function Last<T>(s: seq<T>, n: nat): seq<T> {
    if |s| <= n then s else s[|s| - n..]
  }

  /** The memory is exactly the last `cap` things remembered, each of them once. */
  ghost predicate Recalls<T(!new)>(m: Memory<T>, cap: nat, log: seq<T>) {
    && m.order == Last(log, cap)
    && (forall x :: x in m.seen <==> x in m.order)
    && (forall i, j :: 0 <= i < j < |m.order| ==> m.order[i] != m.order[j])
  }

  lemma RemembersLast<T(!new)>(m: Memory<T>, cap: nat, log: seq<T>, x: T)
    requires Recalls(m, cap, log) && x !in m.seen && cap >= 1
    ensures Recalls(Remembered(m, cap, x), cap, log + [x])
  {
    var grown := Memory(m.seen + {x}, m.order + [x]);
    if |log| < cap {
      assert Last(log + [x], cap) == m.order + [x];
    } else {
      assert Last(log + [x], cap) == grown.order[1..];
      assert Evicted(grown, cap) == Memory(grown.seen - {grown.order[0]}, grown.order[1..]);
      assert grown.order[1..] == m.order[1..] + [x] && m.order == [m.order[0]] + m.order[1..];
      assert m.order[0] !in m.order[1..];
    }
  }

  /** Something remembered twice was forgotten in between, and that took `cap` others. */
  ghost predicate RepeatsAreFar<T>(log: seq<T>, cap: nat) {
    forall i, j :: 0 <= i < j < |log| && log[i] == log[j] ==> j - i > cap
  }

  lemma StaysFar<T(!new)>(m: Memory<T>, cap: nat, log: seq<T>, x: T)
    requires Recalls(m, cap, log) && x !in m.seen && RepeatsAreFar(log, cap)
    ensures RepeatsAreFar(log + [x], cap)
  {
  }

  // ----- what a window lets through over a run -----

  /** One packet let through: when, and in which window, counting windows from zero. */
  datatype Pass = Pass(at: nat, window: nat)

  ghost predicate Paced(passes: seq<Pass>, limit: nat) {
    forall i, j :: 0 <= i < j < |passes| ==>
      && passes[i].at <= passes[j].at
      && passes[i].window <= passes[j].window
      && (passes[i].window < passes[j].window ==>
            passes[j].at >= passes[i].at + (passes[j].window - passes[i].window - 1) * SECOND)
      && (j - i >= limit ==> passes[i].window < passes[j].window)
  }

  /** The window now open is number `n`, began after everything of earlier windows, and holds the last `used` passes. */
  ghost predicate Fits(w: Window, n: nat, clock: nat, passes: seq<Pass>, limit: nat) {
    && w.used <= limit && w.used <= |passes|
    && w.start <= clock
    && Paced(passes, limit)
    && forall i :: 0 <= i < |passes| ==>
         && passes[i].at <= clock
         && passes[i].window <= n
         && (passes[i].window == n <==> i >= |passes| - w.used)
         && (passes[i].window < n ==> w.start >= passes[i].at + (n - passes[i].window - 1) * SECOND)
  }

  function Number(w: Window, n: nat, now: nat): nat {
    if Since(now, w.start) >= SECOND then n + 1 else n
  }

  lemma RollFits(w: Window, n: nat, clock: nat, passes: seq<Pass>, limit: nat, now: nat)
    requires Fits(w, n, clock, passes, limit) && clock <= now
    ensures Fits(Rolled(w, now), Number(w, n, now), now, passes, limit)
  {
  }

  lemma CountFits(w: Window, n: nat, clock: nat, passes: seq<Pass>, limit: nat)
    requires Fits(w, n, clock, passes, limit) && w.used < limit
    ensures Fits(Counted(w), n, clock, passes + [Pass(clock, n)], limit)
  {
  }

  /** k times the ceiling apart means k windows apart, and so k - 1 whole seconds apart. */
  lemma {:induction false} FarInCountIsFarInTime(passes: seq<Pass>, limit: nat, i: nat, j: nat, k: nat)
    requires Paced(passes, limit) && limit >= 1 && k >= 1
    requires i < j < |passes| && j - i >= k * limit
    ensures passes[j].window >= passes[i].window + k
    ensures passes[j].at >= passes[i].at + (k - 1) * SECOND
  {
    WindowsApart(passes, limit, i, j, k);
    assert (passes[j].window - passes[i].window - 1) * SECOND >= (k - 1) * SECOND;
  }

  lemma {:induction false} WindowsApart(passes: seq<Pass>, limit: nat, i: nat, j: nat, k: nat)
    requires Paced(passes, limit) && limit >= 1 && k >= 1
    requires i < j < |passes| && j - i >= k * limit
    ensures passes[j].window >= passes[i].window + k
  {
    if k > 1 {
      WindowsApart(passes, limit, i, j - limit, k - 1);
    }
  }

  // ----- the ceiling over any one second -----

  /** A window over a run of arrivals, and what it let through. */
  datatype Meter = Meter(window: Window, number: nat, clock: nat, passes: seq<Pass>)

  /** One arrival. A reading older than the last is not one a monotone clock gives. */
  function Arrive(limit: nat, m: Meter, at: nat): Meter {
    if at < m.clock then m
    else
      var w, number := Rolled(m.window, at), Number(m.window, m.number, at);
      if w.used >= limit then Meter(w, number, at, m.passes)
      else Meter(Counted(w), number, at, m.passes + [Pass(at, number)])
  }

  function Metered(limit: nat, born: nat, arrivals: seq<nat>): Meter {
    if arrivals == [] then Meter(Window(born, 0), 0, born, [])
    else Arrive(limit, Metered(limit, born, arrivals[..|arrivals| - 1]), arrivals[|arrivals| - 1])
  }

  lemma {:induction false} MeteredFits(limit: nat, born: nat, arrivals: seq<nat>)
    ensures var m := Metered(limit, born, arrivals); Fits(m.window, m.number, m.clock, m.passes, limit)
  {
    if arrivals != [] {
      MeteredFits(limit, born, arrivals[..|arrivals| - 1]);
      var m, at := Metered(limit, born, arrivals[..|arrivals| - 1]), arrivals[|arrivals| - 1];
      hide Fits, Rolled, Number, Counted;
      if at >= m.clock {
        RollFits(m.window, m.number, m.clock, m.passes, limit, at);
        if Rolled(m.window, at).used < limit {
          CountFits(Rolled(m.window, at), Number(m.window, m.number, at), at, m.passes, limit);
        }
      }
    }
  }

  /** Passes n apart are a second apart: no second holds more than n. */
  predicate Spread(passes: seq<Pass>, n: nat) {
    forall i, j :: 0 <= i < j < |passes| && j - i >= n ==> passes[j].at >= passes[i].at + SECOND
  }

  /** In every run of the window, no one second holds more than n. */
  ghost predicate CeilingHolds(limit: nat, n: nat) {
    forall born, arrivals :: Spread(Metered(limit, born, arrivals).passes, n)
  }

  lemma TwoWindowsSpread(w: Window, number: nat, clock: nat, passes: seq<Pass>, limit: nat, n: nat)
    requires Fits(w, number, clock, passes, limit) && limit >= 1 && n >= 2 * limit
    ensures Spread(passes, n)
  {
    assert Paced(passes, limit);
    hide Fits, Paced;
    forall i, j | 0 <= i < j < |passes| && j - i >= n
      ensures passes[j].at >= passes[i].at + SECOND
    {
      FarInCountIsFarInTime(passes, limit, i, j, 2);
    }
  }

  /** The last of one window and the first of the next, a nanosecond apart. */
  function Burst(limit: nat, n: nat): (r: seq<nat>)
    ensures |r| == n
  {
    if n == 0 then [] else Burst(limit, n - 1) + [if n <= limit then SECOND - 1 else SECOND]
  }

  /** Everything has been let through so far. */
  predicate AllPassed(limit: nat, n: nat, m: Meter) {
    && m.window == (if n <= limit then Window(0, n) else Window(SECOND, n - limit))
    && m.clock <= (if n <= limit then SECOND - 1 else SECOND)
    && |m.passes| == n
    && forall k :: 0 <= k < n ==> SECOND - 1 <= m.passes[k].at <= SECOND
  }

  lemma BurstGoesOn(limit: nat, n: nat, m: Meter)
    requires 1 <= n <= 2 * limit && AllPassed(limit, n - 1, m)
    ensures AllPassed(limit, n, Arrive(limit, m, if n <= limit then SECOND - 1 else SECOND))
  {
  }

  lemma {:induction false} BurstPasses(limit: nat, n: nat)
    requires 1 <= limit && n <= 2 * limit
    ensures AllPassed(limit, n, Metered(limit, 0, Burst(limit, n)))
  {
    hide AllPassed, Arrive;
    if n == 0 {
      NothingPassed(limit);
    } else {
      BurstPasses(limit, n - 1);
      assert Burst(limit, n)[..n - 1] == Burst(limit, n - 1);
      BurstGoesOn(limit, n, Metered(limit, 0, Burst(limit, n - 1)));
    }
  }

  lemma NothingPassed(limit: nat)
    ensures AllPassed(limit, 0, Metered(limit, 0, Burst(limit, 0)))
  {
  }

  /**
   The windows are fixed, so one second can hold two windows' worth and never more: n is
   a ceiling over any one second if and only if it is at least twice the limit.
   */
  lemma CeilingIsTwiceTheLimit(limit: nat, n: nat)
    requires limit >= 1
    ensures CeilingHolds(limit, n) <==> n >= 2 * limit
  {
    if n >= 2 * limit {
      forall born, arrivals
        ensures Spread(Metered(limit, born, arrivals).passes, n)
      {
        MeteredFits(limit, born, arrivals);
        var m := Metered(limit, born, arrivals);
        TwoWindowsSpread(m.window, m.number, m.clock, m.passes, limit, n);
      }
    } else {
      BurstPasses(limit, 2 * limit);
      BurstCrowds(Metered(limit, 0, Burst(limit, 2 * limit)).passes, n);
    }
  }

  lemma BurstCrowds(passes: seq<Pass>, n: nat)
    requires n < |passes| && |passes| >= 2 && forall k :: 0 <= k < |passes| ==> SECOND - 1 <= passes[k].at <= SECOND
    ensures !Spread(passes, n)
  {
    var j := |passes| - 1;
    assert passes[j].at < passes[0].at + SECOND && j - 0 >= n;
  }
}
