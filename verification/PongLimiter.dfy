/**
 The ceiling on pongs one attempt answers (crates/mosschat-net/src/punch.rs:1188-1253):
 64 a fixed window, each tx id once for as long as the last 4096 are remembered.
 */
module PongLimiter {
  import opened Common
  import opened Admission

  /** An 8 byte tx id, read as a number. */
  type Tx = nat

  const ANSWERS_PER_SECOND := 64
  const TX_MEMORY := 4096

  datatype State = State(window: Window, memory: Memory<Tx>)

  function MayAnswer(s: State, tx: Tx, now: nat): (State, bool) {
    var w := Rolled(s.window, now);
    if w.used >= ANSWERS_PER_SECOND || tx in s.memory.seen then (s.(window := w), false)
    else (State(Counted(w), Remembered(s.memory, TX_MEMORY, tx)), true)
  }

  class Limiter {
    var windowStart: nat
    var answeredInWindow: nat
    var seen: set<Tx>
    var order: seq<Tx>

    ghost function Value(): State
      reads this
    {
      State(Window(windowStart, answeredInWindow), Memory(seen, order))
    }

    constructor (now: nat)
      ensures Value() == State(Window(now, 0), Memory({}, []))
    {
      windowStart, answeredInWindow, seen, order := now, 0, {}, [];
    }

    method Answer(tx: Tx, now: nat) returns (answered: bool)
      modifies this
      ensures (Value(), answered) == MayAnswer(old(Value()), tx, now)
    {
      if Since(now, windowStart) >= SECOND {
        windowStart := now;
        answeredInWindow := 0;
      }
      if answeredInWindow >= ANSWERS_PER_SECOND {
        return false;
      }
      if tx in seen {
        return false;
      }
      seen := seen + {tx};
      order := order + [tx];
      ghost var grown := Memory(seen, order);
      while |order| > TX_MEMORY
        invariant Evicted(Memory(seen, order), TX_MEMORY) == Evicted(grown, TX_MEMORY)
        invariant windowStart == Rolled(old(Value()).window, now).start
        invariant answeredInWindow == Rolled(old(Value()).window, now).used
        decreases |order|
      {
        var evicted := order[0];
        order := order[1..];
        seen := seen - {evicted};
      }
      answeredInWindow := answeredInWindow + 1;
      return true;
    }
  }

  // ----- runs -----

  datatype Ping = Ping(tx: Tx, at: nat)

  /** The limiter and what it has answered; a ping out of time order is not possible. */
  datatype Log = Log(s: State, clock: nat, number: nat, answered: seq<Tx>, passes: seq<Pass>)

  function Hear(l: Log, ping: Ping): Log {
    if ping.at < l.clock then l
    else
      var number := Number(l.s.window, l.number, ping.at);
      var (s, yes) := MayAnswer(l.s, ping.tx, ping.at);
      if yes then Log(s, ping.at, number, l.answered + [ping.tx], l.passes + [Pass(ping.at, number)])
      else Log(s, ping.at, number, l.answered, l.passes)
  }

  function Run(l: Log, pings: seq<Ping>): Log {
    if pings == [] then l else Hear(Run(l, pings[..|pings| - 1]), pings[|pings| - 1])
  }

  function Born(now: nat): Log {
    Log(State(Window(now, 0), Memory({}, [])), now, 0, [], [])
  }

  ghost predicate Keeps(l: Log) {
    && |l.answered| == |l.passes|
    && Fits(l.s.window, l.number, l.clock, l.passes, ANSWERS_PER_SECOND)
    && Recalls(l.s.memory, TX_MEMORY, l.answered)
    && RepeatsAreFar(l.answered, TX_MEMORY)
  }

  lemma HearKeeps(l: Log, ping: Ping)
    requires Keeps(l)
    ensures Keeps(Hear(l, ping))
  {
    hide Fits, Recalls, RepeatsAreFar, Rolled, Number, Remembered;
    if ping.at >= l.clock {
      var number, w := Number(l.s.window, l.number, ping.at), Rolled(l.s.window, ping.at);
      RollFits(l.s.window, l.number, l.clock, l.passes, ANSWERS_PER_SECOND, ping.at);
      if w.used < ANSWERS_PER_SECOND && ping.tx !in l.s.memory.seen {
        CountFits(w, number, ping.at, l.passes, ANSWERS_PER_SECOND);
        RemembersLast(l.s.memory, TX_MEMORY, l.answered, ping.tx);
        StaysFar(l.s.memory, TX_MEMORY, l.answered, ping.tx);
      }
    }
  }

  lemma {:induction false} RunKeeps(l: Log, pings: seq<Ping>)
    requires Keeps(l)
    ensures Keeps(Run(l, pings))
  {
    if pings != [] {
      RunKeeps(l, pings[..|pings| - 1]);
      HearKeeps(Run(l, pings[..|pings| - 1]), pings[|pings| - 1]);
    }
  }

  /** How many of these fell in one window. */
  function InWindow(passes: seq<Pass>, window: nat): nat {
    if passes == [] then 0
    else InWindow(passes[..|passes| - 1], window) + if passes[|passes| - 1].window == window then 1 else 0
  }

  lemma {:induction false} WindowIsCounted(passes: seq<Pass>, window: nat, used: nat)
    requires used <= |passes| && forall i :: 0 <= i < |passes| ==> (passes[i].window == window <==> i >= |passes| - used)
    ensures InWindow(passes, window) == used
  {
    if passes != [] {
      WindowIsCounted(passes[..|passes| - 1], window, if used > 0 then used - 1 else 0);
    }
  }

  /**
   In every run a ping is answered if and only if fewer than 64 were answered in the
   window it falls in and its tx id is not among the last 4096 answered.
   */
  lemma AnsweredIff(born: nat, pings: seq<Ping>, ping: Ping)
    requires ping.at >= Run(Born(born), pings).clock
    ensures var l := Run(Born(born), pings);
            MayAnswer(l.s, ping.tx, ping.at).1 <==>
              && InWindow(l.passes, Number(l.s.window, l.number, ping.at)) < 64
              && ping.tx !in Last(l.answered, 4096)
  {
    RunKeeps(Born(born), pings);
    var l := Run(Born(born), pings);
    var w, number := Rolled(l.s.window, ping.at), Number(l.s.window, l.number, ping.at);
    RollFits(l.s.window, l.number, l.clock, l.passes, ANSWERS_PER_SECOND, ping.at);
    assert Fits(w, number, ping.at, l.passes, ANSWERS_PER_SECOND) && Recalls(l.s.memory, TX_MEMORY, l.answered);
    hide Run, Rolled, Number, RepeatsAreFar, Paced, Last, Remembered;
    WindowIsCounted(l.passes, number, w.used);
  }

  /** No tx id is answered twice within 63 seconds, whatever is replayed at the house and however fast. */
  lemma NoReplayWithin63Seconds(born: nat, pings: seq<Ping>, i: nat, j: nat)
    requires var l := Run(Born(born), pings); i < j < |l.answered| == |l.passes| && l.answered[i] == l.answered[j]
    ensures var l := Run(Born(born), pings); l.passes[j].at >= l.passes[i].at + 63 * SECOND
  {
    var l := Run(Born(born), pings);
    RunKeeps(Born(born), pings);
    FarInCountIsFarInTime(l.passes, ANSWERS_PER_SECOND, i, j, 64);
  }

  /** Distinct tx ids, arriving when they are told to. */
  function Numbered(arrivals: seq<nat>): (r: seq<Ping>)
    ensures |r| == |arrivals|
  {
    if arrivals == [] then []
    else Numbered(arrivals[..|arrivals| - 1]) + [Ping(|arrivals|, arrivals[|arrivals| - 1])]
  }

  lemma {:induction false} EvictedIsSubset(m: Memory<Tx>, cap: nat)
    ensures Evicted(m, cap).seen <= m.seen
    decreases |m.order|
  {
    if |m.order| > cap {
      EvictedIsSubset(Memory(m.seen - {m.order[0]}, m.order[1..]), cap);
    }
  }

  /** Pings that are never repeats meet the window and nothing else. */
  lemma {:induction false} DistinctPingsAreMetered(born: nat, arrivals: seq<nat>)
    ensures var l, m := Run(Born(born), Numbered(arrivals)), Metered(ANSWERS_PER_SECOND, born, arrivals);
            && l.s.window == m.window && l.number == m.number && l.clock == m.clock && l.passes == m.passes
            && forall x :: x in l.s.memory.seen ==> x <= |arrivals|
  {
    if arrivals != [] {
      var n := |arrivals| - 1;
      DistinctPingsAreMetered(born, arrivals[..n]);
      assert Numbered(arrivals)[..n] == Numbered(arrivals[..n]);
      var before := Run(Born(born), Numbered(arrivals[..n])).s.memory;
      EvictedIsSubset(Memory(before.seen + {n + 1}, before.order + [n + 1]), TX_MEMORY);
      hide Rolled, Number, Evicted;
    }
  }

  /** In every run, no one second holds more than n answers. */
  ghost predicate AnswersWithin(n: nat) {
    forall born, pings :: Spread(Run(Born(born), pings).passes, n)
  }

  /** 128 answers can fall in one second and no more can, where 64 are documented. */
  lemma OneSecondHoldsTwoWindows(n: nat)
    ensures AnswersWithin(n) <==> n >= 2 * ANSWERS_PER_SECOND
  {
    if n >= 2 * ANSWERS_PER_SECOND {
      forall born, pings
        ensures Spread(Run(Born(born), pings).passes, n)
      {
        RunKeeps(Born(born), pings);
        var l := Run(Born(born), pings);
        TwoWindowsSpread(l.s.window, l.number, l.clock, l.passes, ANSWERS_PER_SECOND, n);
      }
    } else {
      CeilingIsTwiceTheLimit(ANSWERS_PER_SECOND, n);
      var born, arrivals :| !Spread(Metered(ANSWERS_PER_SECOND, born, arrivals).passes, n);
      DistinctPingsAreMetered(born, arrivals);
      assert !Spread(Run(Born(born), Numbered(arrivals)).passes, n);
    }
  }
}
