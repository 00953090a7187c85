/**
 Whole runs of `on_datagram` (crates/mosschat-net/src/discovery.rs:664-779), with
 the monotone clock and the Unix clock advancing in step. An announce stamped at
 most 19 seconds ahead of the receiver's clock is admitted once and never again;
 one stamped 20 to 60 seconds ahead can be admitted twice.
 */
module DiscoveryRuns {
  import opened Common
  import opened Addresses
  import opened Admission
  import opened Announces
  import opened Discovery
  import AddressCache

  /** What one house's discovery is given: its identity, its friends, its clocks' offset. */
  datatype Env = Env(config: Config, base: nat, isFriend: Key -> bool, verify: Verifier)

  datatype Datagram = Datagram(bytes: Bytes, from: SocketAddr, now: nat)

  function Unix(env: Env, now: nat): nat {
    env.base + now / SECOND
  }

  /** The machine, every packet past the ceiling, and every triple the replay guard admitted with its packet. */
  datatype Log = Log(
    s: State,
    clock: nat,
    number: nat,
    passes: seq<Pass>,
    admitted: seq<Triple>,
    packet: seq<nat>,
    heard: nat)

  function Hears(env: Env, s: State, d: Datagram): (State, Heard) {
    OnDatagram(env.config, s, d.bytes, d.from, d.now, Unix(env, d.now), env.isFriend, env.verify)
  }

  /** Past the replay guard: what is left is only whether the source address is local. */
  predicate Admits(heard: Heard) {
    heard.Discovered? || heard.error.SourceNotLocal?
  }

  function Reading(env: Env, d: Datagram): Result {
    Parse(d.bytes, env.config.community, Known(env.config, env.isFriend))
  }

  function Hear(env: Env, l: Log, d: Datagram): Log {
    if d.now < l.clock then l
    else
      var number := Number(l.s.window, l.number, d.now);
      var passed := Rolled(l.s.window, d.now).used < PACKETS_PER_SECOND;
      var passes := if passed then l.passes + [Pass(d.now, number)] else l.passes;
      var (s, heard) := Hears(env, l.s, d);
      if Admits(heard) && Reading(env, d).Ok? && passes != [] then
        Log(s, d.now, number, passes, l.admitted + [TripleOf(Reading(env, d).announce)],
            l.packet + [|passes| - 1], l.heard + 1)
      else
        Log(s, d.now, number, passes, l.admitted, l.packet, l.heard + 1)
  }

  function Run(env: Env, l: Log, datagrams: seq<Datagram>): Log {
    if datagrams == [] then l else Hear(env, Run(env, l, datagrams[..|datagrams| - 1]), datagrams[|datagrams| - 1])
  }

  function Start(now: nat): Log {
    Log(Born(now), now, 0, [], [], [], 0)
  }

  // ----- what every run keeps -----

  /** The receiver's clock when the k-th admission happened. */
  function AdmittedAt(env: Env, l: Log, k: nat): nat
    requires k < |l.packet| && l.packet[k] < |l.passes|
  {
    Unix(env, l.passes[l.packet[k]].at)
  }

  /** Each admission is a packet of its own, no more than the replay window from its own clock reading. */
  ghost predicate Stamped(env: Env, l: Log) {
    && |l.packet| == |l.admitted|
    && (forall k :: 0 <= k < |l.packet| ==> l.packet[k] < |l.passes|)
    && (forall k :: 0 <= k < |l.packet| ==> Skew(AdmittedAt(env, l, k), l.admitted[k].sentUnix) <= REPLAY_WINDOW)
    && (forall j, k :: 0 <= j < k < |l.packet| ==> l.packet[j] < l.packet[k])
  }

  ghost predicate Keeps(env: Env, l: Log) {
    && Fits(l.s.window, l.number, l.clock, l.passes, PACKETS_PER_SECOND)
    && Recalls(l.s.memory, SEEN_REMEMBERED, l.admitted)
    && RepeatsAreFar(l.admitted, SEEN_REMEMBERED)
    && Stamped(env, l)
    && Total(l.s.counters) == l.heard
  }

  /** The window moves by the packet, the memory by the announce, the counters by one. */
  lemma DatagramFacts(env: Env, s: State, d: Datagram)
    ensures var (after, heard) := Hears(env, s, d);
            var w := Rolled(s.window, d.now);
            && after.window == (if w.used < PACKETS_PER_SECOND then Counted(w) else w)
            && Total(after.counters) == Total(s.counters) + 1
            && (Admits(heard) ==> w.used < PACKETS_PER_SECOND && Reading(env, d).Ok?)
            && (Admits(heard) ==>
                  AdmitTriple(s.memory, TripleOf(Reading(env, d).announce), Unix(env, d.now)) == (after.memory, Fresh))
            && (!Admits(heard) ==> after.memory == s.memory)
  {
    hide Signed, AdmitKey, Remembered, IsLocalSource, Rolled;
  }

  lemma HearKeeps(env: Env, l: Log, d: Datagram)
    requires Keeps(env, l)
    ensures Keeps(env, Hear(env, l, d))
  {
    if d.now >= l.clock {
      DatagramFacts(env, l.s, d);
      hide Fits, Recalls, RepeatsAreFar, Rolled, Number, Remembered, Hears, Reading, Total;
      var number, w := Number(l.s.window, l.number, d.now), Rolled(l.s.window, d.now);
      RollFits(l.s.window, l.number, l.clock, l.passes, PACKETS_PER_SECOND, d.now);
      if w.used < PACKETS_PER_SECOND {
        CountFits(w, number, d.now, l.passes, PACKETS_PER_SECOND);
      }
      if Admits(Hears(env, l.s, d).1) {
        var triple := TripleOf(Reading(env, d).announce);
        RemembersLast(l.s.memory, SEEN_REMEMBERED, l.admitted, triple);
        StaysFar(l.s.memory, SEEN_REMEMBERED, l.admitted, triple);
      }
    }
  }

  lemma {:induction false} RunKeeps(env: Env, l: Log, datagrams: seq<Datagram>)
    requires Keeps(env, l)
    ensures Keeps(env, Run(env, l, datagrams))
  {
    if datagrams != [] {
      RunKeeps(env, l, datagrams[..|datagrams| - 1]);
      HearKeeps(env, Run(env, l, datagrams[..|datagrams| - 1]), datagrams[|datagrams| - 1]);
    }
  }

  /** Some triple is admitted twice, the first time when it was stamped `ahead` of the receiver's clock. */
  ghost predicate Repeats(env: Env, l: Log, ahead: int) {
    exists i: nat, j: nat :: i < j < |l.admitted| && i < |l.packet| && l.packet[i] < |l.passes|
                             && l.admitted[i] == l.admitted[j]
                             && l.admitted[i].sentUnix == AdmittedAt(env, l, i) + ahead
  }

  lemma RepeatsTake80Seconds(env: Env, l: Log, i: nat, j: nat)
    requires Keeps(env, l) && i < j < |l.admitted| && l.admitted[i] == l.admitted[j]
    ensures l.passes[l.packet[j]].at >= l.passes[l.packet[i]].at + 80 * SECOND
  {
    assert j - i > SEEN_REMEMBERED;
    PacketsApart(env, l, i, j);
    hide Recalls, Fits, RepeatsAreFar;
    assert Paced(l.passes, PACKETS_PER_SECOND) by {
      assert Fits(l.s.window, l.number, l.clock, l.passes, PACKETS_PER_SECOND);
    }
    FarInCountIsFarInTime(l.passes, PACKETS_PER_SECOND, l.packet[i], l.packet[j], 81);
  }

  lemma StartKeeps(env: Env, now: nat)
    ensures Keeps(env, Start(now))
  {
  }

  lemma RepeatIsFarAhead(env: Env, l: Log, i: nat, j: nat)
    requires Keeps(env, l) && i < j < |l.admitted| && l.admitted[i] == l.admitted[j]
    ensures 20 <= l.admitted[i].sentUnix - AdmittedAt(env, l, i) <= 60
  {
    RepeatsTake80Seconds(env, l, i, j);
    var first, second := l.passes[l.packet[i]].at, l.passes[l.packet[j]].at;
    hide Fits, Recalls, RepeatsAreFar, Total;
    assert Skew(AdmittedAt(env, l, i), l.admitted[i].sentUnix) <= REPLAY_WINDOW;
    assert Skew(AdmittedAt(env, l, j), l.admitted[j].sentUnix) <= REPLAY_WINDOW;
  }

  /** Whatever arrives, in whatever order, from whomever: a repeat was stamped 20 to 60 seconds ahead. */
  lemma OnlyFarAheadRepeats(env: Env, start: nat, datagrams: seq<Datagram>, ahead: int)
    requires Repeats(env, Run(env, Start(start), datagrams), ahead)
    ensures 20 <= ahead <= 60
  {
    hide Keeps, Run;
    var l := Run(env, Start(start), datagrams);
    StartKeeps(env, start);
    RunKeeps(env, Start(start), datagrams);
    var i: nat, j: nat :| i < j < |l.admitted| && i < |l.packet| && l.packet[i] < |l.passes|
                          && l.admitted[i] == l.admitted[j]
                          && l.admitted[i].sentUnix == AdmittedAt(env, l, i) + ahead;
    RepeatIsFarAhead(env, l, i, j);
  }

  lemma {:induction false} PacketsApart(env: Env, l: Log, i: nat, j: nat)
    requires Stamped(env, l) && i <= j < |l.packet|
    ensures l.packet[j] - l.packet[i] >= j - i
    decreases j
  {
    if i < j {
      PacketsApart(env, l, i, j - 1);
    }
  }

  /** Every datagram is counted under exactly one counter. */
  lemma {:induction false} EveryDatagramIsCounted(env: Env, start: nat, datagrams: seq<Datagram>)
    ensures var l := Run(env, Start(start), datagrams); Total(l.s.counters) == l.heard
  {
    StartKeeps(env, start);
    RunKeeps(env, Start(start), datagrams);
  }

  // ----- the cache -----

  /** A datagram touches the cache by remembering one address, or not at all. */
  lemma CacheFacts(env: Env, s: State, d: Datagram)
    ensures var after := Hears(env, s, d).0.cache;
            || after == s.cache
            || exists key, addr :: after == AddressCache.Step(s.cache, AddressCache.RememberIt(key, addr, CandidateSource.Discovery, d.now))
  {
    hide Signed, AdmitKey, AdmitTriple, IsLocalSource, Rolled, AddressCache.Remembered;
    var (after, heard) := Hears(env, s, d);
    if heard.Discovered? {
      var a := Reading(env, d).announce;
      assert after.cache == AddressCache.Step(s.cache,
        AddressCache.RememberIt(a.key, SocketAddr(d.from.ip, a.port), CandidateSource.Discovery, d.now));
    }
  }

  /** In every run, every friend's discovered addresses stay distinct, unmapped and at most 8. */
  lemma {:induction false} DiscoveredStayBounded(env: Env, start: nat, datagrams: seq<Datagram>)
    ensures AddressCache.AllKept(Run(env, Start(start), datagrams).s.cache)
  {
    if datagrams != [] {
      var n := |datagrams| - 1;
      DiscoveredStayBounded(env, start, datagrams[..n]);
      hide AddressCache.AllKept, AddressCache.Step, Hears;
      var before := Run(env, Start(start), datagrams[..n]).s;
      CacheFacts(env, before, datagrams[n]);
      var after := Hears(env, before, datagrams[n]).0.cache;
      if after != before.cache {
        var key, addr :| after == AddressCache.Step(before.cache, AddressCache.RememberIt(key, addr, CandidateSource.Discovery, datagrams[n].now));
        AddressCache.StepKeeps(before.cache, AddressCache.RememberIt(key, addr, CandidateSource.Discovery, datagrams[n].now));
      }
    }
  }

  // ----- the packet ceiling -----

  function Readings(datagrams: seq<Datagram>): (r: seq<nat>)
    ensures |r| == |datagrams|
  {
    if datagrams == [] then [] else Readings(datagrams[..|datagrams| - 1]) + [datagrams[|datagrams| - 1].now]
  }

  /** The ceiling looks at nothing but the clock: what is in a datagram does not matter to it. */
  lemma {:induction false} PacketsAreMetered(env: Env, start: nat, datagrams: seq<Datagram>)
    ensures var l, m := Run(env, Start(start), datagrams), Metered(PACKETS_PER_SECOND, start, Readings(datagrams));
            l.s.window == m.window && l.number == m.number && l.clock == m.clock && l.passes == m.passes
  {
    if datagrams != [] {
      var n := |datagrams| - 1;
      PacketsAreMetered(env, start, datagrams[..n]);
      assert Readings(datagrams)[..n] == Readings(datagrams[..n]);
      DatagramFacts(env, Run(env, Start(start), datagrams[..n]).s, datagrams[n]);
      hide Hears, Rolled, Number, Admits, Reading, Metered, Readings, Run;
    }
  }

  /** The same datagram, over and over, at the given readings. */
  function Repeated(bytes: Bytes, from: SocketAddr, arrivals: seq<nat>): (r: seq<Datagram>)
    ensures |r| == |arrivals|
  {
    if arrivals == [] then []
    else Repeated(bytes, from, arrivals[..|arrivals| - 1]) + [Datagram(bytes, from, arrivals[|arrivals| - 1])]
  }

  lemma {:induction false} RepeatedReads(bytes: Bytes, from: SocketAddr, arrivals: seq<nat>)
    ensures Readings(Repeated(bytes, from, arrivals)) == arrivals
  {
    if arrivals != [] {
      var n := |arrivals| - 1;
      RepeatedReads(bytes, from, arrivals[..n]);
      assert Repeated(bytes, from, arrivals)[..n] == Repeated(bytes, from, arrivals[..n]);
    }
  }

  /** In every run, no one second lets more than n packets past the ceiling. */
  ghost predicate PacketsWithin(env: Env, n: nat) {
    forall start, datagrams :: Spread(Run(env, Start(start), datagrams).passes, n)
  }

  /** For any house: 100 packets can pass in one second and no more can, where 50 are documented. */
  lemma OneSecondHoldsTwoWindows(env: Env, n: nat)
    ensures PacketsWithin(env, n) <==> n >= 2 * PACKETS_PER_SECOND
  {
    CeilingIsTwiceTheLimit(PACKETS_PER_SECOND, n);
    if n >= 2 * PACKETS_PER_SECOND {
      forall start, datagrams
        ensures Spread(Run(env, Start(start), datagrams).passes, n)
      {
        PacketsAreMetered(env, start, datagrams);
        assert Spread(Metered(PACKETS_PER_SECOND, start, Readings(datagrams)).passes, n);
      }
    } else {
      var start, arrivals :| !Spread(Metered(PACKETS_PER_SECOND, start, arrivals).passes, n);
      var datagrams := Repeated([], SocketAddr(V4(0, 0, 0, 0), 0), arrivals);
      RepeatedReads([], SocketAddr(V4(0, 0, 0, 0), 0), arrivals);
      PacketsAreMetered(env, start, datagrams);
      assert !Spread(Run(env, Start(start), datagrams).passes, n);
    }
  }
}
