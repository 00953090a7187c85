/**
 One doorbell attempt's candidate table, probe schedule and upgrade rule
 (crates/mosschat-net/src/punch.rs:49-91, 687-1186). Instants and durations are
 nanoseconds. `before` stands for the order of the addresses' text forms.
 */
module Attempt {
  import opened Common
  import opened Addresses

  /** An 8 byte tx id, and a 16 byte attempt id, read as numbers. */
  type Tx = nat
  type Id = nat

  const MILLI := 1_000_000
  const MAX_CANDIDATES := 16
  const FAST_INTERVAL := 100 * MILLI
  const FAST_WINDOW := 3_000 * MILLI
  const SLOW_INTERVAL := 1_000 * MILLI
  const GIVE_UP := 10_000 * MILLI
  const DISCOVERY_SLOTS := 4
  const TO_WIN := 3
  const FIRE_IN := 200 * MILLI

  datatype Candidate = Candidate(
    addr: SocketAddr,
    source: CandidateSource,
    consecutive: nat,
    recent: seq<nat>,
    srtt: Option<nat>,
    outstanding: map<Tx, nat>,
    lastSent: Option<nat>,
    givenUp: bool)

  datatype Winner = Winner(addr: SocketAddr, rtt: nat)

  datatype State = State(
    id: Id,
    vouched: seq<SocketAddr>,
    fireAt: Option<nat>,
    candidates: seq<Candidate>,
    discovered: nat,
    winner: Option<Winner>)

  function Fresh(addr: SocketAddr, source: CandidateSource): Candidate {
    Candidate(addr, source, 0, [], None, map[], None, false)
  }

  // ----- what may be probed -----

  predicate Names(candidates: seq<Candidate>, addr: SocketAddr) {
    exists k :: 0 <= k < |candidates| && candidates[k].addr == addr
  }

  function AddCandidate(s: State, addr: SocketAddr, source: CandidateSource): (r: (State, bool))
    ensures |s.candidates| <= |r.0.candidates|
  {
    var plain := Unmap(addr);
    if |s.candidates| >= MAX_CANDIDATES || !IsProbeable(plain) || Names(s.candidates, plain) then (s, false)
    else if source.PeerReported? && !IsGloballyRoutable(plain) && plain !in s.vouched then (s, false)
    else (s.(candidates := s.candidates + [Fresh(plain, source)]), true)
  }

  function Vouch(s: State, addr: SocketAddr): State {
    if Unmap(addr) in s.vouched then s else s.(vouched := s.vouched + [Unmap(addr)])
  }

  function AddDiscovered(s: State, addr: SocketAddr): (r: (State, bool))
    ensures |s.candidates| <= |r.0.candidates|
  {
    var s1 := Vouch(s, addr);
    if s1.discovered >= DISCOVERY_SLOTS then (s1, false)
    else
      var (s2, added) := AddCandidate(s1, addr, Discovery);
      if added then (s2.(discovered := s2.discovered + 1), true) else (s2, false)
  }

  /** The addresses of a peer's list that decode at all; returns how many were taken. */
  function AddPeers(s: State, addrs: seq<SocketAddr>): (r: (State, nat))
    ensures |s.candidates| <= |r.0.candidates|
  {
    if addrs == [] then (s, 0)
    else
      var (s1, n) := AddPeers(s, addrs[..|addrs| - 1]);
      var (s2, added) := AddCandidate(s1, addrs[|addrs| - 1], PeerReported);
      (s2, if added then n + 1 else n)
  }

  // ----- the schedule -----

  function Interval(elapsed: nat): nat {
    if elapsed < FAST_WINDOW then FAST_INTERVAL else SLOW_INTERVAL
  }

  /** Whether this candidate is pinged at `now`, `elapsed` after the attempt fired. */
  predicate Due(c: Candidate, now: nat, elapsed: nat) {
    !c.givenUp && (c.lastSent.Some? ==> Since(now, c.lastSent.value) >= Interval(elapsed))
  }

  /** A ping while an earlier one is unanswered ends the streak. */
  function Pinged(c: Candidate, tx: Tx, now: nat): Candidate {
    var kept := if c.outstanding == map[] then c else c.(consecutive := 0, recent := []);
    kept.(outstanding := map[tx := now], lastSent := Some(now))
  }

  datatype Ping = Ping(to: SocketAddr, tx: Tx)

  /** The first n candidates, those due pinged with tx ids drawn in order. */
  function PingFirst(candidates: seq<Candidate>, n: nat, now: nat, elapsed: nat, draw: nat -> Tx)
    : (r: (seq<Candidate>, seq<Ping>))
    requires n <= |candidates|
    ensures |r.0| == |candidates|
    ensures forall k :: 0 <= k < |candidates| ==>
              r.0[k] == candidates[k] || (k < n && Due(candidates[k], now, elapsed) && exists tx :: r.0[k] == Pinged(candidates[k], tx, now))
  {
    if n == 0 then (candidates, [])
    else
      var (done, out) := PingFirst(candidates, n - 1, now, elapsed, draw);
      if Due(candidates[n - 1], now, elapsed) then
        (done[n - 1 := Pinged(candidates[n - 1], draw(|out|), now)], out + [Ping(candidates[n - 1].addr, draw(|out|))])
      else (done, out)
  }

  function AllGivenUp(candidates: seq<Candidate>): (r: seq<Candidate>)
    ensures |r| == |candidates|
    ensures forall k :: 0 <= k < |candidates| ==> r[k] == candidates[k].(givenUp := true)
  {
    if candidates == [] then []
    else AllGivenUp(candidates[..|candidates| - 1]) + [candidates[|candidates| - 1].(givenUp := true)]
  }

  function DueProbes(s: State, now: nat, draw: nat -> Tx): (r: (State, seq<Ping>))
    ensures |r.0.candidates| == |s.candidates|
  {
    if s.fireAt.None? || now < s.fireAt.value || s.winner.Some? then (s, [])
    else
      var elapsed := now - s.fireAt.value;
      if elapsed >= GIVE_UP then (s.(candidates := AllGivenUp(s.candidates)), [])
      else
        var (candidates, out) := PingFirst(s.candidates, |s.candidates|, now, elapsed, draw);
        (s.(candidates := candidates), out)
  }

  // ----- pongs and the decision -----

  datatype Pong = Pong(isPong: bool, attempt: Id, tx: Tx)

  function LastThree(recent: seq<nat>): seq<nat> {
    if |recent| <= TO_WIN then recent else recent[|recent| - TO_WIN..]
  }

  function Answered(c: Candidate, tx: Tx, now: nat): Candidate
    requires tx in c.outstanding
  {
    var rtt := Since(now, c.outstanding[tx]);
    c.(outstanding := c.outstanding - {tx},
       recent := LastThree(c.recent + [rtt]),
       srtt := Some(Smoothed(c.srtt, rtt)),
       consecutive := c.consecutive + 1)
  }

  predicate Answers(c: Candidate, from: SocketAddr, tx: Tx) {
    c.addr == from && tx in c.outstanding
  }

  function AnswerAll(candidates: seq<Candidate>, from: SocketAddr, tx: Tx, now: nat): (r: seq<Candidate>)
    ensures |r| == |candidates|
    ensures forall k :: 0 <= k < |candidates| ==>
              r[k] == if Answers(candidates[k], from, tx) then Answered(candidates[k], tx, now) else candidates[k]
  {
    if candidates == [] then []
    else
      var last := candidates[|candidates| - 1];
      AnswerAll(candidates[..|candidates| - 1], from, tx, now)
      + [if Answers(last, from, tx) then Answered(last, tx, now) else last]
  }

  /** Returns whether the pong counted for anything. */
  function OnPong(s: State, from: SocketAddr, pong: Pong, now: nat): (State, bool) {
    if s.winner.Some? || !pong.isPong || pong.attempt != s.id then (s, false)
    else (s.(candidates := AnswerAll(s.candidates, from, pong.tx, now)),
          exists k :: 0 <= k < |s.candidates| && Answers(s.candidates[k], from, pong.tx))
  }

  function Sum(xs: seq<nat>): nat {
    if xs == [] then 0 else Sum(xs[..|xs| - 1]) + xs[|xs| - 1]
  }

  function Mean(xs: seq<nat>): nat
    requires xs != []
  {
    Sum(xs) / |xs|
  }

  predicate Eligible(c: Candidate) {
    c.consecutive >= TO_WIN && c.recent != []
  }

  function Bid(c: Candidate): Winner
    requires c.recent != []
  {
    Winner(c.addr, Mean(c.recent))
  }

  type Order = (SocketAddr, SocketAddr) -> bool

  ghost predicate StrictTotal(before: Order) {
    && (forall a, b :: before(a, b) ==> !before(b, a))
    && (forall a, b :: a != b ==> before(a, b) || before(b, a))
    && (forall a, b, c :: before(a, b) && before(b, c) ==> before(a, c))
  }

  /** Lower mean first, then the address that comes first. */
  predicate Better(before: Order, a: Winner, b: Winner) {
    a.rtt < b.rtt || (a.rtt == b.rtt && before(a.addr, b.addr))
  }

  /** The first of the best, as a scan keeping the minimum finds it. */
  function Best(before: Order, candidates: seq<Candidate>): Option<Winner> {
    if candidates == [] then None
    else
      var so := Best(before, candidates[..|candidates| - 1]);
      var last := candidates[|candidates| - 1];
      if Eligible(last) && (so.None? || Better(before, Bid(last), so.value)) then Some(Bid(last)) else so
  }

  function Decide(before: Order, s: State): (State, Option<Winner>) {
    if s.winner.Some? then (s, None)
    else
      var best := Best(before, s.candidates);
      (if best.Some? then s.(winner := best) else s, best)
  }

  // ----- as the source writes it -----

  class Table {
    const id: Id
    var vouched: seq<SocketAddr>
    var fireAt: Option<nat>
    var candidates: seq<Candidate>
    var discovered: nat
    var winner: Option<Winner>

    ghost function Value(): State
      reads this
    {
      State(id, vouched, fireAt, candidates, discovered, winner)
    }

    constructor (id: Id, gateReflected: Option<SocketAddr>)
      ensures Value() == New(id, gateReflected)
    {
      this.id := id;
      vouched := if gateReflected.Some? then [Unmap(gateReflected.value)] else [];
      fireAt, candidates, discovered, winner := None, [], 0, None;
    }

    method Add(addr: SocketAddr, source: CandidateSource) returns (added: bool)
      modifies this`candidates
      ensures (Value(), added) == AddCandidate(old(Value()), addr, source)
      ensures added ==> |old(candidates)| < |candidates| <= MAX_CANDIDATES && Names(candidates, Unmap(addr))
      ensures !added ==> candidates == old(candidates)
    {
      var plain := Unmap(addr);
      if |candidates| >= MAX_CANDIDATES || !IsProbeable(plain) || Names(candidates, plain) {
        return false;
      }
      if source == PeerReported && !IsGloballyRoutable(plain) && plain !in vouched {
        return false;
      }
      candidates := candidates + [Fresh(plain, source)];
      assert candidates[|candidates| - 1].addr == plain;
      return true;
    }

    method VouchFor(addr: SocketAddr)
      modifies this`vouched
      ensures Value() == Vouch(old(Value()), addr)
    {
      var plain := Unmap(addr);
      if plain !in vouched {
        vouched := vouched + [plain];
      }
    }

    method Discover(addr: SocketAddr) returns (added: bool)
      modifies this`vouched, this`candidates, this`discovered
      ensures (Value(), added) == AddDiscovered(old(Value()), addr)
      ensures Unmap(addr) in vouched
      ensures old(discovered) >= DISCOVERY_SLOTS ==> !added && candidates == old(candidates)
    {
      VouchFor(addr);
      if discovered >= DISCOVERY_SLOTS {
        return false;
      }
      added := Add(addr, CandidateSource.Discovery);
      if added {
        discovered := discovered + 1;
      }
    }

    method AddPeerCandidates(addrs: seq<SocketAddr>) returns (taken: nat)
      modifies this`candidates
      ensures (Value(), taken) == AddPeers(old(Value()), addrs)
    {
      taken := 0;
      for k := 0 to |addrs|
        invariant (Value(), taken) == AddPeers(old(Value()), addrs[..k])
      {
        assert addrs[..k + 1][..k] == addrs[..k];
        var added := Add(addrs[k], PeerReported);
        if added {
          taken := taken + 1;
        }
      }
      assert addrs[..|addrs|] == addrs;
    }

    method StartSignalReceived(at: nat)
      modifies this`fireAt
      ensures Value() == old(Value()).(fireAt := Some(at + FIRE_IN))
    {
      fireAt := Some(at + FIRE_IN);
    }

    method ProbesDue(now: nat, draw: nat -> Tx) returns (out: seq<Ping>)
      modifies this`candidates
      ensures (Value(), out) == DueProbes(old(Value()), now, draw)
    {
      if fireAt.None? {
        return [];
      }
      if now < fireAt.value || winner.Some? {
        return [];
      }
      var elapsed := now - fireAt.value;
      if elapsed >= GIVE_UP {
        candidates := AllGivenUp(candidates);
        return [];
      }
      out := [];
      ghost var start := candidates;
      for k := 0 to |candidates|
        invariant |candidates| == |start|
        invariant (candidates, out) == PingFirst(start, k, now, elapsed, draw)
        invariant forall j :: k <= j < |start| ==> candidates[j] == start[j]
        invariant Value() == old(Value()).(candidates := candidates)
      {
        var c := candidates[k];
        if Due(c, now, elapsed) {
          var tx := draw(|out|);
          if c.outstanding != map[] {
            c := c.(consecutive := 0, recent := [], outstanding := map[]);
          }
          c := c.(outstanding := c.outstanding[tx := now], lastSent := Some(now));
          assert c == Pinged(start[k], tx, now);
          candidates := candidates[k := c];
          out := out + [Ping(c.addr, tx)];
        }
      }
    }

    method PongArrives(from: SocketAddr, pong: Pong, now: nat) returns (counted: bool)
      modifies this`candidates
      ensures (Value(), counted) == OnPong(old(Value()), from, pong, now)
    {
      if winner.Some? || !pong.isPong || pong.attempt != id {
        return false;
      }
      counted := false;
      ghost var start := candidates;
      for k := 0 to |candidates|
        invariant |candidates| == |start|
        invariant forall j :: 0 <= j < |start| ==>
                    candidates[j] == if j < k && Answers(start[j], from, pong.tx) then Answered(start[j], pong.tx, now) else start[j]
        invariant counted <==> exists j :: 0 <= j < k && Answers(start[j], from, pong.tx)
        invariant Value() == old(Value()).(candidates := candidates)
      {
        var c := candidates[k];
        if c.addr == from && pong.tx in c.outstanding {
          candidates := candidates[k := Answered(c, pong.tx, now)];
          counted := true;
        }
      }
      assert candidates == AnswerAll(start, from, pong.tx, now);
    }

    method TakeDecision(before: Order) returns (decided: Option<Winner>)
      modifies this`winner
      ensures (Value(), decided) == Decide(before, old(Value()))
    {
      if winner.Some? {
        return None;
      }
      decided := None;
      for k := 0 to |candidates|
        invariant decided == Best(before, candidates[..k])
      {
        assert candidates[..k + 1][..k] == candidates[..k];
        var c := candidates[k];
        if c.consecutive >= TO_WIN && c.recent != [] {
          var bid := Winner(c.addr, Mean(c.recent));
          if decided.None? || Better(before, bid, decided.value) {
            decided := Some(bid);
          }
        }
      }
      assert candidates[..|candidates|] == candidates;
      if decided.Some? {
        winner := decided;
      }
    }

    method PathFailed() returns (was: Option<Winner>)
      modifies this`winner
      ensures was == old(winner) && Value() == old(Value()).(winner := None)
    {
      was := winner;
      winner := None;
    }
  }

  /** What the gate saw of the peer is the first thing vouched for. */
  function New(id: Id, gateReflected: Option<SocketAddr>): State {
    State(id, if gateReflected.Some? then [Unmap(gateReflected.value)] else [], None, [], 0, None)
  }
}
