/**
 Whole runs of one attempt, for any clock readings and any mix of calls
 (crates/mosschat-net/src/punch.rs:795-1186): what got into the table and on whose
 word, how many pings each candidate was sent and when, and what a winner proved.
 */
module AttemptRuns {
  import opened Common
  import opened Addresses
  import opened Attempt

  /** One ping sent to a candidate, and its round trip once it was answered. */
  datatype Sent = Sent(at: nat, rtt: Option<nat>)

  datatype Op =
    | VouchFor(addr: SocketAddr)                      // heard on this network
    | Discover(addr: SocketAddr)
    | PeerList(addrs: seq<SocketAddr>)
    | StartSignal(at: nat)
    | Probe(now: nat, draw: nat -> Tx)
    | Hear(from: SocketAddr, pong: Pong, now: nat)
    | Settle(before: Order)
    | Fail

  /** The table, what gate or network vouched for, and every ping of every candidate. */
  datatype Log = Log(s: State, heard: set<SocketAddr>, history: seq<seq<Sent>>)

  function Padded(history: seq<seq<Sent>>, n: nat): (r: seq<seq<Sent>>)
    requires |history| <= n
    ensures |r| == n
    ensures forall k :: 0 <= k < n ==> r[k] == if k < |history| then history[k] else []
    decreases n
  {
    if |history| == n then history else Padded(history, n - 1) + [[]]
  }

  function SentNow(history: seq<seq<Sent>>, candidates: seq<Candidate>, now: nat, elapsed: nat): (r: seq<seq<Sent>>)
    requires |history| == |candidates|
    ensures |r| == |history|
    ensures forall k :: 0 <= k < |r| ==>
              r[k] == if Due(candidates[k], now, elapsed) then history[k] + [Sent(now, None)] else history[k]
  {
    if history == [] then []
    else
      var n := |history| - 1;
      SentNow(history[..n], candidates[..n], now, elapsed)
      + [if Due(candidates[n], now, elapsed) then history[n] + [Sent(now, None)] else history[n]]
  }

  function Marked(h: seq<Sent>, now: nat): seq<Sent> {
    if h == [] then h else h[|h| - 1 := h[|h| - 1].(rtt := Some(Since(now, h[|h| - 1].at)))]
  }

  function MarkedNow(history: seq<seq<Sent>>, candidates: seq<Candidate>, from: SocketAddr, tx: Tx, now: nat)
    : (r: seq<seq<Sent>>)
    requires |history| == |candidates|
    ensures |r| == |history|
    ensures forall k :: 0 <= k < |r| ==>
              r[k] == if Answers(candidates[k], from, tx) then Marked(history[k], now) else history[k]
  {
    if history == [] then []
    else
      var n := |history| - 1;
      MarkedNow(history[..n], candidates[..n], from, tx, now)
      + [if Answers(candidates[n], from, tx) then Marked(history[n], now) else history[n]]
  }

  /** Whether a round of probes goes out at all at this reading. */
  predicate Fires(s: State, now: nat) {
    s.fireAt.Some? && s.fireAt.value <= now < s.fireAt.value + GIVE_UP && s.winner.None?
  }

  function Grow(l: Log, s: State): Log
    requires |l.history| <= |s.candidates|
  {
    l.(s := s, history := Padded(l.history, |s.candidates|))
  }

  predicate Shaped(l: Log) {
    |l.history| == |l.s.candidates|
  }

  /** One call; the gate sends one start signal, so a second is not part of a run. */
  function Step(l: Log, op: Op): (r: Log)
    requires Shaped(l)
    ensures Shaped(r)
  {
    match op
    case VouchFor(addr) => l.(s := Vouch(l.s, addr), heard := l.heard + {Unmap(addr)})
    case Discover(addr) =>
      Grow(l, AddDiscovered(l.s, addr).0).(heard := l.heard + {Unmap(addr)})
    case PeerList(addrs) =>
      Grow(l, AddPeers(l.s, addrs).0)
    case StartSignal(at) => if l.s.fireAt.Some? then l else l.(s := l.s.(fireAt := Some(at + FIRE_IN)))
    case Probe(now, draw) =>
      var s := DueProbes(l.s, now, draw).0;
      if Fires(l.s, now) then
        l.(s := s, history := SentNow(l.history, l.s.candidates, now, now - l.s.fireAt.value))
      else l.(s := s)
    case Hear(from, pong, now) =>
      if l.s.winner.Some? || !pong.isPong || pong.attempt != l.s.id then l
      else l.(s := OnPong(l.s, from, pong, now).0, history := MarkedNow(l.history, l.s.candidates, from, pong.tx, now))
    case Settle(before) => l.(s := Decide(before, l.s).0)
    case Fail => l.(s := l.s.(winner := None))
  }

  // ----- who got in -----

  function Discoveries(candidates: seq<Candidate>): nat {
    if candidates == [] then 0
    else Discoveries(candidates[..|candidates| - 1]) + if candidates[|candidates| - 1].source.Discovery? then 1 else 0
  }

  predicate Vetted(c: Candidate, vouched: seq<SocketAddr>) {
    && !IsMapped(c.addr) && IsProbeable(c.addr)
    && (c.source.PeerReported? && !IsGloballyRoutable(c.addr) ==> c.addr in vouched)
  }

  ghost predicate Admitted(s: State, heard: set<SocketAddr>) {
    && |s.candidates| <= MAX_CANDIDATES
    && (forall k :: 0 <= k < |s.candidates| ==> Vetted(s.candidates[k], s.vouched))
    && (forall j, k :: 0 <= j < k < |s.candidates| ==> s.candidates[j].addr != s.candidates[k].addr)
    && Discoveries(s.candidates) == s.discovered <= DISCOVERY_SLOTS
    && (forall a :: a in s.vouched <==> a in heard)
  }

  lemma AddKeeps(s: State, heard: set<SocketAddr>, addr: SocketAddr, source: CandidateSource)
    requires Admitted(s, heard) && (source.Discovery? ==> s.discovered < DISCOVERY_SLOTS)
    ensures var (after, added) := AddCandidate(s, addr, source);
            Admitted(after.(discovered := s.discovered + if added && source.Discovery? then 1 else 0), heard)
  {
    hide IsProbeable, IsGloballyRoutable, IsMapped;
    assert (s.candidates + [Fresh(Unmap(addr), source)])[..|s.candidates|] == s.candidates;
  }

  lemma VouchKeeps(s: State, heard: set<SocketAddr>, addr: SocketAddr)
    requires Admitted(s, heard)
    ensures Admitted(Vouch(s, addr), heard + {Unmap(addr)})
  {
    hide IsProbeable, IsGloballyRoutable, IsMapped;
    forall k | 0 <= k < |s.candidates|
      ensures Vetted(s.candidates[k], Vouch(s, addr).vouched)
    {
      assert Vetted(s.candidates[k], s.vouched);
    }
  }

  /** A discovery vouches whether or not it gets a slot, and takes at most four of them. */
  lemma DiscoverKeeps(s: State, heard: set<SocketAddr>, addr: SocketAddr)
    requires Admitted(s, heard)
    ensures Admitted(AddDiscovered(s, addr).0, heard + {Unmap(addr)})
  {
    hide Admitted;
    VouchKeeps(s, heard, addr);
    var s1 := Vouch(s, addr);
    if s1.discovered < DISCOVERY_SLOTS {
      AddKeeps(s1, heard + {Unmap(addr)}, addr, Discovery);
      var (s2, added) := AddCandidate(s1, addr, Discovery);
      assert s2.(discovered := s1.discovered) == s2;
    }
  }

  /** Whatever a peer lists, nothing new is vouched for and no slot is discovery's. */
  lemma {:induction false} PeersKeep(s: State, heard: set<SocketAddr>, addrs: seq<SocketAddr>)
    requires Admitted(s, heard)
    ensures var after := AddPeers(s, addrs).0;
            Admitted(after, heard) && after.vouched == s.vouched && after.discovered == s.discovered
  {
    if addrs != [] {
      hide Admitted;
      PeersKeep(s, heard, addrs[..|addrs| - 1]);
      var s1 := AddPeers(s, addrs[..|addrs| - 1]).0;
      AddKeeps(s1, heard, addrs[|addrs| - 1], PeerReported);
      var s2 := AddCandidate(s1, addrs[|addrs| - 1], PeerReported).0;
      assert s2.(discovered := s1.discovered + 0) == s2;
    }
  }

  /** Probing, answering and deciding change no address, source or vouching. */
  predicate SameEntries(a: State, b: State) {
    && a.vouched == b.vouched && a.discovered == b.discovered
    && |a.candidates| == |b.candidates|
    && forall k :: 0 <= k < |a.candidates| ==>
         a.candidates[k].addr == b.candidates[k].addr && a.candidates[k].source == b.candidates[k].source
  }

  lemma {:induction false} SameDiscoveries(a: seq<Candidate>, b: seq<Candidate>)
    requires |a| == |b| && forall k :: 0 <= k < |a| ==> a[k].source == b[k].source
    ensures Discoveries(a) == Discoveries(b)
  {
    if a != [] {
      SameDiscoveries(a[..|a| - 1], b[..|b| - 1]);
    }
  }

  lemma SameEntriesKeep(a: State, b: State, heard: set<SocketAddr>)
    requires Admitted(a, heard) && SameEntries(a, b)
    ensures Admitted(b, heard)
  {
    hide IsProbeable, IsGloballyRoutable, IsMapped;
    SameDiscoveries(a.candidates, b.candidates);
    forall k | 0 <= k < |b.candidates|
      ensures Vetted(b.candidates[k], b.vouched)
    {
      assert Vetted(a.candidates[k], a.vouched);
    }
  }

  lemma StepAdmits(l: Log, op: Op)
    requires Shaped(l) && Admitted(l.s, l.heard)
    ensures Admitted(Step(l, op).s, Step(l, op).heard)
  {
    match op {
      case VouchFor(addr) => VouchKeeps(l.s, l.heard, addr);
      case Discover(addr) => DiscoverKeeps(l.s, l.heard, addr);
      case PeerList(addrs) => PeersKeep(l.s, l.heard, addrs);
      case _ =>
        hide Admitted, Step;
        SameEntriesKeep(l.s, Step(l, op).s, l.heard);
    }
  }

  // ----- what each candidate was sent, and what it answered -----

  /** The pings that have had their chance: all of them, but for one in flight. */
  function Settled(h: seq<Sent>): seq<Sent> {
    if h != [] && h[|h| - 1].rtt.None? then h[..|h| - 1] else h
  }

  /** The round trips of the unbroken run of answers at the end. */
  function Streak(h: seq<Sent>): seq<nat> {
    if h == [] || h[|h| - 1].rtt.None? then [] else Streak(h[..|h| - 1]) + [h[|h| - 1].rtt.value]
  }

  /** Every round trip measured, in order. */
  function Rtts(h: seq<Sent>): seq<nat> {
    if h == [] then []
    else Rtts(h[..|h| - 1]) + if h[|h| - 1].rtt.Some? then [h[|h| - 1].rtt.value] else []
  }

  /** The most pings sent by the time `elapsed` has passed since the attempt fired. */
  function Allowed(elapsed: nat): nat {
    if elapsed < FAST_WINDOW then elapsed / FAST_INTERVAL + 1
    else 30 + (elapsed - FAST_WINDOW) / SLOW_INTERVAL + 1
  }

  predicate InWindow(h: seq<Sent>, fireAt: nat) {
    && (forall k :: 0 <= k < |h| ==> fireAt <= h[k].at < fireAt + GIVE_UP)
    && (h != [] && h[|h| - 1].at >= fireAt ==> |h| <= Allowed(h[|h| - 1].at - fireAt))
  }

  predicate InFlight(c: Candidate, tx: Tx, at: nat) {
    c.outstanding == map[tx := at]
  }

  ghost predicate HasInFlight(c: Candidate, at: nat) {
    exists tx :: InFlight(c, tx, at)
  }

  /** The candidate's fields are its history, read at the end. */
  ghost predicate Tells(c: Candidate, h: seq<Sent>) {
    && (c.lastSent == if h == [] then None else Some(h[|h| - 1].at))
    && (if h != [] && h[|h| - 1].rtt.None? then HasInFlight(c, h[|h| - 1].at)
        else c.outstanding == map[])
    && c.consecutive == |Streak(Settled(h))|
    && c.recent == LastThree(Streak(Settled(h)))
    && c.srtt == Estimate(Rtts(h))
  }

  lemma PingTells(c: Candidate, h: seq<Sent>, tx: Tx, now: nat)
    requires Tells(c, h)
    ensures Tells(Pinged(c, tx, now), h + [Sent(now, None)])
  {
    var after := h + [Sent(now, None)];
    assert Settled(after) == h;
    if h != [] && h[|h| - 1].rtt.None? {
      var t :| InFlight(c, t, h[|h| - 1].at);
      assert t in c.outstanding;
      assert Streak(h) == [];
    }
    assert InFlight(Pinged(c, tx, now), tx, now);
    assert Rtts(after) == Rtts(h) by {
      assert after[..|h|] == h;
      assert Rtts(after) == Rtts(h) + [];
    }
  }

  lemma AnswerTells(c: Candidate, h: seq<Sent>, tx: Tx, now: nat)
    requires Tells(c, h) && tx in c.outstanding
    ensures Tells(Answered(c, tx, now), Marked(h, now))
  {
    var last := h[|h| - 1];
    var t :| InFlight(c, t, last.at);
    assert t == tx && c.outstanding - {tx} == map[];
    var after := Marked(h, now);
    assert after[..|h| - 1] == h[..|h| - 1];
    var before, rtt := Streak(h[..|h| - 1]), Since(now, last.at);
    assert Streak(after) == before + [rtt];
    assert LastThree(LastThree(before) + [rtt]) == LastThree(before + [rtt]);
    RttMarked(h, now);
  }

  lemma {:induction false} RttsMarked(h: seq<Sent>, now: nat)
    requires h != [] && h[|h| - 1].rtt.None?
    ensures Rtts(Marked(h, now)) == Rtts(h) + [Since(now, h[|h| - 1].at)]
  {
    assert Marked(h, now)[..|h| - 1] == h[..|h| - 1];
    assert Rtts(h) == Rtts(h[..|h| - 1]) + [];
  }

  /** A measured round trip is one more sample of the estimate. */
  lemma {:induction false} RttMarked(h: seq<Sent>, now: nat)
    requires h != [] && h[|h| - 1].rtt.None?
    ensures Estimate(Rtts(Marked(h, now))) == Some(Smoothed(Estimate(Rtts(h)), Since(now, h[|h| - 1].at)))
  {
    hide Rtts, Marked, Smoothed;
    RttsMarked(h, now);
    assert (Rtts(h) + [Since(now, h[|h| - 1].at)])[..|Rtts(h)|] == Rtts(h);
  }

  lemma PingInWindow(h: seq<Sent>, fireAt: nat, now: nat, c: Candidate)
    requires InWindow(h, fireAt) && Tells(c, h)
    requires fireAt <= now < fireAt + GIVE_UP && Due(c, now, now - fireAt)
    ensures InWindow(h + [Sent(now, None)], fireAt)
  {
    hide Streak;
  }

  /** 30 fast and 7 slow. */
  lemma BudgetIs37(elapsed: nat)
    requires elapsed < GIVE_UP
    ensures Allowed(elapsed) <= 37
  {
  }
}
