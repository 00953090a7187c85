/**
 Which pongs count, when an attempt fires and gives up, and how often it wins, over
 whole runs (crates/mosschat-net/src/punch.rs:962-1002, 1008-1163). What a pong answers
 is told from the packets handed to the socket, not from the table.
 */
module AttemptAnswers {
  import opened Common
  import opened Addresses
  import opened Attempt
  import opened AttemptRuns
  import opened AttemptSafety
  import opened AttemptWire

  // ----- which pongs count -----

  /** The last packet to this candidate's address has not been answered, and this pong answers it, from there. */
  predicate Hits(w: Wire, k: nat, from: SocketAddr, pong: Pong)
    requires Shaped(w.l) && k < |w.l.history|
  {
    var packets := To(w.sent, w.l.s.candidates[k].addr);
    && w.l.s.winner.None? && pong.isPong && pong.attempt == w.l.s.id
    && from == w.l.s.candidates[k].addr
    && packets != [] && packets[|packets| - 1].tx == pong.tx
    && w.l.history[k] != [] && w.l.history[k][|w.l.history[k]| - 1].rtt.None?
  }

  lemma {:induction false} AnswersIffHits(w: Wire, k: nat, from: SocketAddr, pong: Pong)
    requires Shaped(w.l) && k < |w.l.history| && Tells(w.l.s.candidates[k], w.l.history[k])
    requires Agrees(w.l.s.candidates[k], w.l.history[k], To(w.sent, w.l.s.candidates[k].addr))
    requires w.l.s.winner.None? && pong.isPong && pong.attempt == w.l.s.id
    ensures Answers(w.l.s.candidates[k], from, pong.tx) <==> Hits(w, k, from, pong)
  {
    hide Streak, Settled, Rtts, Estimate, To;
    var c, h := w.l.s.candidates[k], w.l.history[k];
    if h != [] && h[|h| - 1].rtt.None? {
      var tx :| InFlight(c, tx, h[|h| - 1].at);
      assert tx in c.outstanding;
    }
  }

  /** What an answer is worth: the time since the packet it answers left. */
  predicate Measures(c: Candidate, after: Candidate, packet: Packet, now: nat) {
    && after.addr == c.addr && after.source == c.source && after.lastSent == c.lastSent && after.givenUp == c.givenUp
    && after.outstanding == map[] && after.consecutive == c.consecutive + 1
    && after.recent == LastThree(c.recent + [Since(now, packet.at)])
  }

  lemma {:induction false} HitMeasures(c: Candidate, h: seq<Sent>, packets: seq<Packet>, tx: Tx, now: nat)
    requires Agrees(c, h, packets) && tx in c.outstanding
    ensures packets != [] && Measures(c, Answered(c, tx, now), packets[|packets| - 1], now)
  {
    hide LastThree, Smoothed;
    assert c.outstanding - {tx} == map[];
  }

  ghost predicate PongIsHeard(w: Wire, from: SocketAddr, pong: Pong, now: nat)
    requires Shaped(w.l)
  {
    var (after, counted) := OnPong(w.l.s, from, pong, now);
    && |after.candidates| == |w.l.history|
    && (counted <==> exists k :: 0 <= k < |w.l.history| && Hits(w, k, from, pong))
    && (forall k :: 0 <= k < |w.l.history| ==>
          if Hits(w, k, from, pong) then
            var packets := To(w.sent, w.l.s.candidates[k].addr);
            Measures(w.l.s.candidates[k], after.candidates[k], packets[|packets| - 1], now)
          else after.candidates[k] == w.l.s.candidates[k])
    && after.(candidates := w.l.s.candidates) == w.l.s
  }

  lemma {:induction false} OnePongIsHeard(w: Wire, from: SocketAddr, pong: Pong, now: nat)
    requires Matches(w) && Recorded(w.l)
    ensures PongIsHeard(w, from, pong, now)
  {
    hide Agrees, Tells, Timed, Measures, Answered, Names, Total;
    var (after, counted) := OnPong(w.l.s, from, pong, now);
    if w.l.s.winner.None? && pong.isPong && pong.attempt == w.l.s.id {
      forall k | 0 <= k < |w.l.history|
        ensures Answers(w.l.s.candidates[k], from, pong.tx) <==> Hits(w, k, from, pong)
        ensures Hits(w, k, from, pong) ==>
                  var packets := To(w.sent, w.l.s.candidates[k].addr);
                  Measures(w.l.s.candidates[k], after.candidates[k], packets[|packets| - 1], now)
      {
        AnswersIffHits(w, k, from, pong);
        if Answers(w.l.s.candidates[k], from, pong.tx) {
          HitMeasures(w.l.s.candidates[k], w.l.history[k], To(w.sent, w.l.s.candidates[k].addr), pong.tx, now);
        }
      }
    }
  }

  /**
   In every run a pong counts if and only if nothing has won yet, it is a pong of this
   attempt, it comes from a candidate's own address and it carries the tx id of the last
   packet sent there, not answered before; it is worth the time since that packet left;
   and it changes no other candidate, and nothing else.
   */
  lemma {:induction false} PongsCountIff(id: Id, gateReflected: Option<SocketAddr>, ops: seq<Op>, from: SocketAddr, pong: Pong, now: nat)
    ensures PongIsHeard(GoOn(Wire(Start(id, gateReflected), []), ops), from, pong, now)
  {
    hide *;
    StartIsShaped(id, gateReflected);
    WireIsARun(Wire(Start(id, gateReflected), []), ops);
    GoOnMatches(id, gateReflected, ops);
    AttemptSafety.RunKeeps(id, gateReflected, ops);
    KeepsIsRecorded(Run(Start(id, gateReflected), ops));
    OnePongIsHeard(GoOn(Wire(Start(id, gateReflected), []), ops), from, pong, now);
  }

  lemma StartIsShaped(id: Id, gateReflected: Option<SocketAddr>)
    ensures Shaped(Start(id, gateReflected))
  {
  }

  lemma KeepsIsRecorded(l: Log)
    requires AttemptSafety.Keeps(l)
    ensures Recorded(l)
  {
  }

  // ----- winning -----

  /**
   A decision is told exactly when nothing had won and somebody now answers three in a
   row; what is told is what is kept; and it is told once.
   */
  lemma WonOnce(before: Order, s: State)
    ensures var (after, told) := Decide(before, s);
            && (told.Some? <==> s.winner.None? && exists k :: 0 <= k < |s.candidates| && s.candidates[k].consecutive >= 3 && s.candidates[k].recent != [])
            && after.winner == (if s.winner.Some? then s.winner else told)
            && (told.Some? ==> Decide(before, after) == (after, None))
  {
    BestIffEligible(before, s.candidates);
    hide Best;
  }

  lemma {:induction false} BestIffEligible(before: Order, candidates: seq<Candidate>)
    ensures Best(before, candidates).Some? <==> exists k :: 0 <= k < |candidates| && Eligible(candidates[k])
  {
    if candidates != [] {
      var so := candidates[..|candidates| - 1];
      BestIffEligible(before, so);
      hide Eligible, Bid, Better;
      if k :| 0 <= k < |candidates| && Eligible(candidates[k]) {
        assert k < |so| ==> so[k] == candidates[k];
      }
      if k :| 0 <= k < |so| && Eligible(so[k]) {
        assert candidates[k] == so[k];
      }
    }
  }

  // ----- adding -----

  /** The count returned is the number of candidates a peer's list added. */
  lemma {:induction false} TakenAreCounted(s: State, addrs: seq<SocketAddr>)
    ensures var (after, n) := AddPeers(s, addrs); |after.candidates| == |s.candidates| + n
  {
    if addrs != [] {
      TakenAreCounted(s, addrs[..|addrs| - 1]);
      hide IsProbeable, IsGloballyRoutable, Unmap, Names;
    }
  }

  /** One more candidate at the end of the table, in its one spelling and untried; or the table as it was. */
  predicate Takes(s: State, after: State, addr: SocketAddr, source: CandidateSource, taken: bool) {
    after.candidates == if taken then s.candidates + [Fresh(Unmap(addr), source)] else s.candidates
  }

  /** What any candidate must be: probeable, new to the table, and with room left in it. */
  predicate Fit(s: State, addr: SocketAddr) {
    |s.candidates| < 16 && IsProbeable(Unmap(addr)) && forall k :: 0 <= k < |s.candidates| ==> s.candidates[k].addr != Unmap(addr)
  }

  /**
   In every run: a peer's address is taken if and only if it is fit, and routable or
   vouched for by gate or network; an overheard one if and only if it is fit and fewer
   than four slots have gone to such; the caller is told; and taking adds that candidate only.
   */
  lemma TakenIff(id: Id, gateReflected: Option<SocketAddr>, ops: seq<Op>, addr: SocketAddr)
    ensures var l := Run(Start(id, gateReflected), ops);
            var (after, taken) := AddCandidate(l.s, addr, PeerReported);
            && (taken <==> Fit(l.s, addr) && (IsGloballyRoutable(Unmap(addr)) || Unmap(addr) in l.heard))
            && Takes(l.s, after, addr, PeerReported, taken)
    ensures var l := Run(Start(id, gateReflected), ops);
            var (after, taken) := AddDiscovered(l.s, addr);
            && (taken <==> Fit(l.s, addr) && Discoveries(l.s.candidates) < 4)
            && Takes(l.s, after, addr, Discovery, taken)
  {
    AttemptSafety.RunKeeps(id, gateReflected, ops);
    var l := Run(Start(id, gateReflected), ops);
    assert Admitted(l.s, l.heard);
    hide Run, AttemptSafety.Keeps, IsProbeable, IsGloballyRoutable, IsMapped, Discoveries, Vetted;
  }

  // ----- when it fires -----

  /** The first start signal of a run. */
  function FirstSignal(ops: seq<Op>): Option<nat> {
    if ops == [] then None
    else
      var so := FirstSignal(ops[..|ops| - 1]);
      if so.Some? then so else match ops[|ops| - 1] case StartSignal(at) => Some(at) case _ => None
  }

  lemma FiresLater(l: Log, op: Op)
    requires Shaped(l)
    ensures Step(l, op).s.fireAt == if l.s.fireAt.Some? then l.s.fireAt
                                    else match op case StartSignal(at) => Some(at + 200_000_000) case _ => None
  {
    match op {
      case Discover(addr) => DiscoverExtends(l.s, addr); hide AddDiscovered;
      case PeerList(addrs) => PeersExtend(l.s, addrs); hide AddPeers;
      case _ =>
    }
  }

  /** An attempt fires 200 ms after its first start signal, and at no other time. */
  lemma {:induction false} FiresOnTheSignal(id: Id, gateReflected: Option<SocketAddr>, ops: seq<Op>)
    ensures var signal := FirstSignal(ops);
            Run(Start(id, gateReflected), ops).s.fireAt == if signal.Some? then Some(signal.value + 200_000_000) else None
    decreases |ops|
  {
    if ops != [] {
      FiresOnTheSignal(id, gateReflected, ops[..|ops| - 1]);
      hide Step;
      FiresLater(Run(Start(id, gateReflected), ops[..|ops| - 1]), ops[|ops| - 1]);
    }
  }

  // ----- giving up -----

  /** The first n candidates have been given up. */
  predicate GivenUp(s: State, n: nat) {
    n <= |s.candidates| && forall k :: 0 <= k < n ==> s.candidates[k].givenUp
  }

  /** The first n candidates are sent nothing between the two. */
  predicate SameSent(before: Log, after: Log, n: nat) {
    n <= |before.history| && n <= |after.history| && forall k :: 0 <= k < n ==> |after.history[k]| == |before.history[k]|
  }

  lemma {:induction false} StepLeavesGivenUp(l: Log, op: Op, n: nat)
    requires Shaped(l) && GivenUp(l.s, n)
    ensures GivenUp(Step(l, op).s, n) && SameSent(l, Step(l, op), n)
  {
    match op {
      case Discover(addr) =>
        DiscoverExtends(l.s, addr);
        hide AddDiscovered;
        assert forall k :: 0 <= k < n ==> AddDiscovered(l.s, addr).0.candidates[k] == AddDiscovered(l.s, addr).0.candidates[..|l.s.candidates|][k];
      case PeerList(addrs) =>
        PeersExtend(l.s, addrs);
        hide AddPeers;
        assert forall k :: 0 <= k < n ==> AddPeers(l.s, addrs).0.candidates[k] == AddPeers(l.s, addrs).0.candidates[..|l.s.candidates|][k];
      case Probe(now, draw) => hide PingFirst, Interval;
      case _ =>
    }
  }

  /**
   Giving up is final: once an attempt polls ten seconds or more after it fired with
   nothing won, no candidate it has then is sent anything more, whatever the clock says
   and whatever is added, heard, decided or failed after that.
   */
  lemma {:induction false} GivingUpIsFinal(l: Log, now: nat, draw: nat -> Tx, ops: seq<Op>)
    requires Shaped(l) && l.s.winner.None? && l.s.fireAt.Some? && now >= l.s.fireAt.value + 10_000_000_000
    ensures var after := Run(Step(l, Probe(now, draw)), ops);
            GivenUp(after.s, |l.history|) && SameSent(l, after, |l.history|)
    decreases |ops|
  {
    if ops != [] {
      GivingUpIsFinal(l, now, draw, ops[..|ops| - 1]);
      hide Step, GivenUp;
      StepLeavesGivenUp(Run(Step(l, Probe(now, draw)), ops[..|ops| - 1]), ops[|ops| - 1], |l.history|);
    }
  }
}
