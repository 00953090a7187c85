/**
 What every run of an attempt guarantees: upgrades rest on three answers in a row
 and the best of those candidates is chosen whatever the table order, no candidate is
 sent more than 37 pings, and no peer widens what may be probed
 (crates/mosschat-net/src/punch.rs:49-62, 710-734, 795-945, 1008-1161).
 */
module AttemptSafety {
  import opened Common
  import opened Addresses
  import opened Attempt
  import opened AttemptRuns

  function Run(l: Log, ops: seq<Op>): (r: Log)
    requires Shaped(l)
    ensures Shaped(r)
    decreases |ops|
  {
    if ops == [] then l else Step(Run(l, ops[..|ops| - 1]), ops[|ops| - 1])
  }

  function Start(id: Id, gateReflected: Option<SocketAddr>): Log {
    var s := New(id, gateReflected);
    Log(s, set a | a in s.vouched, [])
  }

  predicate Timed(h: seq<Sent>, fireAt: Option<nat>) {
    if fireAt.None? then h == [] else InWindow(h, fireAt.value)
  }

  ghost predicate Recorded(l: Log) {
    && Shaped(l)
    && forall k :: 0 <= k < |l.history| ==> Tells(l.s.candidates[k], l.history[k]) && Timed(l.history[k], l.s.fireAt)
  }

  predicate Proved(candidates: seq<Candidate>, w: Winner) {
    exists k :: 0 <= k < |candidates| && Eligible(candidates[k]) && Bid(candidates[k]) == w
  }

  predicate WinnerProved(s: State) {
    s.winner.Some? ==> Proved(s.candidates, s.winner.value)
  }

  ghost predicate Keeps(l: Log) {
    Recorded(l) && Admitted(l.s, l.heard) && WinnerProved(l.s)
  }

  // ----- adding candidates only appends fresh ones -----

  predicate Extends(a: State, b: State) {
    && a.winner == b.winner && a.fireAt == b.fireAt
    && |a.candidates| <= |b.candidates| && b.candidates[..|a.candidates|] == a.candidates
    && forall k :: |a.candidates| <= k < |b.candidates| ==>
         b.candidates[k] == Fresh(b.candidates[k].addr, b.candidates[k].source)
  }

  lemma AddExtends(s: State, addr: SocketAddr, source: CandidateSource)
    ensures Extends(s, AddCandidate(s, addr, source).0)
  {
    hide IsProbeable, IsGloballyRoutable, IsMapped, Names;
  }

  lemma {:induction false} PeersExtend(s: State, addrs: seq<SocketAddr>)
    ensures Extends(s, AddPeers(s, addrs).0)
  {
    if addrs != [] {
      PeersExtend(s, addrs[..|addrs| - 1]);
      var s1 := AddPeers(s, addrs[..|addrs| - 1]).0;
      AddExtends(s1, addrs[|addrs| - 1], PeerReported);
      var s2 := AddCandidate(s1, addrs[|addrs| - 1], PeerReported).0;
      assert s2.candidates[..|s.candidates|] == s1.candidates[..|s.candidates|];
      hide AddCandidate;
    }
  }

  lemma DiscoverExtends(s: State, addr: SocketAddr)
    ensures Extends(s, AddDiscovered(s, addr).0)
  {
    AddExtends(Vouch(s, addr), addr, Discovery);
    hide AddCandidate;
  }

  lemma NothingSentTells(addr: SocketAddr, source: CandidateSource, fireAt: Option<nat>)
    ensures Tells(Fresh(addr, source), []) && Timed([], fireAt)
  {
  }

  lemma GrowKeeps(l: Log, s: State)
    requires Recorded(l) && WinnerProved(l.s) && Extends(l.s, s)
    ensures Recorded(Grow(l, s)) && WinnerProved(s)
  {
    hide Tells, InWindow, Mean;
    var n, history := |l.history|, Grow(l, s).history;
    forall k | 0 <= k < |history|
      ensures Tells(s.candidates[k], history[k]) && Timed(history[k], s.fireAt)
    {
      if k < n {
        assert s.candidates[k] == s.candidates[..n][k] == l.s.candidates[k] && history[k] == l.history[k];
      } else {
        NothingSentTells(s.candidates[k].addr, s.candidates[k].source, s.fireAt);
      }
    }
    if s.winner.Some? {
      var k :| 0 <= k < n && Eligible(l.s.candidates[k]) && Bid(l.s.candidates[k]) == s.winner.value;
      assert s.candidates[k] == s.candidates[..n][k];
    }
  }

  // ----- one round of probes, one pong, one decision -----

  predicate WasPinged(before: Candidate, after: Candidate, tx: Tx, now: nat) {
    after == Pinged(before, tx, now)
  }

  /** A round pings every due candidate and touches no other. */
  lemma {:induction false} RoundIsExact(candidates: seq<Candidate>, n: nat, now: nat, elapsed: nat, draw: nat -> Tx)
    requires n <= |candidates|
    ensures var after := PingFirst(candidates, n, now, elapsed, draw).0;
            forall k :: 0 <= k < |candidates| ==>
              if k < n && Due(candidates[k], now, elapsed) then exists tx :: WasPinged(candidates[k], after[k], tx, now)
              else after[k] == candidates[k]
  {
    if n > 0 {
      RoundIsExact(candidates, n - 1, now, elapsed, draw);
      var (before, sent) := PingFirst(candidates, n - 1, now, elapsed, draw);
      var after := PingFirst(candidates, n, now, elapsed, draw).0;
      if Due(candidates[n - 1], now, elapsed) {
        assert WasPinged(candidates[n - 1], after[n - 1], draw(|sent|), now);
      }
      hide Due, WasPinged;
      forall k | 0 <= k < |candidates|
        ensures if k < n && Due(candidates[k], now, elapsed) then exists tx :: WasPinged(candidates[k], after[k], tx, now)
                else after[k] == candidates[k]
      {
        if k != n - 1 {
          assert after[k] == before[k];
        }
      }
    }
  }

  lemma ProbeKeepsOne(c: Candidate, after: Candidate, h: seq<Sent>, fireAt: nat, now: nat)
    requires Tells(c, h) && InWindow(h, fireAt) && fireAt <= now < fireAt + GIVE_UP
    requires Due(c, now, now - fireAt) && exists tx :: WasPinged(c, after, tx, now)
    ensures Tells(after, h + [Sent(now, None)]) && InWindow(h + [Sent(now, None)], fireAt)
  {
    var tx :| WasPinged(c, after, tx, now);
    PingTells(c, h, tx, now);
    PingInWindow(h, fireAt, now, c);
  }

  lemma ProbeKeeps(l: Log, now: nat, draw: nat -> Tx)
    requires Recorded(l) && WinnerProved(l.s)
    ensures Recorded(Step(l, Probe(now, draw))) && WinnerProved(Step(l, Probe(now, draw)).s)
  {
    hide Tells, InWindow, Due, Pinged;
    var after := Step(l, Probe(now, draw));
    if Fires(l.s, now) {
      var elapsed := now - l.s.fireAt.value;
      RoundIsExact(l.s.candidates, |l.s.candidates|, now, elapsed, draw);
      forall k | 0 <= k < |after.history|
        ensures Tells(after.s.candidates[k], after.history[k]) && InWindow(after.history[k], l.s.fireAt.value)
      {
        assert Timed(l.history[k], l.s.fireAt);
        if Due(l.s.candidates[k], now, elapsed) {
          ProbeKeepsOne(l.s.candidates[k], after.s.candidates[k], l.history[k], l.s.fireAt.value, now);
        }
      }
    } else {
      forall k | 0 <= k < |after.history|
        ensures Tells(after.s.candidates[k], after.history[k]) && Timed(after.history[k], after.s.fireAt)
      {
        assert Timed(l.history[k], l.s.fireAt);
        GivenUpTells(l.s.candidates[k], l.history[k]);
      }
    }
  }

  lemma GivenUpTells(c: Candidate, h: seq<Sent>)
    requires Tells(c, h)
    ensures Tells(c.(givenUp := true), h)
  {
    if h != [] && h[|h| - 1].rtt.None? {
      var tx :| InFlight(c, tx, h[|h| - 1].at);
      assert InFlight(c.(givenUp := true), tx, h[|h| - 1].at);
    }
  }

  lemma MarkInWindow(h: seq<Sent>, fireAt: Option<nat>, now: nat)
    requires Timed(h, fireAt)
    ensures Timed(Marked(h, now), fireAt)
  {
  }

  lemma HearKeeps(l: Log, from: SocketAddr, pong: Pong, now: nat)
    requires Recorded(l) && WinnerProved(l.s)
    ensures Recorded(Step(l, Hear(from, pong, now))) && WinnerProved(Step(l, Hear(from, pong, now)).s)
  {
    hide Tells, Timed, Marked, Answered;
    var after := Step(l, Hear(from, pong, now));
    forall k | 0 <= k < |after.history|
      ensures Tells(after.s.candidates[k], after.history[k]) && Timed(after.history[k], after.s.fireAt)
    {
      assert Tells(l.s.candidates[k], l.history[k]) && Timed(l.history[k], l.s.fireAt);
      if Answers(l.s.candidates[k], from, pong.tx) {
        AnswerTells(l.s.candidates[k], l.history[k], pong.tx, now);
        MarkInWindow(l.history[k], l.s.fireAt, now);
      }
    }
  }

  lemma SettleKeeps(l: Log, before: Order)
    requires Recorded(l) && WinnerProved(l.s)
    ensures Recorded(Step(l, Settle(before))) && WinnerProved(Step(l, Settle(before)).s)
  {
    hide Tells, Timed, Proved, Best;
    BestIsProved(before, l.s.candidates);
  }

  lemma OthersKeep(l: Log, op: Op)
    requires Recorded(l) && WinnerProved(l.s) && (op.VouchFor? || op.StartSignal? || op.Fail?)
    ensures Recorded(Step(l, op)) && WinnerProved(Step(l, op).s)
  {
    hide Tells, InWindow, Proved, IsMapped;
    forall k | 0 <= k < |l.history|
      ensures Timed(l.history[k], Step(l, op).s.fireAt)
    {
      assert Timed(l.history[k], l.s.fireAt);
      if op.StartSignal? {
        NothingSentIsTimed(l.history[k], l.s.fireAt, op.at);
      }
    }
  }

  lemma NothingSentIsTimed(h: seq<Sent>, fireAt: Option<nat>, at: nat)
    requires Timed(h, fireAt)
    ensures fireAt.None? ==> Timed(h, Some(at + FIRE_IN))
  {
  }

  lemma StepKeeps(l: Log, op: Op)
    requires Keeps(l)
    ensures Keeps(Step(l, op))
  {
    StepAdmits(l, op);
    match op {
      case Discover(addr) =>
        hide Admitted, Recorded, WinnerProved, AddDiscovered;
        DiscoverExtends(l.s, addr);
        GrowKeeps(l, AddDiscovered(l.s, addr).0);
        HeardIsNotRecorded(Grow(l, AddDiscovered(l.s, addr).0), l.heard + {Unmap(addr)});
      case PeerList(addrs) =>
        hide Admitted, Recorded, WinnerProved, AddPeers;
        PeersExtend(l.s, addrs);
        GrowKeeps(l, AddPeers(l.s, addrs).0);
      case Probe(now, draw) => hide Admitted, Recorded, WinnerProved, Step; ProbeKeeps(l, now, draw);
      case Hear(from, pong, now) => hide Admitted, Recorded, WinnerProved, Step; HearKeeps(l, from, pong, now);
      case Settle(before) => hide Admitted, Recorded, WinnerProved, Step; SettleKeeps(l, before);
      case _ => hide Admitted, Recorded, WinnerProved, Step; OthersKeep(l, op);
    }
  }

  lemma HeardIsNotRecorded(l: Log, heard: set<SocketAddr>)
    requires Recorded(l)
    ensures Recorded(l.(heard := heard))
  {
  }

  /** An invariant of every run, whatever the clock says and whoever calls what. */
  lemma {:induction false} RunKeeps(id: Id, gateReflected: Option<SocketAddr>, ops: seq<Op>)
    ensures Keeps(Run(Start(id, gateReflected), ops))
    decreases |ops|
  {
    if ops != [] {
      RunKeeps(id, gateReflected, ops[..|ops| - 1]);
      hide Keeps;
      StepKeeps(Run(Start(id, gateReflected), ops[..|ops| - 1]), ops[|ops| - 1]);
    }
  }

  // ----- upgrades -----

  /**
   In every run: at most one ping in flight, a streak that is the unbroken run of
   answers at the end of the record, its last three round trips kept, and an estimate
   that smooths every round trip measured, in order.
   */
  lemma {:induction false} StreaksAreTrue(id: Id, gateReflected: Option<SocketAddr>, ops: seq<Op>, k: nat)
    requires k < |Run(Start(id, gateReflected), ops).history|
    ensures var l := Run(Start(id, gateReflected), ops);
            && |l.s.candidates[k].outstanding| <= 1
            && l.s.candidates[k].consecutive == |Streak(Settled(l.history[k]))|
            && |l.s.candidates[k].recent| == Min(3, l.s.candidates[k].consecutive)
            && l.s.candidates[k].recent == LastThree(Streak(Settled(l.history[k])))
            && l.s.candidates[k].srtt == Estimate(Rtts(l.history[k]))
  {
    RunKeeps(id, gateReflected, ops);
    hide Run, Admitted, Tells, Timed, WinnerProved;
    var l := Run(Start(id, gateReflected), ops);
    TellsTheStreak(l.s.candidates[k], l.history[k]);
  }

  lemma TellsTheStreak(c: Candidate, h: seq<Sent>)
    requires Tells(c, h)
    ensures |c.outstanding| <= 1
    ensures c.consecutive == |Streak(Settled(h))| && |c.recent| == Min(3, c.consecutive)
    ensures c.recent == LastThree(Streak(Settled(h))) && c.srtt == Estimate(Rtts(h))
  {
    hide Streak;
    if h != [] && h[|h| - 1].rtt.None? {
      var tx :| InFlight(c, tx, h[|h| - 1].at);
      assert |c.outstanding| == 1;
    }
  }

  predicate ThreeInARow(h: seq<Sent>, rtt: nat) {
    var n := |Settled(h)|;
    && n >= 3
    && (forall j :: n - 3 <= j < n ==> h[j].rtt.Some?)
    && rtt == (h[n - 3].rtt.value + h[n - 2].rtt.value + h[n - 1].rtt.value) / 3
  }

  lemma StreakEnds(h: seq<Sent>)
    requires |Streak(h)| >= 3
    ensures var n := |h|;
            && n >= 3 && (forall j :: n - 3 <= j < n ==> h[j].rtt.Some?)
            && LastThree(Streak(h)) == [h[n - 3].rtt.value, h[n - 2].rtt.value, h[n - 1].rtt.value]
  {
    var h1 := h[..|h| - 1];
    var h2 := h1[..|h1| - 1];
    assert h2 == h[..|h| - 2];
    assert Streak(h) == Streak(h1) + [h[|h| - 1].rtt.value];
    assert Streak(h1) == Streak(h2) + [h[|h| - 2].rtt.value];
    assert Streak(h2) == Streak(h2[..|h2| - 1]) + [h[|h| - 3].rtt.value];
  }

  /**
   Upgrade soundness: at all times the winner is a candidate that answered its last
   three settled pings, one after the other, and its round trip is their mean.
   */
  lemma {:induction false} WinnersAnsweredThreeInARow(id: Id, gateReflected: Option<SocketAddr>, ops: seq<Op>)
    ensures var l := Run(Start(id, gateReflected), ops);
            l.s.winner.Some? ==>
              exists k :: 0 <= k < |l.history| && l.s.candidates[k].addr == l.s.winner.value.addr && ThreeInARow(l.history[k], l.s.winner.value.rtt)
  {
    RunKeeps(id, gateReflected, ops);
    var l := Run(Start(id, gateReflected), ops);
    hide Run, Admitted, Timed, Tells, Eligible, Bid, ThreeInARow;
    if l.s.winner.Some? {
      var k :| 0 <= k < |l.s.candidates| && Eligible(l.s.candidates[k]) && Bid(l.s.candidates[k]) == l.s.winner.value;
      EligibleAnsweredThree(l.s.candidates[k], l.history[k]);
    }
  }

  lemma EligibleAnsweredThree(c: Candidate, h: seq<Sent>)
    requires Tells(c, h) && Eligible(c)
    ensures Bid(c).addr == c.addr && ThreeInARow(h, Bid(c).rtt)
  {
    hide Streak;
    StreakEnds(Settled(h));
    SumOfThree(c.recent);
  }

  lemma SumOfThree(xs: seq<nat>)
    requires |xs| == 3
    ensures Sum(xs) == xs[0] + xs[1] + xs[2]
  {
    var two := xs[..2];
    var one := two[..1];
    assert Sum(one) == 0 + one[0] && Sum(two) == Sum(one) + two[1];
  }

  lemma {:induction false} BestIsProved(before: Order, candidates: seq<Candidate>)
    ensures Best(before, candidates).Some? ==> Proved(candidates, Best(before, candidates).value)
  {
    if candidates != [] {
      var n := |candidates| - 1;
      BestIsProved(before, candidates[..n]);
      if Best(before, candidates[..n]).Some? {
        var k :| 0 <= k < n && Eligible(candidates[..n][k]) && Bid(candidates[..n][k]) == Best(before, candidates[..n]).value;
        assert candidates[k] == candidates[..n][k];
      }
    }
  }

  lemma {:induction false} BestIsUnbeaten(before: Order, candidates: seq<Candidate>, k: nat)
    requires StrictTotal(before) && k < |candidates| && Eligible(candidates[k])
    ensures var best := Best(before, candidates);
            best.Some? && (best.value == Bid(candidates[k]) || Better(before, best.value, Bid(candidates[k])))
  {
    var n := |candidates| - 1;
    if k < n {
      BestIsUnbeaten(before, candidates[..n], k);
    }
    hide Eligible, Bid;
  }

  /** The one chosen has the least mean of three answers, and of those with that mean the first address. */
  lemma BestIsLeast(before: Order, candidates: seq<Candidate>, k: nat)
    requires StrictTotal(before) && k < |candidates|
    requires candidates[k].consecutive >= 3 && candidates[k].recent != []
    ensures var best := Best(before, candidates);
            && best.Some? && best.value.rtt <= Sum(candidates[k].recent) / |candidates[k].recent|
            && (best.value.rtt == Sum(candidates[k].recent) / |candidates[k].recent| ==>
                  best.value.addr == candidates[k].addr || before(best.value.addr, candidates[k].addr))
  {
    BestIsUnbeaten(before, candidates, k);
  }

  /** The choice does not depend on the order the candidates came in. */
  lemma BestIgnoresTableOrder(before: Order, one: seq<Candidate>, other: seq<Candidate>)
    requires StrictTotal(before) && forall c :: c in one <==> c in other
    ensures Best(before, one) == Best(before, other)
  {
    BestIsProved(before, one);
    BestIsProved(before, other);
    if Best(before, one).Some? {
      BestBeats(before, one, other);
    }
    if Best(before, other).Some? {
      BestBeats(before, other, one);
    }
  }

  lemma BestBeats(before: Order, one: seq<Candidate>, other: seq<Candidate>)
    requires StrictTotal(before) && (forall c :: c in one ==> c in other) && Best(before, one).Some?
    ensures var a, b := Best(before, one), Best(before, other);
            b.Some? && (b == a || Better(before, b.value, a.value))
  {
    BestIsProved(before, one);
    var j :| 0 <= j < |one| && Eligible(one[j]) && Bid(one[j]) == Best(before, one).value;
    assert one[j] in other;
    var k :| 0 <= k < |other| && other[k] == one[j];
    BestIsUnbeaten(before, other, k);
  }

  // ----- the probe budget -----

  function Total(history: seq<seq<Sent>>): nat {
    if history == [] then 0 else Total(history[..|history| - 1]) + |history[|history| - 1]|
  }

  lemma {:induction false} TotalWithin(history: seq<seq<Sent>>, each: nat)
    requires forall k :: 0 <= k < |history| ==> |history[k]| <= each
    ensures Total(history) <= |history| * each
  {
    if history != [] {
      TotalWithin(history[..|history| - 1], each);
    }
  }

  /**
   After one start signal no candidate is ever sent more than 37 pings, so an attempt
   sends at most 592, none before it fires nor ten seconds or more after.
   */
  lemma {:induction false} ProbesAreBudgeted(id: Id, gateReflected: Option<SocketAddr>, ops: seq<Op>)
    ensures var l := Run(Start(id, gateReflected), ops);
            && (forall k :: 0 <= k < |l.history| ==> |l.history[k]| <= 37)
            && Total(l.history) <= 592
            && (forall j, k :: 0 <= k < |l.history| && 0 <= j < |l.history[k]| ==>
                  l.s.fireAt.Some? && l.s.fireAt.value <= l.history[k][j].at < l.s.fireAt.value + GIVE_UP)
  {
    RunKeeps(id, gateReflected, ops);
    var l := Run(Start(id, gateReflected), ops);
    hide Run, Tells, Timed, WinnerProved;
    assert |l.history| <= 16;
    hide Admitted;
    forall k | 0 <= k < |l.history|
      ensures |l.history[k]| <= 37 && forall j :: 0 <= j < |l.history[k]| ==>
                l.s.fireAt.Some? && l.s.fireAt.value <= l.history[k][j].at < l.s.fireAt.value + GIVE_UP
    {
      TimedIsBudgeted(l.history[k], l.s.fireAt);
    }
    TotalWithin(l.history, 37);
  }

  lemma TimedIsBudgeted(h: seq<Sent>, fireAt: Option<nat>)
    requires Timed(h, fireAt)
    ensures |h| <= 37
    ensures forall j :: 0 <= j < |h| ==> fireAt.Some? && fireAt.value <= h[j].at < fireAt.value + GIVE_UP
  {
    if h != [] {
      assert fireAt.value <= h[|h| - 1].at < fireAt.value + GIVE_UP;
      BudgetIs37(h[|h| - 1].at - fireAt.value);
    }
  }

  // ----- the budget is reached -----

  /** The clock readings of a caller that polls as soon as each ping is due. */
  function PollAt(n: nat): nat {
    if n < 30 then n * FAST_INTERVAL else 29 * FAST_INTERVAL + (n - 29) * SLOW_INTERVAL
  }

  function Polls(fireAt: nat, n: nat, tx: Tx): (r: seq<Op>)
    ensures |r| == n
  {
    if n == 0 then [] else Polls(fireAt, n - 1, tx) + [Probe(fireAt + PollAt(n - 1), (k: nat) => tx)]
  }

  /** Fired, and every candidate sent n pings, the last of them one interval ago at most, and silent. */
  predicate Silent(l: Log, fireAt: nat, n: nat) {
    && |l.history| == |l.s.candidates| && l.s.fireAt == Some(fireAt) && l.s.winner.None?
    && forall k :: 0 <= k < |l.history| ==>
         && |l.history[k]| == n && !l.s.candidates[k].givenUp
         && l.s.candidates[k].lastSent == if n == 0 then None else Some(fireAt + PollAt(n - 1))
  }

  /** At the next reading every candidate is due. */
  lemma NextIsDue(c: Candidate, fireAt: nat, n: nat)
    requires n < 37 && !c.givenUp && c.lastSent == if n == 0 then None else Some(fireAt + PollAt(n - 1))
    ensures Due(c, fireAt + PollAt(n), PollAt(n))
  {
  }

  lemma PingIsSilent(c: Candidate, after: Candidate, now: nat)
    requires exists tx :: WasPinged(c, after, tx, now)
    ensures after.givenUp == c.givenUp && after.lastSent == Some(now)
  {
  }

  lemma FiringSends(l: Log, now: nat, draw: nat -> Tx)
    requires Shaped(l) && Fires(l.s, now)
    ensures var after, elapsed := Step(l, Probe(now, draw)), now - l.s.fireAt.value;
            && after.s == l.s.(candidates := PingFirst(l.s.candidates, |l.s.candidates|, now, elapsed, draw).0)
            && after.history == SentNow(l.history, l.s.candidates, now, elapsed)
  {
    hide PingFirst, SentNow;
  }

  lemma PollPings(l: Log, fireAt: nat, n: nat, tx: Tx)
    requires n < 37 && Silent(l, fireAt, n)
    ensures Silent(Step(l, Probe(fireAt + PollAt(n), (k: nat) => tx)), fireAt, n + 1)
  {
    hide Due, PollAt, PingFirst, WasPinged, Step, SentNow;
    var now, draw := fireAt + PollAt(n), (k: nat) => tx;
    var after := Step(l, Probe(now, draw));
    NextIsBeforeTheEnd(n);
    FiringSends(l, now, draw);
    RoundIsExact(l.s.candidates, |l.s.candidates|, now, PollAt(n), draw);
    forall k | 0 <= k < |l.history|
      ensures |after.history[k]| == n + 1 && !after.s.candidates[k].givenUp && after.s.candidates[k].lastSent == Some(now)
    {
      NextIsDue(l.s.candidates[k], fireAt, n);
      PingIsSilent(l.s.candidates[k], after.s.candidates[k], now);
    }
  }

  lemma NextIsBeforeTheEnd(n: nat)
    requires n < 37
    ensures PollAt(n) < GIVE_UP
  {
  }

  lemma {:induction false} PollsPing(l: Log, fireAt: nat, n: nat, tx: Tx)
    requires n <= 37 && Shaped(l) && Silent(l, fireAt, 0)
    ensures Silent(Run(l, Polls(fireAt, n, tx)), fireAt, n)
  {
    if n > 0 {
      PollsPing(l, fireAt, n - 1, tx);
      var so := Polls(fireAt, n - 1, tx);
      PollPings(Run(l, so), fireAt, n - 1, tx);
      assert Polls(fireAt, n, tx)[..|so|] == so;
      hide Silent, Step, PollAt;
    }
  }

  /** Addresses a stranger may name: distinct, in their plain spelling, and routed by the wider internet. */
  predicate Nameable(addrs: seq<SocketAddr>) {
    && |addrs| <= MAX_CANDIDATES
    && (forall k :: 0 <= k < |addrs| ==> !IsMapped(addrs[k]) && IsProbeable(addrs[k]) && IsGloballyRoutable(addrs[k]))
    && (forall j, k :: 0 <= j < k < |addrs| ==> addrs[j] != addrs[k])
  }

  lemma {:induction false} AllAreTaken(s: State, addrs: seq<SocketAddr>)
    requires Nameable(addrs) && s.candidates == []
    ensures var after := AddPeers(s, addrs).0;
            && after == s.(candidates := after.candidates) && |after.candidates| == |addrs|
            && forall k :: 0 <= k < |addrs| ==> after.candidates[k] == Fresh(addrs[k], PeerReported)
  {
    if addrs != [] {
      var so := addrs[..|addrs| - 1];
      assert Nameable(so);
      hide IsProbeable, IsGloballyRoutable, IsMapped;
      AllAreTaken(s, so);
      assert !Names(AddPeers(s, so).0.candidates, addrs[|addrs| - 1]);
    }
  }

  function Firing(addrs: seq<SocketAddr>, at: nat): seq<Op> {
    [PeerList(addrs), StartSignal(at)]
  }

  lemma FiringIsSilent(id: Id, addrs: seq<SocketAddr>, at: nat)
    requires Nameable(addrs)
    ensures var l := Run(Start(id, None), Firing(addrs, at)); Silent(l, at + FIRE_IN, 0) && |l.history| == |addrs|
  {
    var start, ops := Start(id, None), Firing(addrs, at);
    AllAreTaken(start.s, addrs);
    hide AddPeers, Nameable;
    var l1 := Step(start, PeerList(addrs));
    assert ops[..1] == [PeerList(addrs)] && ops[..1][..0] == [];
    assert Run(start, ops[..1]) == Step(Run(start, ops[..1][..0]), PeerList(addrs)) == l1;
    assert Run(start, ops) == Step(l1, StartSignal(at));
  }

  lemma {:induction false} RunsOn(l: Log, before: seq<Op>, after: seq<Op>)
    requires Shaped(l)
    ensures Run(l, before + after) == Run(Run(l, before), after)
    decreases |after|
  {
    if after == [] {
      assert before + after == before;
    } else {
      var n := |after| - 1;
      RunsOn(l, before, after[..n]);
      assert (before + after)[..|before + after| - 1] == before + after[..n];
      hide Step;
    }
  }

  lemma {:induction false} TotalIs(history: seq<seq<Sent>>, each: nat)
    requires forall k :: 0 <= k < |history| ==> |history[k]| == each
    ensures Total(history) == |history| * each
  {
    if history != [] {
      TotalIs(history[..|history| - 1], each);
    }
  }

  /** An attempt whose peer names these, polled on every interval and never answered, sends each exactly 37. */
  lemma AllAreSent(id: Id, addrs: seq<SocketAddr>, at: nat, tx: Tx)
    requires Nameable(addrs)
    ensures var l := Run(Start(id, None), Firing(addrs, at) + Polls(at + FIRE_IN, 37, tx));
            && |l.history| == |addrs| && (forall k :: 0 <= k < |l.history| ==> |l.history[k]| == 37)
            && Total(l.history) == 37 * |addrs|
  {
    var fired := Run(Start(id, None), Firing(addrs, at));
    hide Run, Polls, Nameable, Firing;
    FiringIsSilent(id, addrs, at);
    PollsPing(fired, at + FIRE_IN, 37, tx);
    RunsOn(Start(id, None), Firing(addrs, at), Polls(at + FIRE_IN, 37, tx));
    PollsAddNobody(fired, at + FIRE_IN, 37, tx);
    TotalIs(Run(fired, Polls(at + FIRE_IN, 37, tx)).history, 37);
  }

  lemma {:induction false} PollsAddNobody(l: Log, fireAt: nat, n: nat, tx: Tx)
    requires Shaped(l)
    ensures |Run(l, Polls(fireAt, n, tx)).history| == |l.history|
  {
    if n > 0 {
      PollsAddNobody(l, fireAt, n - 1, tx);
      assert Polls(fireAt, n, tx)[..n - 1] == Polls(fireAt, n - 1, tx);
    }
  }

  function Sixteen(n: nat): (r: seq<SocketAddr>)
    requires n <= MAX_CANDIDATES
    ensures |r| == n && forall k :: 0 <= k < n ==> r[k] == SocketAddr(V4(203, 0, 113, k), 4433)
  {
    if n == 0 then [] else Sixteen(n - 1) + [SocketAddr(V4(203, 0, 113, n - 1), 4433)]
  }

  lemma SixteenAreNameable()
    ensures Nameable(Sixteen(16))
  {
    hide Sixteen;
  }

  /** Both budgets are reached: 16 silent candidates are sent 592 in all. */
  lemma BudgetIsReached(id: Id, at: nat, tx: Tx)
    ensures exists ops :: Total(Run(Start(id, None), ops).history) == 592
  {
    hide Nameable, Run, Start, Total, Sixteen;
    SixteenAreNameable();
    AllAreSent(id, Sixteen(16), at, tx);
  }

  // ----- adding one address -----

  /** One address, two spellings, one verdict. */
  lemma SpellingsAreOne(s: State, addr: SocketAddr, source: CandidateSource)
    requires addr.ip.V4?
    ensures AddCandidate(s, Mapped(addr), source) == AddCandidate(s, addr, source)
    ensures AddDiscovered(s, Mapped(addr)) == AddDiscovered(s, addr)
    ensures Vouch(s, Mapped(addr)) == Vouch(s, addr)
  {
    UnmapMapped(addr);
    hide IsProbeable, IsGloballyRoutable, Names, IsMapped;
  }

  /** What was added is a duplicate from then on, in either spelling and whoever names it. */
  lemma AddedOnlyOnce(s: State, addr: SocketAddr, source: CandidateSource, again: SocketAddr, whoever: CandidateSource)
    requires AddCandidate(s, addr, source).1 && Unmap(again) == Unmap(addr)
    ensures var s1 := AddCandidate(s, addr, source).0; AddCandidate(s1, again, whoever) == (s1, false)
  {
    hide IsProbeable, IsGloballyRoutable, IsMapped;
    var s1 := AddCandidate(s, addr, source).0;
    assert s1.candidates[|s.candidates|].addr == Unmap(addr);
  }

  /**
   A discovered address may be named by the peer even when discovery got no slot for it:
   only a full table, an unprobeable address or a duplicate can still refuse it.
   */
  lemma DiscoveredMayBeNamed(s: State, addr: SocketAddr, named: SocketAddr)
    requires Unmap(named) == Unmap(addr)
    ensures var s1 := AddDiscovered(s, addr).0;
            AddCandidate(s1, named, PeerReported).1 <==>
              |s1.candidates| < MAX_CANDIDATES && IsProbeable(Unmap(addr)) && !Names(s1.candidates, Unmap(addr))
  {
    hide IsProbeable, IsGloballyRoutable, Names, IsMapped;
  }

  // ----- vouching -----

  /** What the gate reflected, and every address heard on this network. */
  function HeardIn(gateReflected: Option<SocketAddr>, ops: seq<Op>): set<SocketAddr> {
    if ops == [] then (if gateReflected.Some? then {Unmap(gateReflected.value)} else {})
    else
      HeardIn(gateReflected, ops[..|ops| - 1])
      + match ops[|ops| - 1]
        case VouchFor(addr) => {Unmap(addr)}
        case Discover(addr) => {Unmap(addr)}
        case _ => {}
  }

  lemma {:induction false} HeardIsWhatWasHeard(id: Id, gateReflected: Option<SocketAddr>, ops: seq<Op>)
    ensures Run(Start(id, gateReflected), ops).heard == HeardIn(gateReflected, ops)
    decreases |ops|
  {
    if ops != [] {
      HeardIsWhatWasHeard(id, gateReflected, ops[..|ops| - 1]);
      hide Step;
    }
  }

  /**
   Vouching, over any mix of calls: at most 16 candidates, all different, none in the
   mapped spelling, all probeable, at most four of them discovered; the vouched
   addresses are exactly what the gate reflected and what this house heard, whatever
   the peer lists; and every peer-reported candidate the wider internet could not have
   routed is one of those.
   */
  lemma {:induction false} PeersCannotWiden(id: Id, gateReflected: Option<SocketAddr>, ops: seq<Op>)
    ensures var s := Run(Start(id, gateReflected), ops).s;
            && |s.candidates| <= 16
            && (forall j, k :: 0 <= j < k < |s.candidates| ==> s.candidates[j].addr != s.candidates[k].addr)
            && (forall k :: 0 <= k < |s.candidates| ==> !IsMapped(s.candidates[k].addr) && IsProbeable(s.candidates[k].addr))
            && Discoveries(s.candidates) <= 4
            && (forall a :: a in s.vouched <==> a in HeardIn(gateReflected, ops))
            && (forall k :: 0 <= k < |s.candidates| && s.candidates[k].source.PeerReported? && !IsGloballyRoutable(s.candidates[k].addr) ==>
                  s.candidates[k].addr in HeardIn(gateReflected, ops))
  {
    RunKeeps(id, gateReflected, ops);
    HeardIsWhatWasHeard(id, gateReflected, ops);
    hide Run, Recorded, WinnerProved, IsMapped, IsProbeable, IsGloballyRoutable, HeardIn;
    var s := Run(Start(id, gateReflected), ops).s;
    forall k | 0 <= k < |s.candidates|
      ensures Vetted(s.candidates[k], s.vouched)
    {
    }
  }
}
