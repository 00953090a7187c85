/**
 When a peer's liveness sends, over whole runs on a monotone clock
 (crates/mosschat-net/src/live.rs:35-142, 244-382): the gap between probes, the estimate
 it is taken from, and which probes are being timed.
 */
module LivenessSends {
  import opened Common
  import opened Liveness
  import opened LivenessRuns

  /** Beside a run: when probes were sent, every round trip measured, and the probes that may be charged. */
  datatype Record = Record(l: Log, sent: seq<nat>, samples: seq<nat>, chargeable: set<nat>)

  function Go(r: Record, op: Op): Record {
    var l := Step(r.l, op);
    if LivenessRuns.At(op, r.l.clock) < r.l.clock then r
    else
      match op
      case Due(now) =>
        if DueProbe(r.l.s, now).1 then Record(l, r.sent + [now], r.samples, r.chargeable + {now}) else r.(l := l)
      case NotSent(sentAt) => r.(l := l, chargeable := r.chargeable - {sentAt})
      case Pong(_, rtt) =>
        if r.l.s.life.Dead? then r.(l := l) else Record(l, r.sent, r.samples + [rtt], {})
      case _ => r.(l := l)
  }

  function GoOn(r: Record, ops: seq<Op>): Record
    decreases |ops|
  {
    if ops == [] then r else Go(GoOn(r, ops[..|ops| - 1]), ops[|ops| - 1])
  }

  function Opened(now: nat, srtt: Option<nat>): Record {
    Record(LivenessRuns.Start(now, srtt), [], if srtt.Some? then [srtt.value] else [], {})
  }

  lemma {:induction false} RecordIsARun(now: nat, srtt: Option<nat>, ops: seq<Op>)
    ensures GoOn(Opened(now, srtt), ops).l == Run(LivenessRuns.Start(now, srtt), ops)
    decreases |ops|
  {
    if ops != [] {
      RecordIsARun(now, srtt, ops[..|ops| - 1]);
      hide Step, DueProbe;
    }
  }

  predicate Remembers(r: Record) {
    && r.l.s.lastSent == (if r.sent == [] then None else Some(r.sent[|r.sent| - 1]))
    && r.l.s.srtt == Estimate(r.samples)
    && (r.l.s.outstanding.Some? ==> r.l.s.outstanding.value in r.chargeable)
    && (forall k :: 0 <= k < |r.sent| ==> r.sent[k] <= r.l.clock)
  }

  lemma {:induction false} PongRemembers(r: Record, now: nat, rtt: nat)
    requires Remembers(r)
    ensures Remembers(Go(r, Pong(now, rtt)))
  {
    hide Smoothed;
    assert (r.samples + [rtt])[..|r.samples|] == r.samples;
  }

  lemma {:induction false} GoRemembers(r: Record, op: Op)
    requires Remembers(r)
    ensures Remembers(Go(r, op))
  {
    hide Smoothed, Estimate, DeadGrace, ProbeLossDeadline, ProbeInterval, OnPong;
    if op.Pong? {
      PongRemembers(r, op.now, op.rtt);
    }
  }

  lemma {:induction false} GoOnRemembers(now: nat, srtt: Option<nat>, ops: seq<Op>)
    ensures Remembers(GoOn(Opened(now, srtt), ops))
    decreases |ops|
  {
    if ops == [] {
      OpenedRemembers(now, srtt);
    } else {
      GoOnRemembers(now, srtt, ops[..|ops| - 1]);
      hide Remembers, Go, Opened;
      GoRemembers(GoOn(Opened(now, srtt), ops[..|ops| - 1]), ops[|ops| - 1]);
    }
  }

  lemma OpenedRemembers(now: nat, srtt: Option<nat>)
    ensures Remembers(Opened(now, srtt))
  {
    if srtt.Some? {
      assert [srtt.value][..0] == [];
    }
  }

  /** The gap an idle session keeps: eight round trips, kept between 5 and 15 seconds. */
  predicate KeepsAlive(srtt: Option<nat>, gap: nat) {
    && 5_000_000_000 <= gap <= 15_000_000_000
    && (srtt.None? ==> gap == 5_000_000_000)
    && (srtt.Some? && 8 * srtt.value < gap ==> gap == 5_000_000_000)
    && (srtt.Some? && 8 * srtt.value > gap ==> gap == 15_000_000_000)
  }

  /** The gap in force: a second once stale, half a second in a visit, and a keepalive otherwise. */
  predicate GapInForce(s: State, samples: seq<nat>, gap: nat) {
    if s.life.Stale? then gap == 1_000_000_000
    else if s.activity.Visit? then gap == 500_000_000
    else KeepsAlive(Estimate(samples), gap)
  }

  /**
   In every run a probe goes out if and only if the peer is not dead and none went out
   less than the gap in force ago; the estimate that gap rests on smooths every round
   trip heard while the peer was not dead, in order, after the one it was given.
   */
  lemma SendsIff(start: nat, srtt: Option<nat>, ops: seq<Op>, now: nat, gap: nat)
    requires GapInForce(Run(LivenessRuns.Start(start, srtt), ops).s, GoOn(Opened(start, srtt), ops).samples, gap)
    requires now >= Run(LivenessRuns.Start(start, srtt), ops).clock
    ensures var r := GoOn(Opened(start, srtt), ops);
            && r.l == Run(LivenessRuns.Start(start, srtt), ops)
            && r.l.s.srtt == Estimate(r.samples)
            && (DueProbe(r.l.s, now).1 <==> !r.l.s.life.Dead? && (r.sent == [] || now >= r.sent[|r.sent| - 1] + gap))
  {
    RecordIsARun(start, srtt, ops);
    GoOnRemembers(start, srtt, ops);
    hide GoOn, Run, Estimate, Opened, LivenessRuns.Start;
  }

  /** There is always one gap in force. */
  lemma SomeGapIsInForce(s: State, samples: seq<nat>)
    requires s.srtt == Estimate(samples)
    ensures GapInForce(s, samples, ProbeInterval(s))
  {
    hide Estimate;
  }

  /** Only a probe that was sent, not withdrawn since, and not overtaken by an answer, is ever being timed. */
  lemma OnlySentIsCharged(start: nat, srtt: Option<nat>, ops: seq<Op>)
    ensures var r := GoOn(Opened(start, srtt), ops);
            && r.l == Run(LivenessRuns.Start(start, srtt), ops)
            && (r.l.s.outstanding.Some? ==> r.l.s.outstanding.value in r.chargeable)
  {
    RecordIsARun(start, srtt, ops);
    GoOnRemembers(start, srtt, ops);
    hide GoOn, Run, Estimate, Opened;
  }

  /** A probe this house could not send leaves what was being timed as it was. */
  lemma UnsentLeavesNoTrace(s: State, now: nat)
    requires DueProbe(s, now).1 && s.outstanding != Some(now)
    ensures ProbeNotSent(DueProbe(s, now).0, now) == s.(lastSent := Some(now))
  {
    hide ProbeInterval;
  }

  /** Four round trips, or nothing before the first. */
  function FourTrips(samples: seq<nat>): nat {
    var srtt := Estimate(samples);
    if srtt.Some? then 4 * srtt.value else 0
  }

  /** Silent too long: as long as half a second and as four round trips. */
  predicate Overdue(r: Record, now: nat) {
    r.l.s.outstanding.Some? && now >= r.l.s.outstanding.value + 500_000_000
    && now >= r.l.s.outstanding.value + FourTrips(r.samples)
  }

  /**
   In every run one look charges a loss exactly when the probe being timed is overdue;
   the third in a row makes a live peer stale; and a stale one is dead exactly five
   seconds and four round trips after it was reported stale.
   */
  lemma LookIsExact(start: nat, srtt: Option<nat>, ops: seq<Op>, now: nat)
    requires now >= Run(LivenessRuns.Start(start, srtt), ops).clock && !Run(LivenessRuns.Start(start, srtt), ops).s.life.Dead?
    ensures var r := GoOn(Opened(start, srtt), ops);
            var (after, change) := Poll(r.l.s, now);
            && r.l == Run(LivenessRuns.Start(start, srtt), ops)
            && after.misses == r.l.s.misses + (if Overdue(r, now) then 1 else 0)
            && (Overdue(r, now) ==> after.outstanding == None) && (!Overdue(r, now) ==> after.outstanding == r.l.s.outstanding)
            && (change == Some(WentStale) <==> r.l.s.life.Live? && after.misses >= 3)
            && (change == Some(WentDead) <==>
                  r.l.s.life.Stale? && |r.l.reports| == 1 && now >= r.l.reports[0].at + 5_000_000_000 + FourTrips(r.samples))
  {
    RecordIsARun(start, srtt, ops);
    GoOnRemembers(start, srtt, ops);
    LivenessRuns.RunKeeps(start, srtt, ops);
    var r := GoOn(Opened(start, srtt), ops);
    assert r.l.s.srtt == Estimate(r.samples) && Waited(r.l) && Told(r.l.s, r.l.reports);
    assert r.l.s.staleSince.Some? ==> r.l.s.staleSince.value <= r.l.clock;
    LookOnce(r, now);
    hide GoOn, Run, Estimate, Opened, LivenessRuns.Start, Poll, Told, Waited;
  }

  lemma LookOnce(r: Record, now: nat)
    requires r.l.s.srtt == Estimate(r.samples) && Waited(r.l) && Told(r.l.s, r.l.reports)
    requires now >= r.l.clock && !r.l.s.life.Dead? && (r.l.s.staleSince.Some? ==> r.l.s.staleSince.value <= r.l.clock)
    ensures var (after, change) := Poll(r.l.s, now);
            && after.misses == r.l.s.misses + (if Overdue(r, now) then 1 else 0)
            && (Overdue(r, now) ==> after.outstanding == None) && (!Overdue(r, now) ==> after.outstanding == r.l.s.outstanding)
            && (change == Some(WentStale) <==> r.l.s.life.Live? && after.misses >= 3)
            && (change == Some(WentDead) <==>
                  r.l.s.life.Stale? && |r.l.reports| == 1 && now >= r.l.reports[0].at + 5_000_000_000 + FourTrips(r.samples))
  {
    hide Estimate;
  }
}
