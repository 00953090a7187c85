/**
 Liveness over whole runs, bounded on both sides: no false alarm sooner than the
 floors promise, and none later than the slowest driver allows
 (crates/mosschat-net/src/live.rs:124-142, 315-334, 363-466).
 */
module LivenessRuns {
  import opened Common
  import opened Liveness

  datatype Op =
    | Due(now: nat)
    | NotSent(sentAt: nat)
    | Pong(now: nat, rtt: nat)
    | Look(now: nat)
    | Goodbye(now: nat)
    | Behave(activity: Activity)

  /** A reported change, with what was known when it was reported. */
  datatype Report = Report(change: Change, at: nat, lastAnswer: nat, grace: nat, goodbye: bool)

  /** The state, the latest clock reading, and every change reported so far. */
  datatype Log = Log(s: State, clock: nat, reports: seq<Report>)

  function At(op: Op, clock: nat): nat {
    match op
    case Due(now) => now
    case Pong(now, _) => now
    case Look(now) => now
    case Goodbye(now) => now
    case _ => clock
  }

  function Note(l: Log, after: (State, Option<Change>), now: nat, goodbye: bool): Log {
    Log(after.0, now,
        if after.1.None? then l.reports
        else l.reports + [Report(after.1.value, now, l.s.lastAnswer, DeadGrace(l.s.srtt), goodbye)])
  }

  /** One call. A reading older than the last is not one a monotone clock gives. */
  function Step(l: Log, op: Op): Log {
    if At(op, l.clock) < l.clock then l
    else
      match op
      case Due(now) => l.(s := DueProbe(l.s, now).0, clock := now)
      case NotSent(sentAt) => l.(s := ProbeNotSent(l.s, sentAt))
      case Pong(now, rtt) => l.(s := OnPong(l.s, now, rtt).0, clock := now)
      case Look(now) => Note(l, Poll(l.s, now), now, false)
      case Goodbye(now) => Note(l, OnGoodbye(l.s, now), now, true)
      case Behave(activity) => l.(s := l.s.(activity := activity))
  }

  function Run(l: Log, ops: seq<Op>): Log
    decreases |ops|
  {
    if ops == [] then l else Step(Run(l, ops[..|ops| - 1]), ops[|ops| - 1])
  }

  function Start(now: nat, srtt: Option<nat>): Log {
    Log(New(now, srtt), now, [])
  }

  /** Each miss took at least one loss floor of silence. */
  predicate Waited(l: Log) {
    && l.s.lastAnswer + l.s.misses * PROBE_LOSS_FLOOR <= l.clock
    && (l.s.outstanding.Some? ==>
          l.s.lastAnswer + l.s.misses * PROBE_LOSS_FLOOR <= l.s.outstanding.value <= l.clock)
    && (l.s.lastSent.Some? ==> l.s.lastSent.value <= l.clock)
  }

  predicate StaleReport(r: Report) {
    r.change.WentStale? && !r.goodbye && r.lastAnswer + 1_500 * MILLI <= r.at
  }

  predicate DeadReport(s: State, r: Report) {
    && r.change.WentDead?
    && s.lastSeen == Some(if r.goodbye then LastSeen(r.at, SaidGoodbye) else LastSeen(r.lastAnswer, TimedOut))
  }

  /** The reports so far are exactly the way the state came: stale at most once, then dead at most once. */
  predicate Told(s: State, reports: seq<Report>) {
    match s.life
    case Live => reports == [] && s.staleSince.None? && s.lastSeen.None?
    case Stale => |reports| == 1 && StaleReport(reports[0]) && s.staleSince == Some(reports[0].at) && s.lastSeen.None?
    case Dead =>
      if |reports| == 1 then DeadReport(s, reports[0]) && reports[0].goodbye
      else
        && |reports| == 2 && StaleReport(reports[0]) && DeadReport(s, reports[1])
        && reports[0].at <= reports[1].at
        && (!reports[1].goodbye ==> reports[0].at + reports[1].grace <= reports[1].at && reports[1].grace >= DEAD_GRACE_BASE)
  }

  predicate Keeps(l: Log) {
    Waited(l) && Told(l.s, l.reports) && (l.s.staleSince.Some? ==> l.s.staleSince.value <= l.clock)
  }

  lemma LookKeeps(l: Log, now: nat)
    requires Keeps(l) && l.clock <= now
    ensures Keeps(Note(l, Poll(l.s, now), now, false))
  {
    LossWaited(l, now);
    var c := CountLoss(l.s, now);
    hide CountLoss, ProbeLossDeadline;
  }

  lemma LossWaited(l: Log, now: nat)
    requires Waited(l) && l.clock <= now
    ensures var c := CountLoss(l.s, now);
            && Waited(l.(s := c, clock := now))
            && c == l.s.(misses := c.misses, outstanding := c.outstanding)
  {
  }

  lemma GoodbyeKeeps(l: Log, now: nat)
    requires Keeps(l) && l.clock <= now
    ensures Keeps(Note(l, OnGoodbye(l.s, now), now, true))
  {
  }

  lemma StepKeeps(l: Log, op: Op)
    requires Keeps(l)
    ensures Keeps(Step(l, op))
  {
    match op {
      case Look(now) =>
        hide Keeps, Poll, Note;
        if l.clock <= now {
          LookKeeps(l, now);
        }
      case Goodbye(now) =>
        hide Keeps, OnGoodbye, Note;
        if l.clock <= now {
          GoodbyeKeeps(l, now);
        }
      case _ => hide StaleReport, DeadReport, Poll, DeadGrace;
    }
  }

  lemma {:induction false} RunKeeps(now: nat, srtt: Option<nat>, ops: seq<Op>)
    ensures Keeps(Run(Start(now, srtt), ops))
    decreases |ops|
  {
    if ops != [] {
      RunKeeps(now, srtt, ops[..|ops| - 1]);
      hide Keeps, Step;
      StepKeeps(Run(Start(now, srtt), ops[..|ops| - 1]), ops[|ops| - 1]);
    }
  }

  predicate Advances(before: Life, after: Life) {
    before == after || before.Live? || after.Dead?
  }

  /** Whatever happens next, a state is never taken back nor a report withdrawn. */
  lemma {:induction false} LivesOnlyAdvance(l: Log, ops: seq<Op>)
    requires Keeps(l)
    ensures Keeps(Run(l, ops))
    ensures Advances(l.s.life, Run(l, ops).s.life)
    ensures |l.reports| <= |Run(l, ops).reports| && Run(l, ops).reports[..|l.reports|] == l.reports
    decreases |ops|
  {
    if ops != [] {
      LivesOnlyAdvance(l, ops[..|ops| - 1]);
      hide Keeps;
      StepKeeps(Run(l, ops[..|ops| - 1]), ops[|ops| - 1]);
    }
  }

  /**
   In every run: stale is reported at most once and never within 1.5 s of an answer;
   death at most once, after stale unless the peer said goodbye; and a death by timeout
   never within `4 * srtt + 5 s` of going stale.
   */
  lemma {:induction false} NoFalseAlarm(now: nat, srtt: Option<nat>, ops: seq<Op>)
    ensures var r := Run(Start(now, srtt), ops).reports;
            && |r| <= 2
            && (forall k :: 0 <= k < |r| && r[k].change.WentStale? ==> k == 0 && r[k].lastAnswer + 1_500 * MILLI <= r[k].at)
            && (forall k :: 0 <= k < |r| && r[k].change.WentDead? && !r[k].goodbye ==>
                  k == 1 && r[0].change.WentStale? && r[0].at + r[1].grace <= r[1].at && r[1].grace >= 5_000 * MILLI)
  {
    RunKeeps(now, srtt, ops);
    hide Run;
  }

  /** The last seen tells the two ends apart, and is set exactly once dead. */
  lemma {:induction false} LastSeenTellsWhy(now: nat, srtt: Option<nat>, ops: seq<Op>)
    ensures var l := Run(Start(now, srtt), ops);
            && (l.s.lastSeen.Some? <==> l.s.life.Dead?)
            && (l.s.life.Dead? ==> |l.reports| > 0)
            && (l.s.life.Dead? ==>
                  var last := l.reports[|l.reports| - 1];
                  l.s.lastSeen.value == if last.goodbye then LastSeen(last.at, SaidGoodbye) else LastSeen(last.lastAnswer, TimedOut))
  {
    RunKeeps(now, srtt, ops);
    hide Run;
  }

  // ----- the floor is reached -----

  predicate ProbeOut(l: Log, sent: nat, misses: nat, answered: nat) {
    && l.clock == sent && l.reports == []
    && l.s == New(answered, None).(activity := Visit, misses := misses, outstanding := Some(sent), lastSent := Some(sent))
  }

  lemma LostOnTheFloor(l: Log, sent: nat, misses: nat, answered: nat)
    requires ProbeOut(l, sent, misses, answered) && misses < 2
    ensures var next := sent + 500 * MILLI;
            ProbeOut(Step(Step(l, Look(next)), Due(next)), next, misses + 1, answered)
  {
  }

  lemma ThirdLossIsStale(l: Log, sent: nat, answered: nat)
    requires ProbeOut(l, sent, 2, answered)
    ensures var next := sent + 500 * MILLI;
            Step(l, Look(next)).reports == [Report(WentStale, next, answered, DEAD_GRACE_BASE, false)]
  {
  }

  /** The 1.5 s is reached: three probes, each sent as the last one is lost on the floor. */
  lemma StaleAfterExactly1500(now: nat)
    ensures var ops := [Behave(Visit), Due(now), Look(now + 500 * MILLI), Due(now + 500 * MILLI),
                        Look(now + 1_000 * MILLI), Due(now + 1_000 * MILLI), Look(now + 1_500 * MILLI)];
            Run(Start(now, None), ops).reports == [Report(WentStale, now + 1_500 * MILLI, now, DEAD_GRACE_BASE, false)]
  {
    var start, half := Start(now, None), 500 * MILLI;
    var ops := [Behave(Visit), Due(now), Look(now + half), Due(now + half),
                Look(now + 2 * half), Due(now + 2 * half), Look(now + 3 * half)];
    assert ProbeOut(Step(Step(start, ops[0]), ops[1]), now, 0, now);
    hide Step, Run, ProbeOut;
    RunsTwo(start, ops, 0);
    RunsTwo(start, ops, 2);
    RunsTwo(start, ops, 4);
    RunsNext(start, ops, 6);
    assert Run(start, ops[..0]) == start by { RunsNothing(start, ops); }
    LostOnTheFloor(Run(start, ops[..2]), now, 0, now);
    LostOnTheFloor(Run(start, ops[..4]), now + half, 1, now);
    ThirdLossIsStale(Run(start, ops[..6]), now + 2 * half, now);
    assert ops[..7] == ops;
  }

  lemma RunsNothing(l: Log, ops: seq<Op>)
    ensures Run(l, ops[..0]) == l
  {
  }

  lemma RunsTwo(l: Log, ops: seq<Op>, k: nat)
    requires k + 1 < |ops|
    ensures Run(l, ops[..k + 2]) == Step(Step(Run(l, ops[..k]), ops[k]), ops[k + 1])
  {
    RunsNext(l, ops, k);
    RunsNext(l, ops, k + 1);
    hide Step;
  }

  /** Unfolds the run one call at a time. */
  lemma RunsNext(l: Log, ops: seq<Op>, k: nat)
    requires k < |ops|
    ensures Run(l, ops[..k + 1]) == Step(Run(l, ops[..k]), ops[k])
  {
    assert ops[..k + 1][..k] == ops[..k];
  }

  // ----- and not late either -----

  /** One turn of a caller that sends what is due and then looks. */
  function Turn(s: State, now: nat): State {
    Poll(DueProbe(s, now).0, now).0
  }

  function Drive(s: State, times: seq<nat>): State
    decreases |times|
  {
    if times == [] then s else Turn(Drive(s, times[..|times| - 1]), times[|times| - 1])
  }

  function Latest(times: seq<nat>, from: nat): nat {
    if times == [] then from else times[|times| - 1]
  }

  /** Readings that start within `gap` of `from` and are never further apart. */
  predicate Paced(times: seq<nat>, from: nat, gap: nat)
    decreases |times|
  {
    times != [] ==>
      var so := times[..|times| - 1];
      Paced(so, from, gap) && Latest(so, from) <= times[|times| - 1] <= Latest(so, from) + gap
  }

  /** By when the m-th miss is counted. */
  function MissedBy(answered: nat, m: nat, loss: nat, gap: nat): nat {
    answered + m * (VISIT_PROBE_INTERVAL + loss + 2 * gap)
  }

  /** A live path whose latest miss was counted by `missed`. */
  predicate LiveOnTime(s: State, missed: nat, now: nat, loss: nat, gap: nat) {
    && s.life.Live? && s.misses < PROBES_TO_STALE
    && (s.outstanding.None? ==>
          now < missed + VISIT_PROBE_INTERVAL && (s.lastSent.Some? ==> s.lastSent.value <= missed))
    && (s.outstanding.Some? ==>
          s.outstanding.value <= missed + VISIT_PROBE_INTERVAL + gap && now < s.outstanding.value + loss)
    && (s.lastSent.Some? ==> s.lastSent.value <= now)
  }

  predicate OnTime(s: State, answered: nat, now: nat, gap: nat) {
    var loss := ProbeLossDeadline(s.srtt);
    && s.activity.Visit? && s.lastAnswer == answered
    && match s.life
       case Live => LiveOnTime(s, MissedBy(answered, s.misses, loss, gap), now, loss, gap)
       case Stale =>
         && s.staleSince.Some?
         && s.staleSince.value <= MissedBy(answered, PROBES_TO_STALE, loss, gap)
         && now < s.staleSince.value + DeadGrace(s.srtt)
       case Dead => true
  }

  /** After the probe of a turn, only a probe whose loss is one gap late can be outstanding. */
  lemma ProbeIsOnTime(s: State, missed: nat, before: nat, now: nat, gap: nat)
    requires LiveOnTime(s, missed, before, ProbeLossDeadline(s.srtt), gap) && s.activity.Visit? && before <= now <= before + gap
    ensures var p, loss := DueProbe(s, now).0, ProbeLossDeadline(s.srtt);
            && p == s.(lastSent := p.lastSent, outstanding := p.outstanding)
            && (p.lastSent.Some? ==> p.lastSent.value <= now)
            && (p.outstanding.None? ==>
                  now < missed + VISIT_PROBE_INTERVAL && (p.lastSent.Some? ==> p.lastSent.value <= missed))
            && (p.outstanding.Some? ==>
                  && p.outstanding.value <= missed + VISIT_PROBE_INTERVAL + gap
                  && now < p.outstanding.value + loss + gap)
  {
  }

  lemma LiveTurnIsOnTime(s: State, missed: nat, before: nat, now: nat, gap: nat)
    requires LiveOnTime(s, missed, before, ProbeLossDeadline(s.srtt), gap) && s.activity.Visit? && before <= now <= before + gap
    ensures var r, loss := Turn(s, now), ProbeLossDeadline(s.srtt);
            var next := missed + VISIT_PROBE_INTERVAL + loss + 2 * gap;
            && r.srtt == s.srtt && r.activity == s.activity && r.lastAnswer == s.lastAnswer
            && (|| (r.misses == s.misses && LiveOnTime(r, missed, now, loss, gap))
                || (r.misses == s.misses + 1 && LiveOnTime(r, next, now, loss, gap))
                || (s.misses == 2 && r.life.Stale? && r.staleSince == Some(now) && now <= next))
  {
    ProbeIsOnTime(s, missed, before, now, gap);
    var loss := ProbeLossDeadline(s.srtt);
    assert loss >= PROBE_LOSS_FLOOR;
    hide DueProbe, ProbeLossDeadline;
  }

  lemma TurnIsOnTime(s: State, answered: nat, before: nat, now: nat, gap: nat)
    requires OnTime(s, answered, before, gap) && before <= now <= before + gap
    ensures OnTime(Turn(s, now), answered, now, gap) && Turn(s, now).srtt == s.srtt
  {
    var loss := ProbeLossDeadline(s.srtt);
    if s.life.Live? {
      LiveTurnIsOnTime(s, MissedBy(answered, s.misses, loss, gap), before, now, gap);
      MissedNext(answered, s.misses, loss, gap);
      assert DeadGrace(s.srtt) > 0;
      hide Turn, MissedBy, ProbeLossDeadline, DeadGrace, LiveOnTime;
      assert !Turn(s, now).life.Live? || LiveOnTime(Turn(s, now), MissedBy(answered, Turn(s, now).misses, loss, gap), now, loss, gap);
    } else {
      hide MissedBy, ProbeLossDeadline, LiveOnTime;
    }
  }

  lemma MissedNext(answered: nat, m: nat, loss: nat, gap: nat)
    ensures MissedBy(answered, m + 1, loss, gap) == MissedBy(answered, m, loss, gap) + VISIT_PROBE_INTERVAL + loss + 2 * gap
  {
  }

  /** A peer on a visit that has just answered, with nothing outstanding. */
  predicate JustAnswered(s: State, answered: nat) {
    && s.activity.Visit? && s.life.Live? && s.lastAnswer == answered
    && s.misses == 0 && s.outstanding.None? && (s.lastSent.Some? ==> s.lastSent.value <= answered)
  }

  lemma {:induction false} DrivesAreOnTime(s: State, answered: nat, times: seq<nat>, gap: nat)
    requires JustAnswered(s, answered) && Paced(times, answered, gap)
    ensures OnTime(Drive(s, times), answered, Latest(times, answered), gap) && Drive(s, times).srtt == s.srtt
    decreases |times|
  {
    if times != [] {
      var n := |times| - 1;
      DrivesAreOnTime(s, answered, times[..n], gap);
      hide OnTime, Turn;
      TurnIsOnTime(Drive(s, times[..n]), answered, Latest(times[..n], answered), times[n], gap);
    }
  }

  lemma OnTimeMeans(s: State, answered: nat, now: nat, gap: nat)
    requires OnTime(s, answered, now, gap)
    ensures var limit := answered + 3 * (500 * MILLI + ProbeLossDeadline(s.srtt) + 2 * gap);
            && (s.life.Live? ==> now + gap < limit)
            && (s.life.Stale? ==>
                  s.staleSince.Some? && s.staleSince.value <= limit && now < s.staleSince.value + DeadGrace(s.srtt))
  {
    hide DeadGrace;
    var loss := ProbeLossDeadline(s.srtt);
    assert loss >= 0;
    hide ProbeLossDeadline;
    if s.life.Live? {
      var each := VISIT_PROBE_INTERVAL + loss + 2 * gap;
      assert s.misses * each <= 2 * each;
      assert MissedBy(answered, s.misses, loss, gap) == answered + s.misses * each;
    }
  }

  /**
   During a visit driven at least every `gap` and never answered again, the path goes
   stale no later than three times (500 ms, the loss deadline and two gaps) after the
   answer: while it is live there is still a turn to come before then.
   */
  lemma SilenceIsNoticed(s: State, answered: nat, times: seq<nat>, gap: nat)
    requires JustAnswered(s, answered) && Paced(times, answered, gap)
    ensures var limit := answered + 3 * (500 * MILLI + ProbeLossDeadline(s.srtt) + 2 * gap);
            var after := Drive(s, times);
            && (after.life.Live? ==> Latest(times, answered) + gap < limit)
            && (after.life.Stale? ==> after.staleSince.Some? && after.staleSince.value <= limit)
  {
    DrivesAreOnTime(s, answered, times, gap);
    hide Drive, Paced, OnTime, ProbeLossDeadline, DeadGrace;
    OnTimeMeans(Drive(s, times), answered, Latest(times, answered), gap);
  }

  /** And dead within its grace and one gap of that, so a silent peer is always given up on. */
  lemma SilenceIsDeath(s: State, answered: nat, times: seq<nat>, gap: nat)
    requires JustAnswered(s, answered) && Paced(times, answered, gap)
    requires Latest(times, answered)
               >= answered + 3 * (500 * MILLI + ProbeLossDeadline(s.srtt) + 2 * gap) + DeadGrace(s.srtt)
    ensures Drive(s, times).life.Dead?
  {
    DrivesAreOnTime(s, answered, times, gap);
    hide Drive, Paced, OnTime, ProbeLossDeadline, DeadGrace;
    OnTimeMeans(Drive(s, times), answered, Latest(times, answered), gap);
  }

  /** Every path starts in that position, and in every run each answer heard on a live visit brings it back. */
  lemma AnswersStartOver(born: nat, srtt: Option<nat>, ops: seq<Op>, now: nat, rtt: nat)
    requires var l := Run(Start(born, srtt), ops); l.s.life.Live? && l.s.activity.Visit? && l.clock <= now
    ensures JustAnswered(Step(Run(Start(born, srtt), ops), Pong(now, rtt)).s, now)
    ensures JustAnswered(Step(Start(born, srtt), Behave(Visit)).s, born)
  {
    RunKeeps(born, srtt, ops);
    hide Run, Told;
  }
}
