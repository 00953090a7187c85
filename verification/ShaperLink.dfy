/**
 A house's shaper feeding its gate's over an instantaneous link
 (crates/mosschat-net/src/path.rs:269-296, 333-336, 449-480). The design says the
 gate's 24 deep queue drops nothing a shaping house sends. Here is exactly how
 late the gate's drain task may run before that stops being true: 89/22000 s
 (4.045 ms) whatever budgets the two buckets start with, and 99/22000 s
 (4.5 ms) when the gate's bucket starts warm, which it does whenever it holds a
 whole token or is no younger than the house's.
 */
module ShaperLink {
  import opened Common
  import opened Shaper
  import ShaperRuns

  datatype Link = Link(
    house: State,
    gate: State,
    clock: real,
    overdue: real,              // how long the gate has held both a datagram and a token for it
    accepted: seq<Payload>,     // taken by the house's queue
    delivered: seq<Payload>)    // out of the gate's queue

  datatype Step = Wait(dt: real) | Offer(payloads: seq<Payload>) | HouseDrains | GateDrains

  function HouseTokens(l: Link): real { TokensAt(HOUSE, l.house, l.clock) }

  function GateTokens(l: Link): real { TokensAt(GATE, l.gate, l.clock) }

  /** For how long, `dt` from now, the gate's drain will have been due. */
  function OverdueAfter(l: Link, dt: real): real {
    if l.gate.items == [] then 0.0
    else if GateTokens(l) >= 1.0 then l.overdue + dt
    else
      var due := (1.0 - GateTokens(l)) / 2200.0;
      if dt <= due then 0.0 else dt - due
  }

  /** The gate takes a batch one datagram at a time, dropping the newest when full. */
  function Forward(gate: State, now: real, payloads: seq<Payload>): State {
    if payloads == [] then gate
    else EnqueueOrDrop(GATE, Forward(gate, now, payloads[..|payloads| - 1]), now, payloads[|payloads| - 1]).0
  }

  /** One step, with a gate whose drain runs at most `late` after it is due. */
  function Next(l: Link, late: real, step: Step): Link {
    match step
    case Wait(dt) =>
      if dt < 0.0 || OverdueAfter(l, dt) > late then l
      else l.(clock := l.clock + dt, overdue := OverdueAfter(l, dt))
    case Offer(payloads) =>
      var (house, result) := Enqueue(HOUSE, l.house, l.clock, payloads);
      l.(house := house, accepted := if result.Accepted? then l.accepted + payloads else l.accepted)
    case HouseDrains =>
      var (house, outcome) := Pass(HOUSE, l.house, l.clock);
      l.(house := house, gate := if outcome.Ready? then Forward(l.gate, l.clock, outcome.payloads) else l.gate)
    case GateDrains =>
      var (gate, outcome) := Pass(GATE, l.gate, l.clock);
      l.(gate := gate, overdue := 0.0,
         delivered := if outcome.Ready? then l.delivered + outcome.payloads else l.delivered)
  }

  function Run(l: Link, late: real, steps: seq<Step>): Link {
    if steps == [] then l else Next(Run(l, late, steps[..|steps| - 1]), late, steps[|steps| - 1])
  }

  /** Both directions open, nothing at the gate yet; the house may already hold a backlog. */
  predicate Opens(l: Link) {
    && Valid(HOUSE, l.house) && !l.house.closed && l.house.lastRefill <= l.clock
    && Valid(GATE, l.gate) && !l.gate.closed && l.gate.lastRefill <= l.clock
    && l.gate.items == [] && l.overdue == 0.0 && l.gate.droppedAtFull == 0
    && l.delivered + Payloads(l.gate.items) + Payloads(l.house.items) == l.accepted
  }

  /** The gate's bucket is not more than a full house bucket, less one gate token, behind the house's. */
  predicate GateIsWarm(l: Link) {
    HouseTokens(l) - GateTokens(l) / 1.1 <= 16.0 - 1.0 / 1.1
  }

  /** How late the gate may run without ever dropping. */
  function Limit(warm: bool): real {
    if warm then 99.0 / 22000.0 else 89.0 / 22000.0
  }

  // ----- the invariant -----

  function Capped(g: real): real {
    if g <= 1.0 then g else 1.0
  }

  /** What a token already at the gate is worth in house tokens. */
  predicate Bounded(warm: bool, late: real, h: real, g: real, q: nat, overdue: real) {
    && 0.0 <= h <= 16.0 && 0.0 <= g <= 24.0
    && 0.0 <= overdue <= late
    && (overdue > 0.0 ==> q > 0 && g >= 1.0)
    && q as real + h <= 16.0 + (if warm then 0.0 else Capped(g) / 1.1) + 2000.0 * overdue
    && (g == 24.0 || q as real + h - g / 1.1 <= 16.0 - if warm then 1.0 / 1.1 else 0.0)
  }

  ghost predicate Inv(l: Link, warm: bool, late: real) {
    && Valid(HOUSE, l.house) && !l.house.closed && l.house.lastRefill <= l.clock
    && Valid(GATE, l.gate) && !l.gate.closed && l.gate.lastRefill <= l.clock
    && Bounded(warm, late, HouseTokens(l), GateTokens(l), |l.gate.items|, l.overdue)
    && l.gate.droppedAtFull == 0
    && l.delivered + Payloads(l.gate.items) + Payloads(l.house.items) == l.accepted
  }

  /** Waiting lets both buckets earn, the gate's 1.1 times as fast. */
  lemma BoundedWaits(warm: bool, late: real, h: real, g: real, q: nat, overdue: real,
                     dt: real, h': real, g': real, overdue': real)
    requires Bounded(warm, late, h, g, q, overdue) && dt >= 0.0
    requires h' == (if h + 2000.0 * dt <= 16.0 then h + 2000.0 * dt else 16.0)
    requires g' == (if g + 2200.0 * dt <= 24.0 then g + 2200.0 * dt else 24.0)
    requires overdue' == (if q == 0 then 0.0
                          else if g >= 1.0 then overdue + dt
                          else if dt <= (1.0 - g) / 2200.0 then 0.0 else dt - (1.0 - g) / 2200.0)
    requires overdue' <= late
    ensures Bounded(warm, late, h', g', q, overdue')
  {
  }

  /** Moving k datagrams across moves k of the house's tokens into the gate's queue, which has room. */
  lemma BoundedForwards(warm: bool, late: real, h: real, g: real, q: nat, overdue: real, k: nat)
    requires Bounded(warm, late, h, g, q, overdue) && late < Limit(warm) && k as real <= h
    ensures q + k <= GATE.depth
    ensures Bounded(warm, late, h - k as real, g, q + k, overdue)
  {
  }

  /** A gate pass that spends every whole token, or empties the queue, ends the lateness. */
  lemma BoundedDrains(warm: bool, late: real, h: real, g: real, q: nat, overdue: real, k: nat)
    requires Bounded(warm, late, h, g, q, overdue) && late < Limit(warm)
    requires q >= 1 && g >= 1.0 && k == Min(g.Floor, q)
    ensures Bounded(warm, late, h, g - k as real, q - k, 0.0)
  {
  }

  // ----- every step keeps it -----

  lemma TokensAfter(c: Config, s: State, now: real, dt: real)
    requires Valid(c, s) && s.lastRefill <= now && dt >= 0.0
    ensures var grown := TokensAt(c, s, now) + Accrual(c, dt);
            TokensAt(c, s, now + dt) == if grown <= c.cap then grown else c.cap
  {
    hide Accrual;
    AccrualAdds(c, now - s.lastRefill, dt);
    AccrualAdds(c, dt, 0.0);
    assert (now - s.lastRefill) + dt == now + dt - s.lastRefill;
  }

  lemma {:induction false} ForwardTakesAll(gate: State, now: real, payloads: seq<Payload>)
    requires !gate.closed && |gate.items| + |payloads| <= GATE.depth
    ensures var after := Forward(gate, now, payloads);
            && !after.closed && after.tokens == gate.tokens && after.lastRefill == gate.lastRefill
            && |after.items| == |gate.items| + |payloads|
            && after.droppedAtFull == gate.droppedAtFull
            && Payloads(after.items) == Payloads(gate.items) + payloads
  {
    if payloads != [] {
      var init, last := payloads[..|payloads| - 1], payloads[|payloads| - 1];
      ForwardTakesAll(gate, now, init);
      var before := Forward(gate, now, init);
      ShaperRuns.PayloadsOfSum(before.items, [Item(now, last)]);
      assert payloads == init + [last];
    }
  }

  lemma WaitKeeps(l: Link, warm: bool, late: real, dt: real)
    requires Inv(l, warm, late) && late < Limit(warm)
    ensures Inv(Next(l, late, Wait(dt)), warm, late)
  {
    if dt >= 0.0 && OverdueAfter(l, dt) <= late {
      TokensAfter(HOUSE, l.house, l.clock, dt);
      TokensAfter(GATE, l.gate, l.clock, dt);
      assert Accrual(HOUSE, dt) == 2000.0 * dt && Accrual(GATE, dt) == 2200.0 * dt;
      hide Accrual, TokensAt, Bounded, Payloads;
      var after := Next(l, late, Wait(dt));
      BoundedWaits(warm, late, HouseTokens(l), GateTokens(l), |l.gate.items|, l.overdue, dt,
                   HouseTokens(after), GateTokens(after), after.overdue);
    }
  }

  /** What one pass does to the tokens, the queue and the datagrams it hands over. */
  lemma PassFacts(c: Config, s: State, now: real)
    requires Valid(c, s) && !s.closed && s.lastRefill <= now
    ensures var (after, outcome) := Pass(c, s, now);
            var budget := TokensAt(c, s, now);
            var take := if s.items == [] || budget < 1.0 then 0 else Take(c, budget, |s.items|);
            && Valid(c, after) && !after.closed && after.lastRefill == now
            && after.droppedAtFull == s.droppedAtFull
            && take as real <= budget && take <= |s.items|
            && |after.items| == |s.items| - take
            && TokensAt(c, after, now) == budget - take as real
            && (outcome.Ready? <==> take > 0)
            && (outcome.Ready? ==> |outcome.payloads| == take && outcome.payloads + Payloads(after.items) == Payloads(s.items))
            && (!outcome.Ready? ==> after.items == s.items)
  {
    hide Accrual, Payloads;
    ShaperRuns.TokensStayInRange(c, s, now);
    AccrualAdds(c, 0.0, 0.0);
    var budget := TokensAt(c, s, now);
    if s.items != [] && budget >= 1.0 {
      var take := Take(c, budget, |s.items|);
      ShaperRuns.PayloadsOfSum(s.items[..take], s.items[take..]);
      assert s.items[..take] + s.items[take..] == s.items;
    }
  }

  lemma OfferFacts(c: Config, s: State, now: real, payloads: seq<Payload>)
    requires Valid(c, s) && !s.closed
    ensures var (after, result) := Enqueue(c, s, now, payloads);
            && Valid(c, after) && !after.closed && after.lastRefill == s.lastRefill && after.tokens == s.tokens
            && Payloads(after.items) == Payloads(s.items) + if result.Accepted? then payloads else []
  {
    hide Payloads, Size, Stamped;
    ShaperRuns.PayloadsOfSum(s.items, Stamped(now, payloads));
    assert Payloads(Stamped(now, payloads)) == payloads;
    assert Payloads(s.items) + [] == Payloads(s.items);
  }

  lemma OfferKeeps(l: Link, warm: bool, late: real, payloads: seq<Payload>)
    requires Inv(l, warm, late) && late < Limit(warm)
    ensures Inv(Next(l, late, Offer(payloads)), warm, late)
  {
    hide Bounded, Payloads, Enqueue, Accrual;
    OfferFacts(HOUSE, l.house, l.clock, payloads);
    assert l.accepted + [] == l.accepted;
  }

  lemma HouseDrainKeeps(l: Link, warm: bool, late: real)
    requires Inv(l, warm, late) && late < Limit(warm)
    ensures Inv(Next(l, late, HouseDrains), warm, late)
  {
    hide Bounded, Payloads, Pass, TokensAt, Take, Forward, Limit;
    PassFacts(HOUSE, l.house, l.clock);
    var outcome := Pass(HOUSE, l.house, l.clock).1;
    if outcome.Ready? {
      BoundedForwards(warm, late, HouseTokens(l), GateTokens(l), |l.gate.items|, l.overdue, |outcome.payloads|);
      ForwardTakesAll(l.gate, l.clock, outcome.payloads);
      var gate := Forward(l.gate, l.clock, outcome.payloads);
      SameTokens(GATE, l.gate, gate, l.clock);
    }
  }

  lemma SameTokens(c: Config, s: State, t: State, now: real)
    requires s.tokens == t.tokens && s.lastRefill == t.lastRefill
    ensures TokensAt(c, s, now) == TokensAt(c, t, now)
  {
  }

  lemma IdleIsNotLate(warm: bool, late: real, h: real, g: real, q: nat, overdue: real)
    requires Bounded(warm, late, h, g, q, overdue) && (q == 0 || g < 1.0)
    ensures Bounded(warm, late, h, g, q, 0.0)
  {
  }

  lemma GateDrainKeeps(l: Link, warm: bool, late: real)
    requires Inv(l, warm, late) && late < Limit(warm)
    ensures Inv(Next(l, late, GateDrains), warm, late)
  {
    hide Bounded, Payloads, Pass, TokensAt, Limit;
    PassFacts(GATE, l.gate, l.clock);
    var outcome := Pass(GATE, l.gate, l.clock).1;
    var g, q := GateTokens(l), |l.gate.items|;
    if outcome.Ready? {
      BoundedRange(warm, late, HouseTokens(l), g, q, l.overdue);
      BoundedDrains(warm, late, HouseTokens(l), g, q, l.overdue, |outcome.payloads|);
    } else {
      IdleIsNotLate(warm, late, HouseTokens(l), g, q, l.overdue);
    }
  }

  lemma BoundedRange(warm: bool, late: real, h: real, g: real, q: nat, overdue: real)
    requires Bounded(warm, late, h, g, q, overdue)
    ensures 0.0 <= g <= 24.0
  {
  }

  lemma {:induction false} RunKeeps(l: Link, warm: bool, late: real, steps: seq<Step>)
    requires Inv(l, warm, late) && late < Limit(warm)
    ensures Inv(Run(l, late, steps), warm, late)
  {
    if steps != [] {
      var before := Run(l, late, steps[..|steps| - 1]);
      RunKeeps(l, warm, late, steps[..|steps| - 1]);
      match steps[|steps| - 1] {
        case Wait(dt) => WaitKeeps(before, warm, late, dt);
        case Offer(payloads) => OfferKeeps(before, warm, late, payloads);
        case HouseDrains => HouseDrainKeeps(before, warm, late);
        case GateDrains => GateDrainKeeps(before, warm, late);
      }
    }
  }

  lemma OpensInv(l: Link, warm: bool, late: real)
    requires Opens(l) && late >= 0.0 && (warm ==> GateIsWarm(l))
    ensures Inv(l, warm, late)
  {
    ShaperRuns.TokensStayInRange(HOUSE, l.house, l.clock);
    ShaperRuns.TokensStayInRange(GATE, l.gate, l.clock);
  }

  // ----- the promise, and where it ends -----

  ghost predicate SomeRunDrops(warm: bool, late: real) {
    exists l, steps :: Opens(l) && (warm ==> GateIsWarm(l)) && Run(l, late, steps).gate.droppedAtFull > 0
  }

  /** Two shapers as the code makes them, each with nothing queued and no budget, at the later of their births. */
  function Brand(houseBorn: real, gateBorn: real): Link {
    Link(Empty(houseBorn), Empty(gateBorn), if houseBorn <= gateBorn then gateBorn else houseBorn, 0.0, [], [])
  }

  /** From two new shapers; a warm gate is one made no later than its house's. */
  ghost predicate SomeNewRunDrops(warm: bool, late: real) {
    exists houseBorn, gateBorn, steps ::
      (warm ==> gateBorn <= houseBorn) && Run(Brand(houseBorn, gateBorn), late, steps).gate.droppedAtFull > 0
  }

  lemma BrandOpens(houseBorn: real, gateBorn: real)
    ensures Opens(Brand(houseBorn, gateBorn))
    ensures gateBorn <= houseBorn ==> GateIsWarm(Brand(houseBorn, gateBorn))
  {
    if gateBorn <= houseBorn {
      OlderGateIsWarm(Brand(houseBorn, gateBorn), houseBorn, gateBorn);
    }
    hide GateIsWarm;
  }

  function Copies(n: nat): (r: seq<Payload>)
    ensures |r| == n
  {
    seq(n, _ => [])
  }

  /** A house made in time to fill its bucket before its gate is made, or together with it. */
  function Worst(warm: bool): Link {
    Brand(0.0, if warm then 0.0 else 0.008)
  }

  /** How long both are left idle: until both buckets are full, or not at all. */
  function Idling(warm: bool): real {
    if warm then 24.0 / 2200.0 else 0.0
  }

  function Opening(warm: bool): real {
    Worst(warm).clock + Idling(warm)
  }

  /** What the worst run needs to know of each state: open, in order, and how much is where. */
  predicate Holds(l: Link, clock: real, overdue: real, h: real, waiting: nat, q: nat) {
    && Valid(HOUSE, l.house) && !l.house.closed && l.house.lastRefill <= l.clock
    && Valid(GATE, l.gate) && !l.gate.closed && l.gate.lastRefill <= l.clock
    && l.clock == clock && l.overdue == overdue
    && HouseTokens(l) == h && |l.house.items| == waiting && |l.gate.items| == q
    && l.gate.droppedAtFull == 0
  }

  lemma HandsOver(l: Link, late: real, clock: real, overdue: real, h: real, waiting: nat, q: nat, k: nat)
    requires Holds(l, clock, overdue, h, waiting, q) && h >= 1.0 && waiting >= 1
    requires k == Take(HOUSE, h, waiting) && q + k <= 24
    ensures var after := Next(l, late, HouseDrains);
            Holds(after, clock, overdue, h - k as real, waiting - k, q + k) && GateTokens(after) == GateTokens(l)
  {
    hide Payloads, Pass, TokensAt, Forward;
    PassFacts(HOUSE, l.house, l.clock);
    var outcome := Pass(HOUSE, l.house, l.clock).1;
    ForwardTakesAll(l.gate, l.clock, outcome.payloads);
    SameTokens(GATE, l.gate, Forward(l.gate, l.clock, outcome.payloads), l.clock);
  }

  lemma Overflows(l: Link, late: real, clock: real, overdue: real)
    requires Holds(l, clock, overdue, 1.0, 1, 24)
    ensures Next(l, late, HouseDrains).gate.droppedAtFull == 1
  {
    hide Payloads, TokensAt;
    PassFacts(HOUSE, l.house, l.clock);
    var outcome := Pass(HOUSE, l.house, l.clock).1;
    assert outcome.payloads[..0] == [];
    assert Forward(l.gate, l.clock, outcome.payloads[..0]) == l.gate;
  }

  lemma WaitsTooLong(l: Link, warm: bool, late: real, clock: real)
    requires Holds(l, clock, 0.0, 0.0, 9, 16) && late >= Limit(warm)
    requires GateTokens(l) == if warm then 24.0 else 0.0
    ensures var after := Next(l, late, Wait(99.0 / 22000.0));
            Holds(after, clock + 99.0 / 22000.0, Limit(warm), 9.0, 9, 16)
  {
    TokensAfter(HOUSE, l.house, l.clock, 99.0 / 22000.0);
  }

  /** Idle time fills the house's bucket, and the gate's if it was made as early. */
  lemma WorstIdles(warm: bool, late: real)
    requires late >= 0.0
    ensures var l := Next(Worst(warm), late, Wait(Idling(warm)));
            Holds(l, Opening(warm), 0.0, 16.0, 0, 0) && GateTokens(l) == if warm then 24.0 else 0.0
  {
  }

  lemma WorstOffers(l: Link, late: real, clock: real)
    requires Holds(l, clock, 0.0, 16.0, 0, 0)
    ensures var after := Next(l, late, Offer(Copies(25)));
            Holds(after, clock, 0.0, 16.0, 25, 0) && GateTokens(after) == GateTokens(l)
  {
    OfferFacts(HOUSE, l.house, l.clock, Copies(25));
    assert Enqueue(HOUSE, l.house, l.clock, Copies(25)).1 == Accepted;
    var after := Next(l, late, Offer(Copies(25)));
    SameTokens(HOUSE, l.house, after.house, l.clock);
    hide TokensAt, Payloads, Size, Copies;
  }

  function WorstSteps(warm: bool): seq<Step> {
    [Wait(Idling(warm)), Offer(Copies(25)), HouseDrains, HouseDrains, Wait(99.0 / 22000.0), HouseDrains, HouseDrains]
  }

  /** Two bursts, a gate that sleeps through the next nine datagrams, and the 25th has nowhere to go. */
  lemma WorstRunDrops(warm: bool, late: real)
    requires late >= Limit(warm)
    ensures SomeRunDrops(warm, late) && SomeNewRunDrops(warm, late)
  {
    hide Next, Holds, HouseTokens, GateTokens, Take, Limit, Opening, Idling, Copies, Opens, GateIsWarm;
    assert late >= 0.0 by { LimitIsPositive(warm); }
    var l0, pause, clock := Worst(warm), 99.0 / 22000.0, Opening(warm);
    var steps := WorstSteps(warm);
    var l1 := Next(l0, late, steps[0]);
    var l2 := Next(l1, late, steps[1]);
    var l3 := Next(l2, late, HouseDrains);
    var l4 := Next(l3, late, HouseDrains);
    var l5 := Next(l4, late, Wait(pause));
    var l6 := Next(l5, late, HouseDrains);
    TakesOfTheWorst();
    WorstIdles(warm, late);
    WorstOffers(l1, late, clock);
    HandsOver(l2, late, clock, 0.0, 16.0, 25, 0, 8);
    HandsOver(l3, late, clock, 0.0, 8.0, 17, 8, 8);
    WaitsTooLong(l4, warm, late, clock);
    HandsOver(l5, late, clock + pause, Limit(warm), 9.0, 9, 16, 8);
    Overflows(l6, late, clock + pause, Limit(warm));
    WorstRuns(l0, late, steps);
    var houseBorn, gateBorn := 0.0, if warm then 0.0 else 0.008;
    BrandOpens(houseBorn, gateBorn);
    assert Run(Brand(houseBorn, gateBorn), late, steps).gate.droppedAtFull > 0;
  }

  lemma LimitIsPositive(warm: bool)
    ensures Limit(warm) > 0.0
  {
  }

  lemma RunsOn(l: Link, late: real, steps: seq<Step>, k: nat)
    requires k < |steps|
    ensures Run(l, late, steps[..k + 1]) == Next(Run(l, late, steps[..k]), late, steps[k])
  {
    hide Next;
    assert steps[..k + 1][..k] == steps[..k];
  }

  lemma WorstRuns(l: Link, late: real, steps: seq<Step>)
    requires |steps| == 7
    ensures Run(l, late, steps)
            == Next(Next(Next(Next(Next(Next(Next(l, late, steps[0]), late, steps[1]), late, steps[2]), late, steps[3]),
                              late, steps[4]), late, steps[5]), late, steps[6])
  {
    hide Next;
    assert Run(l, late, steps[..0]) == l && steps[..7] == steps;
    hide Run;
    RunsOn(l, late, steps, 0);
    RunsOn(l, late, steps, 1);
    RunsOn(l, late, steps, 2);
    RunsOn(l, late, steps, 3);
    RunsOn(l, late, steps, 4);
    RunsOn(l, late, steps, 5);
    RunsOn(l, late, steps, 6);
  }

  lemma TakesOfTheWorst()
    ensures Take(HOUSE, 16.0, 25) == 8 && Take(HOUSE, 8.0, 17) == 8 && Take(HOUSE, 9.0, 9) == 8
  {
  }

  /**
   "0 for a shaping house", exactly: the gate drops something in some run if and
   only if its drain task may run as late as the limit. It is so for runs that start
   with any backlog and budgets, and for runs of two shapers as the code makes them.
   */
  lemma DropsIffTooLate(warm: bool, late: real)
    requires late >= 0.0
    ensures SomeRunDrops(warm, late) <==> late >= Limit(warm)
    ensures SomeNewRunDrops(warm, late) <==> late >= Limit(warm)
  {
    if late >= Limit(warm) {
      WorstRunDrops(warm, late);
    } else {
      if SomeRunDrops(warm, late) {
        var l, steps :| Opens(l) && (warm ==> GateIsWarm(l)) && Run(l, late, steps).gate.droppedAtFull > 0;
        NothingDrops(l, warm, late, steps);
      }
      if SomeNewRunDrops(warm, late) {
        var houseBorn, gateBorn, steps :|
          (warm ==> gateBorn <= houseBorn) && Run(Brand(houseBorn, gateBorn), late, steps).gate.droppedAtFull > 0;
        BrandOpens(houseBorn, gateBorn);
        NothingDrops(Brand(houseBorn, gateBorn), warm, late, steps);
      }
    }
  }

  lemma {:induction false} NothingDrops(l: Link, warm: bool, late: real, steps: seq<Step>)
    requires Opens(l) && (warm ==> GateIsWarm(l)) && 0.0 <= late < Limit(warm)
    ensures Run(l, late, steps).gate.droppedAtFull == 0
  {
    OpensInv(l, warm, late);
    RunKeeps(l, warm, late, steps);
    hide Bounded, Run;
  }

  /** Below the limit every datagram the house accepted comes out of the gate, in order and once. */
  lemma {:induction false} EverythingArrives(l: Link, warm: bool, late: real, steps: seq<Step>)
    requires Opens(l) && (warm ==> GateIsWarm(l)) && 0.0 <= late < Limit(warm)
    ensures var after := Run(l, late, steps);
            after.delivered + Payloads(after.gate.items) + Payloads(after.house.items) == after.accepted
  {
    OpensInv(l, warm, late);
    RunKeeps(l, warm, late, steps);
  }

  /** A gate that is never late at all never holds more than 16 of its 24. */
  lemma PunctualBacklog(l: Link, steps: seq<Step>)
    requires Opens(l)
    ensures |Run(l, 0.0, steps).gate.items| <= 16
  {
    OpensInv(l, false, 0.0);
    RunKeeps(l, false, 0.0, steps);
  }

  /** Both buckets untouched since they were made, the gate's first: the gate is warm. */
  lemma OlderGateIsWarm(l: Link, born: real, gateBorn: real)
    requires gateBorn <= born <= l.clock
    requires l.house.tokens == 0.0 && l.house.lastRefill == born
    requires l.gate.tokens == 0.0 && l.gate.lastRefill == gateBorn
    ensures GateIsWarm(l)
  {
  }
}
