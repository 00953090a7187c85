/**
 One shaper over whole runs: nothing is lost, reordered or invented, the rate
 holds over every window, and no parked writer is forgotten
 (crates/mosschat-net/src/path.rs:523-726).
 */
module ShaperRuns {
  import opened Common
  import opened Shaper

  datatype Op =
    | Offer(now: real, payloads: seq<Payload>)
    | OfferOne(now: real, payload: Payload)
    | Poll(wanted: nat, waker: Waker)
    | Drain(now: real)
    | CloseAll

  /** A shaper and what its callers saw it do. */
  datatype Log = Log(
    s: State,
    clock: real,
    accepted: seq<Payload>,   // every datagram a call answered `Accepted` for
    drained: seq<Payload>,    // every datagram a pass handed over
    refused: nat,             // transmits answered `Full`
    dropped: nat)             // single datagrams answered `Full`

  function Step(c: Config, l: Log, op: Op): Log
    requires c.Valid()
  {
    match op
    case Offer(now, payloads) =>
      if now < l.clock then l else
      var (s, result) := Enqueue(c, l.s, now, payloads);
      l.(s := s, clock := now,
         accepted := if result.Accepted? then l.accepted + payloads else l.accepted,
         refused := l.refused + if result.Full? then 1 else 0)
    case OfferOne(now, payload) =>
      if now < l.clock then l else
      var (s, result) := EnqueueOrDrop(c, l.s, now, payload);
      l.(s := s, clock := now,
         accepted := if result.Accepted? then l.accepted + [payload] else l.accepted,
         dropped := l.dropped + if result.Full? then 1 else 0)
    case Poll(wanted, waker) => l.(s := PollRoom(c, l.s, wanted, waker).0)
    case Drain(now) =>
      if now < l.clock then l else
      var (s, outcome) := Pass(c, l.s, now);
      l.(s := s, clock := now, drained := if outcome.Ready? then l.drained + outcome.payloads else l.drained)
    case CloseAll => l.(s := Shut(l.s).0)
  }

  function Run(c: Config, l: Log, ops: seq<Op>): Log
    requires c.Valid()
  {
    if ops == [] then l else Step(c, Run(c, l, ops[..|ops| - 1]), ops[|ops| - 1])
  }

  function Born(now: real): Log {
    Log(Empty(now), now, [], [], 0, 0)
  }

  // ----- conservation -----

  predicate Sane(c: Config, l: Log) {
    Valid(c, l.s) && l.s.lastRefill <= l.clock
  }

  ghost predicate Keeps(c: Config, l: Log) {
    && Sane(c, l)
    && (!l.s.closed ==> l.drained + Payloads(l.s.items) == l.accepted)
    && (l.s.closed ==> l.drained <= l.accepted)
    && l.s.queued == |l.accepted|
    && l.s.bytes == Size(l.accepted)
    && l.s.backpressure == l.refused
    && l.s.droppedAtFull == l.dropped
    && (l.s.closed ==> l.s.items == [] && l.s.wakers == [])
    && (forall j, k :: 0 <= j < k < |l.s.wakers| ==> l.s.wakers[j] != l.s.wakers[k])
  }

  lemma PayloadsOfSum(a: seq<Item>, b: seq<Item>)
    ensures Payloads(a + b) == Payloads(a) + Payloads(b)
  {
  }

  lemma {:induction false} SizeOfSum(a: seq<Payload>, b: seq<Payload>)
    ensures Size(a + b) == Size(a) + Size(b)
  {
    if b == [] {
      assert a + b == a;
    } else {
      var init := b[..|b| - 1];
      SizeOfSum(a, init);
      assert (a + b)[..|a + b| - 1] == a + init;
    }
  }

  lemma SizeOfOneMore(a: seq<Payload>, payload: Payload)
    ensures Size(a + [payload]) == Size(a) + |payload|
  {
    assert (a + [payload])[..|a|] == a;
  }

  lemma {:induction false} OfferKeeps(c: Config, l: Log, now: real, payloads: seq<Payload>)
    requires Keeps(c, l)
    ensures Keeps(c, Step(c, l, Offer(now, payloads)))
  {
    hide Size, Payloads, Stamped, TokensAt;
    PayloadsOfSum(l.s.items, Stamped(now, payloads));
    assert Payloads(Stamped(now, payloads)) == payloads;
    SizeOfSum(l.accepted, payloads);
    assert l.accepted + [] == l.accepted;
  }

  lemma {:induction false} OfferOneKeeps(c: Config, l: Log, now: real, payload: Payload)
    requires Keeps(c, l)
    ensures Keeps(c, Step(c, l, OfferOne(now, payload)))
  {
    hide Payloads, Size, TokensAt;
    PayloadsOfSum(l.s.items, [Item(now, payload)]);
    assert Payloads([Item(now, payload)]) == [payload];
    SizeOfOneMore(l.accepted, payload);
  }

  lemma TokensStayInRange(c: Config, s: State, now: real)
    requires Valid(c, s)
    ensures s.tokens <= TokensAt(c, s, now) <= c.cap
  {
    hide Accrual;
    AccrualAdds(c, if s.lastRefill <= now then now - s.lastRefill else 0.0, 0.0);
  }

  lemma {:induction false} DrainKeeps(c: Config, l: Log, now: real)
    requires Keeps(c, l)
    ensures Keeps(c, Step(c, l, Drain(now)))
  {
    hide Size, Payloads, TokensAt;
    TokensStayInRange(c, l.s, now);
    if !l.s.closed && l.s.items != [] && TokensAt(c, l.s, now) >= 1.0 {
      var take := Take(c, TokensAt(c, l.s, now), |l.s.items|);
      PayloadsOfSum(l.s.items[..take], l.s.items[take..]);
      assert l.s.items[..take] + l.s.items[take..] == l.s.items;
    }
  }

  lemma {:induction false} ContinuesToKeep(c: Config, l: Log, ops: seq<Op>)
    requires Keeps(c, l)
    ensures Keeps(c, Run(c, l, ops))
  {
    if ops != [] {
      var before := Run(c, l, ops[..|ops| - 1]);
      ContinuesToKeep(c, l, ops[..|ops| - 1]);
      match ops[|ops| - 1] {
        case Offer(now, payloads) => OfferKeeps(c, before, now, payloads);
        case OfferOne(now, payload) => OfferOneKeeps(c, before, now, payload);
        case Drain(now) => DrainKeeps(c, before, now);
        case _ =>
      }
    }
  }

  /**
   Every run of a new shaper: until it is closed, what has left followed by what waits
   is exactly what was accepted, in order; the queue never exceeds its depth, the budget
   never its cap, and every counter is the count of what callers were told.
   */
  lemma {:induction false} RunKeeps(c: Config, now: real, ops: seq<Op>)
    requires c.Valid()
    ensures Keeps(c, Run(c, Born(now), ops))
  {
    assert Keeps(c, Born(now));
    ContinuesToKeep(c, Born(now), ops);
  }

  // ----- the rate -----

  /** Budget not yet spent, counting what has accrued since the last refill. */
  function Budget(c: Config, l: Log): real {
    TokensAt(c, l.s, l.clock)
  }

  lemma BudgetGrows(c: Config, s: State, now: real, later: real)
    requires Valid(c, s) && s.lastRefill <= now <= later
    ensures TokensAt(c, s, now) <= TokensAt(c, s, later) <= TokensAt(c, s, now) + Accrual(c, later - now)
  {
    hide Accrual;
    AccrualAdds(c, now - s.lastRefill, later - now);
    AccrualAdds(c, later - now, 0.0);
    assert (now - s.lastRefill) + (later - now) == later - s.lastRefill;
  }

  lemma {:induction false} StepSpends(c: Config, l: Log, op: Op)
    requires Sane(c, l)
    ensures var after := Step(c, l, op);
            && l.clock <= after.clock
            && |after.drained| as real + Budget(c, after)
               <= |l.drained| as real + Budget(c, l) + Accrual(c, after.clock - l.clock)
  {
    hide Accrual, Size, Payloads, Stamped;
    AccrualAdds(c, 0.0, 0.0);
    var after := Step(c, l, op);
    if op.Drain? {
      hide TokensAt;
      if op.now >= l.clock {
        BudgetGrows(c, l.s, l.clock, op.now);
      }
    } else {
      hide Step;
      BudgetGrows(c, l.s, l.clock, after.clock);
    }
  }

  lemma BudgetInRange(c: Config, l: Log)
    requires Sane(c, l)
    ensures 0.0 <= Budget(c, l) <= c.cap
  {
    TokensStayInRange(c, l.s, l.clock);
  }

  lemma {:induction false} WindowSpends(c: Config, l: Log, ops: seq<Op>)
    requires Keeps(c, l)
    ensures var after := Run(c, l, ops);
            && l.clock <= after.clock
            && |after.drained| as real + Budget(c, after)
               <= |l.drained| as real + Budget(c, l) + Accrual(c, after.clock - l.clock)
  {
    hide Accrual;
    AccrualAdds(c, 0.0, 0.0);
    if ops != [] {
      var before, after := Run(c, l, ops[..|ops| - 1]), Run(c, l, ops);
      WindowSpends(c, l, ops[..|ops| - 1]);
      ContinuesToKeep(c, l, ops[..|ops| - 1]);
      assert after == Step(c, before, ops[|ops| - 1]);
      StepSpends(c, before, ops[|ops| - 1]);
      hide Keeps, Step, Budget;
      AccrualAdds(c, after.clock - before.clock, before.clock - l.clock);
      assert (after.clock - before.clock) + (before.clock - l.clock) == after.clock - l.clock;
    }
  }

  /** Any window of any run lets out at most one cap's worth more than the rate earns in it. */
  lemma RateHolds(c: Config, l: Log, ops: seq<Op>)
    requires Keeps(c, l)
    ensures var after := Run(c, l, ops);
            && l.clock <= after.clock
            && (|after.drained| - |l.drained|) as real <= c.cap + Accrual(c, after.clock - l.clock)
  {
    WindowSpends(c, l, ops);
    ContinuesToKeep(c, l, ops);
    BudgetInRange(c, l);
    BudgetInRange(c, Run(c, l, ops));
    hide Run, Keeps, Accrual, TokensAt, Budget;
  }

  // ----- what callers are told -----

  /**
   A writer is promised room exactly when a transmit of that size would not be refused as
   full; a single datagram is told what a transmit of one is told; and a transmit of
   nothing is accepted, on a closed queue too, and changes nothing.
   */
  lemma AnswersAgree(c: Config, s: State, now: real, payloads: seq<Payload>, payload: Payload, waker: Waker)
    ensures payloads != [] ==> (PollRoom(c, s, |payloads|, waker).1 <==> !Enqueue(c, s, now, payloads).1.Full?)
    ensures payloads != [] ==> (s.closed <==> Enqueue(c, s, now, payloads).1.Closed?)
    ensures EnqueueOrDrop(c, s, now, payload).1 == Enqueue(c, s, now, [payload]).1
    ensures Enqueue(c, s, now, []) == (s, Accepted)
  {
  }

  /** What a closing queue held is gone, with whoever was parked on it; and nobody is parked twice. */
  lemma ClosedIsEmpty(c: Config, now: real, ops: seq<Op>)
    requires c.Valid()
    ensures var s := Run(c, Born(now), ops).s;
            && (s.closed ==> s.items == [] && s.wakers == [])
            && forall j, k :: 0 <= j < k < |s.wakers| ==> s.wakers[j] != s.wakers[k]
  {
    RunKeeps(c, now, ops);
  }

  /**
   A pass that sleeps sleeps exactly as long as it must: with something queued, the next
   pass hands something over if and only if the delay it was told has passed.
   */
  lemma SleepIsExact(c: Config, s: State, now: real, later: real)
    requires Valid(c, s) && Pass(c, s, now).1.Sleep? && now <= later
    ensures var (after, outcome) := Pass(c, s, now);
            && outcome.delay > 0.0
            && (Pass(c, after, later).1.Ready? <==> later >= now + outcome.delay)
            && (Pass(c, after, later).1.Sleep? <==> later < now + outcome.delay)
  {
    var (after, outcome) := Pass(c, s, now);
    DelayIsEarned(c.rate, later - now, 1.0 - after.tokens);
    hide Payloads, Take;
    assert TokensAt(c, after, later) >= 1.0 <==> after.tokens + Accrual(c, later - now) >= 1.0;
  }

  lemma DelayIsEarned(rate: real, elapsed: real, missing: real)
    requires rate > 0.0 && missing > 0.0
    ensures missing / rate > 0.0
    ensures elapsed * rate >= missing <==> elapsed >= missing / rate
  {
    var delay := missing / rate;
    assert delay * rate == missing;
    assert (elapsed - delay) * rate == elapsed * rate - missing;
  }

  // ----- wakers -----

  predicate PollsFit(c: Config, ops: seq<Op>) {
    forall k :: 0 <= k < |ops| && ops[k].Poll? ==> ops[k].wanted <= c.depth
  }

  /** A caller is parked only on an open queue that holds something. */
  predicate NobodyStranded(s: State) {
    s.wakers != [] ==> !s.closed && s.items != []
  }

  /** Whom one call wakes. */
  function Woken(c: Config, l: Log, op: Op): seq<Waker>
    requires c.Valid()
  {
    match op
    case Drain(now) =>
      if now < l.clock then [] else
      var outcome := Pass(c, l.s, now).1;
      if outcome.Ready? then outcome.woken else []
    case CloseAll => Shut(l.s).1
    case _ => []
  }

  predicate EverWoken(c: Config, l: Log, ops: seq<Op>, waker: Waker)
    requires c.Valid()
  {
    exists k :: 0 <= k < |ops| && waker in Woken(c, Run(c, l, ops[..k]), ops[k])
  }

  /** A run in which no datagram is accepted and nobody closes the queue. */
  predicate NothingComes(c: Config, l: Log, ops: seq<Op>)
    requires c.Valid()
  {
    |Run(c, l, ops).accepted| == |l.accepted| && forall k :: 0 <= k < |ops| ==> !ops[k].CloseAll?
  }

  /** Parked, and no run wakes it until a datagram is accepted or the queue is closed. */
  ghost predicate Stranded(c: Config, l: Log, waker: Waker)
    requires c.Valid()
  {
    waker in l.s.wakers && forall ops :: NothingComes(c, l, ops) ==> !EverWoken(c, l, ops, waker)
  }

  lemma {:induction false} AcceptedGrows(c: Config, l: Log, ops: seq<Op>)
    requires c.Valid()
    ensures |l.accepted| <= |Run(c, l, ops).accepted|
  {
    if ops != [] {
      AcceptedGrows(c, l, ops[..|ops| - 1]);
    }
  }

  /** An empty open queue given nothing wakes nobody. */
  lemma {:induction false} EmptyWakesNobody(c: Config, l: Log, ops: seq<Op>)
    requires c.Valid() && !l.s.closed && l.s.items == [] && NothingComes(c, l, ops)
    ensures var s := Run(c, l, ops).s; !s.closed && s.items == []
    ensures forall k :: 0 <= k < |ops| ==> Woken(c, Run(c, l, ops[..k]), ops[k]) == []
  {
    if ops != [] {
      var n := |ops| - 1;
      var before, op := Run(c, l, ops[..n]), ops[n];
      AcceptedGrows(c, l, ops[..n]);
      assert |before.accepted| <= |Step(c, before, op).accepted|;
      assert NothingComes(c, l, ops[..n]);
      EmptyWakesNobody(c, l, ops[..n]);
      forall k | 0 <= k < |ops|
        ensures Woken(c, Run(c, l, ops[..k]), ops[k]) == []
      {
        assert k < n ==> ops[..n][..k] == ops[..k] && ops[..n][k] == ops[k];
      }
      hide TokensAt, Accrual;
      assert op != CloseAll;
    }
  }

  /** Anyone parked on an open queue that holds something is woken by a drain that comes late enough. */
  lemma DrainWakes(c: Config, l: Log, waker: Waker)
    requires Sane(c, l) && !l.s.closed && l.s.items != [] && waker in l.s.wakers
    ensures !Stranded(c, l, waker)
  {
    var due := l.s.lastRefill + (1.0 - l.s.tokens) / c.rate;
    var now := if due > l.clock then due else l.clock;
    var ops := [Drain(now)];
    hide TokensAt;
    assert ops[..0] == [] && Run(c, l, []) == l;
    assert Run(c, l, ops) == Step(c, l, Drain(now));
    assert NothingComes(c, l, ops);
    assert waker in Woken(c, Run(c, l, ops[..0]), ops[0]);
  }

  /**
   A poll leaves its caller parked with nothing in the queue to wake it by, so that only
   a datagram from somebody else or the close can, exactly when it asks an empty open
   queue for more than its whole depth.
   */
  lemma {:induction false} PollStrandsIff(c: Config, l: Log, wanted: nat, waker: Waker)
    requires Sane(c, l) && NobodyStranded(l.s)
    ensures Stranded(c, Step(c, l, Poll(wanted, waker)), waker) <==> (!l.s.closed && l.s.items == [] && wanted > c.depth)
  {
    var after := Step(c, l, Poll(wanted, waker));
    if !l.s.closed && l.s.items == [] && wanted > c.depth {
      forall ops | NothingComes(c, after, ops)
        ensures !EverWoken(c, after, ops, waker)
      {
        EmptyWakesNobody(c, after, ops);
      }
    } else if waker in after.s.wakers {
      DrainWakes(c, after, waker);
    }
  }

  lemma {:induction false} WakersStayReachable(c: Config, l: Log, ops: seq<Op>)
    requires c.Valid() && NobodyStranded(l.s) && PollsFit(c, ops)
    ensures NobodyStranded(Run(c, l, ops).s)
  {
    if ops != [] {
      WakersStayReachable(c, l, ops[..|ops| - 1]);
      assert ops[|ops| - 1].Poll? ==> ops[|ops| - 1].wanted <= c.depth;
    }
  }

  /** Whoever is parked is woken by any pass made once a token is due, and by a close. */
  lemma {:induction false} ParkedAreWoken(c: Config, l: Log, ops: seq<Op>, now: real)
    requires Keeps(c, l) && NobodyStranded(l.s) && PollsFit(c, ops)
    requires var s := Run(c, l, ops).s; s.wakers != [] && now >= s.lastRefill + (1.0 - s.tokens) / c.rate
                                        && now >= s.lastRefill
    ensures var s := Run(c, l, ops).s;
            && Pass(c, s, now).1.Ready? && Pass(c, s, now).1.woken == s.wakers
            && Shut(s).1 == s.wakers
  {
    WakersStayReachable(c, l, ops);
    ContinuesToKeep(c, l, ops);
    DueIsReady(c, Run(c, l, ops).s, now);
    hide Run, Pass, TokensAt, Payloads;
  }

  lemma DueIsReady(c: Config, s: State, now: real)
    requires Valid(c, s) && !s.closed && s.items != []
    requires now >= s.lastRefill + (1.0 - s.tokens) / c.rate && now >= s.lastRefill
    ensures Pass(c, s, now).1.Ready? && Pass(c, s, now).1.woken == s.wakers
  {
    if s.tokens < 1.0 {
      DelayIsEarned(c.rate, now - s.lastRefill, 1.0 - s.tokens);
    }
    hide Payloads, Take;
  }

  predicate OnlyDrainsAndPolls(ops: seq<Op>) {
    forall k :: 0 <= k < |ops| ==> ops[k].Drain? || ops[k].Poll?
  }

  lemma {:induction false} DrainsOnlyFree(c: Config, l: Log, ops: seq<Op>)
    requires c.Valid() && !l.s.closed && OnlyDrainsAndPolls(ops)
    ensures var s := Run(c, l, ops).s; !s.closed && |s.items| <= |l.s.items|
  {
    if ops != [] {
      DrainsOnlyFree(c, l, ops[..|ops| - 1]);
      assert ops[|ops| - 1].Drain? || ops[|ops| - 1].Poll?;
    }
  }

  /** Room promised stays promised: if nothing is queued in between, the transmit is taken whole. */
  lemma {:induction false} RoomIsKept(c: Config, l: Log, wanted: nat, waker: Waker, ops: seq<Op>, now: real, payloads: seq<Payload>)
    requires c.Valid() && !l.s.closed && PollRoom(c, l.s, wanted, waker).1
    requires OnlyDrainsAndPolls(ops) && |payloads| <= wanted
    ensures Enqueue(c, Run(c, l, ops).s, now, payloads).1 == Accepted
  {
    DrainsOnlyFree(c, l, ops);
  }
}
