/**
 The relay shaper: a bounded queue drained by a token bucket
 (crates/mosschat-net/src/path.rs:258-296, 388-412, 435-726). Instants are
 seconds and tokens are datagrams, both as reals. `State` is what the source
 keeps behind its lock together with its counters; every method of
 `RelayShaper` is proved against a function on it, and the theorems are about
 those functions.
 */
module Shaper {
  import opened Common

  type Payload = seq<Byte>
  type Waker = nat

  datatype Enqueued = Accepted | Full | Closed

  datatype Config = Config(depth: nat, rate: real, burst: nat, cap: real) {
    predicate Valid() {
      burst >= 1 && rate > 0.0 && cap >= 1.0
    }
  }

  const RELAY_DATAGRAMS_PER_SECOND := 2000.0
  const GATE_RATE_HEADROOM := 1.1

  const HOUSE := Config(100, RELAY_DATAGRAMS_PER_SECOND, 8, 16.0)
  const GATE := Config(24, RELAY_DATAGRAMS_PER_SECOND * GATE_RATE_HEADROOM, 24, 24.0)

  datatype Item = Item(at: real, payload: Payload)

  datatype State = State(
    items: seq<Item>,
    tokens: real,
    lastRefill: real,
    wakers: seq<Waker>,
    closed: bool,
    queued: nat,
    bytes: nat,
    droppedAtFull: nat,
    backpressure: nat)

  function Empty(now: real): State {
    State([], 0.0, now, [], false, 0, 0, 0, 0)
  }

  predicate Valid(c: Config, s: State) {
    && c.Valid()
    && |s.items| <= c.depth
    && 0.0 <= s.tokens <= c.cap
  }

  function Payloads(items: seq<Item>): (r: seq<Payload>)
    ensures |r| == |items|
    ensures forall k :: 0 <= k < |items| ==> r[k] == items[k].payload
  {
    if items == [] then [] else Payloads(items[..|items| - 1]) + [items[|items| - 1].payload]
  }

  function Stamped(now: real, payloads: seq<Payload>): (r: seq<Item>)
    ensures |r| == |payloads|
    ensures forall k :: 0 <= k < |payloads| ==> r[k] == Item(now, payloads[k])
  {
    if payloads == [] then [] else Stamped(now, payloads[..|payloads| - 1]) + [Item(now, payloads[|payloads| - 1])]
  }

  function Size(payloads: seq<Payload>): nat {
    if payloads == [] then 0 else Size(payloads[..|payloads| - 1]) + |payloads[|payloads| - 1]|
  }

  // ----- what each operation does -----

  function Enqueue(c: Config, s: State, now: real, payloads: seq<Payload>): (State, Enqueued) {
    if payloads == [] then (s, Accepted)
    else if s.closed then (s, Closed)
    else if |s.items| + |payloads| > c.depth then (s.(backpressure := s.backpressure + 1), Full)
    else (s.(items := s.items + Stamped(now, payloads),
             queued := s.queued + |payloads|,
             bytes := s.bytes + Size(payloads)),
          Accepted)
  }

  function EnqueueOrDrop(c: Config, s: State, now: real, payload: Payload): (State, Enqueued) {
    if s.closed then (s, Closed)
    else if |s.items| >= c.depth then (s.(droppedAtFull := s.droppedAtFull + 1), Full)
    else (s.(items := s.items + [Item(now, payload)], queued := s.queued + 1, bytes := s.bytes + |payload|), Accepted)
  }

  function PollRoom(c: Config, s: State, wanted: nat, waker: Waker): (State, bool) {
    if s.closed || |s.items| + wanted <= c.depth then (s, true)
    else (if waker in s.wakers then s else s.(wakers := s.wakers + [waker]), false)
  }

  /** What the rate earns in `elapsed` seconds. */
  function Accrual(c: Config, elapsed: real): real {
    elapsed * c.rate
  }

  lemma AccrualAdds(c: Config, a: real, b: real)
    requires c.rate > 0.0
    ensures Accrual(c, a + b) == Accrual(c, a) + Accrual(c, b)
    ensures a >= 0.0 ==> Accrual(c, a) >= 0.0
    ensures Accrual(c, 0.0) == 0.0
  {
  }

  /** The budget a refill at `now` would find. */
  function TokensAt(c: Config, s: State, now: real): real {
    var elapsed := if s.lastRefill <= now then now - s.lastRefill else 0.0;
    var grown := s.tokens + Accrual(c, elapsed);
    if grown <= c.cap then grown else c.cap
  }

  /** What one turn of the drain loop finds. */
  datatype Outcome = Ready(payloads: seq<Payload>, woken: seq<Waker>) | Sleep(delay: real) | Idle | Ended

  /** How many datagrams a pass with this budget hands over. */
  function Take(c: Config, tokens: real, waiting: nat): nat
    requires tokens >= 1.0 && waiting >= 1 && c.burst >= 1
  {
    Min(Min(tokens.Floor, waiting), c.burst)
  }

  function Pass(c: Config, s: State, now: real): (State, Outcome)
    requires c.Valid()
  {
    if s.closed then (s, Ended)
    else
      var full := s.(tokens := TokensAt(c, s, now), lastRefill := now);
      if full.items == [] then (full, Idle)
      else if full.tokens >= 1.0 then
        var take := Take(c, full.tokens, |full.items|);
        (full.(tokens := full.tokens - take as real, items := full.items[take..], wakers := []),
         Ready(Payloads(full.items[..take]), full.wakers))
      else (full, Sleep((1.0 - full.tokens) / c.rate))
  }

  function Shut(s: State): (State, seq<Waker>) {
    (s.(closed := true, items := [], wakers := []), s.wakers)
  }

  // ----- the shaper as the source writes it -----

  class RelayShaper {
    const config: Config
    var items: seq<Item>
    var tokens: real
    var lastRefill: real
    var wakers: seq<Waker>
    var closed: bool
    var queued: nat
    var bytes: nat
    var droppedAtFull: nat
    var backpressure: nat

    ghost function Value(): State
      reads this
    {
      State(items, tokens, lastRefill, wakers, closed, queued, bytes, droppedAtFull, backpressure)
    }

    constructor (config: Config, now: real)
      requires config.Valid()
      ensures this.config == config && Value() == Empty(now) && Valid(config, Value())
    {
      this.config := config;
      items, tokens, lastRefill, wakers, closed := [], 0.0, now, [], false;
      queued, bytes, droppedAtFull, backpressure := 0, 0, 0, 0;
    }

    method TryEnqueueAll(now: real, payloads: seq<Payload>) returns (result: Enqueued)
      modifies this
      ensures (Value(), result) == Enqueue(config, old(Value()), now, payloads)
    {
      if payloads == [] {
        return Accepted;
      }
      if closed {
        return Closed;
      }
      if |items| + |payloads| > config.depth {
        backpressure := backpressure + 1;
        return Full;
      }
      var size := 0;
      for k := 0 to |payloads|
        invariant size == Size(payloads[..k])
        invariant items == old(items) + Stamped(now, payloads[..k])
        invariant Value() == old(Value()).(items := items)
      {
        assert payloads[..k + 1][..k] == payloads[..k];
        size := size + |payloads[k]|;
        items := items + [Item(now, payloads[k])];
      }
      assert payloads[..|payloads|] == payloads;
      queued := queued + |payloads|;
      bytes := bytes + size;
      return Accepted;
    }

    method EnqueueOrDropNewest(now: real, payload: Payload) returns (result: Enqueued)
      modifies this
      ensures (Value(), result) == EnqueueOrDrop(config, old(Value()), now, payload)
    {
      if closed {
        return Closed;
      }
      if |items| >= config.depth {
        droppedAtFull := droppedAtFull + 1;
        return Full;
      }
      items := items + [Item(now, payload)];
      queued := queued + 1;
      bytes := bytes + |payload|;
      return Accepted;
    }

    method HasRoom(wanted: nat, waker: Waker) returns (room: bool)
      modifies this`wakers
      ensures (Value(), room) == PollRoom(config, old(Value()), wanted, waker)
    {
      if closed || |items| + wanted <= config.depth {
        return true;
      }
      if waker !in wakers {
        wakers := wakers + [waker];
      }
      return false;
    }

    method Refill(now: real)
      modifies this`tokens, this`lastRefill
      ensures Value() == old(Value()).(tokens := TokensAt(config, old(Value()), now), lastRefill := now)
    {
      var elapsed := if lastRefill <= now then now - lastRefill else 0.0;
      lastRefill := now;
      tokens := tokens + Accrual(config, elapsed);
      if tokens > config.cap {
        tokens := config.cap;
      }
    }

    /** One turn of the drain loop, between two waits. */
    method DrainPass(now: real) returns (outcome: Outcome)
      requires config.Valid()
      modifies this
      ensures (Value(), outcome) == Pass(config, old(Value()), now)
    {
      if closed {
        return Ended;
      }
      Refill(now);
      if items == [] {
        return Idle;
      }
      if tokens >= 1.0 {
        var take := Min(Min(tokens.Floor, |items|), config.burst);
        tokens := tokens - take as real;
        ghost var before := items;
        var payloads := [];
        for k := 0 to take
          modifies this`items
          invariant items == before[k..]
          invariant payloads == Payloads(before[..k])
        {
          assert before[..k + 1][..k] == before[..k];
          payloads := payloads + [items[0].payload];
          items := items[1..];
        }
        var woken := wakers;
        wakers := [];
        return Ready(payloads, woken);
      }
      return Sleep((1.0 - tokens) / config.rate);
    }

    method Close() returns (woken: seq<Waker>)
      modifies this
      ensures (Value(), woken) == Shut(old(Value()))
    {
      closed := true;
      items := [];
      woken := wakers;
      wakers := [];
    }
  }
}
