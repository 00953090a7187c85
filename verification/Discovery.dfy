/**
 Hearing announces on the local network
 (crates/mosschat-net/src/discovery.rs:335-468, 512-779): the packet ceiling,
 the per-key gap, the replay guard and the handoff into the address cache.
 The signature scheme and the friend list are parameters.
 */
module Discovery {
  import opened Common
  import opened Addresses
  import opened Admission
  import opened Announces
  import AddressCache

  const PACKETS_PER_SECOND := 50
  const PER_KEY_GAP := 10 * SECOND
  const REPLAY_WINDOW := 60
  const SEEN_REMEMBERED := 4096
  const KEYS_REMEMBERED := 512

  /** What the replay guard remembers an announce by. */
  datatype Triple = Triple(key: Key, sentUnix: nat, nonce: Bytes)

  function TripleOf(a: Announce): Triple {
    Triple(a.key, a.sentUnix, a.nonce)
  }

  // ----- the per-key gap -----

  /** When each remembered key was last let through, and the order the keys were first met in. */
  datatype Gaps = Gaps(lastFrom: map<Key, nat>, order: seq<Key>)

  function EvictedKeys(g: Gaps): Gaps
    decreases |g.order|
  {
    if |g.order| <= KEYS_REMEMBERED then g
    else EvictedKeys(Gaps(g.lastFrom - {g.order[0]}, g.order[1..]))
  }

  function AdmitKey(g: Gaps, key: Key, now: nat): (Gaps, bool) {
    if key in g.lastFrom && Since(now, g.lastFrom[key]) < PER_KEY_GAP then (g, false)
    else if key in g.lastFrom then (g.(lastFrom := g.lastFrom[key := now]), true)
    else (EvictedKeys(Gaps(g.lastFrom[key := now], g.order + [key])), true)
  }

  // ----- the replay guard -----

  function Skew(a: nat, b: nat): nat {
    if a <= b then b - a else a - b
  }

  datatype Verdict = Fresh | Refused(error: Error)

  function AdmitTriple(m: Memory<Triple>, triple: Triple, nowUnix: nat): (Memory<Triple>, Verdict) {
    if Skew(nowUnix, triple.sentUnix) > REPLAY_WINDOW then (m, Refused(OutsideWindow))
    else if triple in m.seen then (m, Refused(Replayed))
    else (Remembered(m, SEEN_REMEMBERED, triple), Fresh)
  }

  // ----- one datagram -----

  datatype Counters = Counters(
    accepted: nat, malformed: nat, otherCommunity: nat, notAFriend: nat, badSignature: nat,
    rateLimited: nat, ourselves: nat, outsideWindow: nat, replayed: nat, sourceNotLocal: nat)

  function Total(c: Counters): nat {
    c.accepted + c.malformed + c.otherCommunity + c.notAFriend + c.badSignature
    + c.rateLimited + c.ourselves + c.outsideWindow + c.replayed + c.sourceNotLocal
  }

  function CountDrop(c: Counters, error: Error): Counters {
    match error
    case Malformed => c.(malformed := c.malformed + 1)
    case OtherCommunity => c.(otherCommunity := c.otherCommunity + 1)
    case NotAFriend => c.(notAFriend := c.notAFriend + 1)
    case BadSignature => c.(badSignature := c.badSignature + 1)
    case Ourselves => c.(ourselves := c.ourselves + 1)
    case RateLimited => c.(rateLimited := c.rateLimited + 1)
    case OutsideWindow => c.(outsideWindow := c.outsideWindow + 1)
    case Replayed => c.(replayed := c.replayed + 1)
    case SourceNotLocal => c.(sourceNotLocal := c.sourceNotLocal + 1)
  }

  datatype Config = Config(community: Bytes, ownKey: Key)

  datatype State = State(
    window: Window,
    gaps: Gaps,
    memory: Memory<Triple>,
    cache: map<Key, seq<AddressCache.Entry>>,
    counters: Counters)

  datatype Heard = Discovered(key: Key, addr: SocketAddr, reply: Option<SocketAddr>) | Dropped(error: Error)

  function Drop(s: State, error: Error): (State, Heard) {
    (s.(counters := CountDrop(s.counters, error)), Dropped(error))
  }

  function Held(cache: map<Key, seq<AddressCache.Entry>>, key: Key): seq<AddressCache.Entry> {
    if key in cache then cache[key] else []
  }

  /** The kernel's address with the announced port, in its one spelling. */
  function Announced(a: Announce, from: SocketAddr): SocketAddr {
    Unmap(SocketAddr(from.ip, a.port))
  }

  /** After every check but the source's: remember the address, and reply once to a friend not yet held. */
  function Accept(s: State, a: Announce, from: SocketAddr, now: nat): (State, Heard) {
    var addr := Announced(a, from);
    if !IsLocalSource(addr.ip, false) then Drop(s, SourceNotLocal)
    else
      var held := Held(s.cache, a.key);
      (s.(cache := s.cache[a.key := AddressCache.Remembered(held, addr, CandidateSource.Discovery, now)],
          counters := s.counters.(accepted := s.counters.accepted + 1)),
       Discovered(a.key, addr, if held == [] then Some(from) else None))
  }

  /** The checks that spend something on the announcing key's behalf, after its signature. */
  function Spend(s: State, a: Announce, from: SocketAddr, now: nat, nowUnix: nat): (State, Heard) {
    var (gaps, quiet) := AdmitKey(s.gaps, a.key, now);
    var s1 := s.(gaps := gaps);
    if !quiet then Drop(s1, RateLimited)
    else
      var (memory, verdict) := AdmitTriple(s.memory, TripleOf(a), nowUnix);
      var s2 := s1.(memory := memory);
      if verdict.Refused? then Drop(s2, verdict.error) else Accept(s2, a, from, now)
  }

  /** Whose announces are read at all: a friend's, and this house's own. */
  function Known(c: Config, isFriend: Key -> bool): Key -> bool {
    key => key == c.ownKey || isFriend(key)
  }

  function OnDatagram(c: Config, s: State, bytes: Bytes, from: SocketAddr, now: nat, nowUnix: nat,
                      isFriend: Key -> bool, verify: Verifier): (State, Heard)
  {
    var w := Rolled(s.window, now);
    if w.used >= PACKETS_PER_SECOND then Drop(s.(window := w), RateLimited)
    else
      var s1 := s.(window := Counted(w));
      var parsed := Parse(bytes, c.community, Known(c, isFriend));
      if parsed.Err? then Drop(s1, parsed.error)
      else if parsed.announce.key == c.ownKey then Drop(s1, Ourselves)
      else if !Signed(bytes, parsed.announce.key, verify) then Drop(s1, BadSignature)
      else Spend(s1, parsed.announce, from, now, nowUnix)
  }

  // ----- as the source writes it -----

  class ReplayGuard {
    var seen: set<Triple>
    var order: seq<Triple>

    ghost function Value(): Memory<Triple>
      reads this
    {
      Memory(seen, order)
    }

    constructor ()
      ensures Value() == Memory({}, [])
    {
      seen, order := {}, [];
    }

    method Admit(a: Announce, nowUnix: nat) returns (verdict: Verdict)
      modifies this
      ensures (Value(), verdict) == AdmitTriple(old(Value()), TripleOf(a), nowUnix)
    {
      var skew := if a.sentUnix <= nowUnix then nowUnix - a.sentUnix else a.sentUnix - nowUnix;
      if skew > REPLAY_WINDOW {
        return Refused(OutsideWindow);
      }
      var triple := TripleOf(a);
      if triple in seen {
        return Refused(Replayed);
      }
      seen := seen + {triple};
      order := order + [triple];
      ghost var grown := Memory(seen, order);
      while |order| > SEEN_REMEMBERED
        invariant Evicted(Value(), SEEN_REMEMBERED) == Evicted(grown, SEEN_REMEMBERED)
        decreases |order|
      {
        var evicted := order[0];
        order := order[1..];
        seen := seen - {evicted};
      }
      return Fresh;
    }
  }

  class ReceiveLimiter {
    var windowStart: nat
    var inWindow: nat
    var lastFrom: map<Key, nat>
    var order: seq<Key>

    ghost function WindowNow(): Window
      reads this
    {
      Window(windowStart, inWindow)
    }

    ghost function GapsNow(): Gaps
      reads this
    {
      Gaps(lastFrom, order)
    }

    constructor (now: nat)
      ensures WindowNow() == Window(now, 0) && GapsNow() == Gaps(map[], [])
    {
      windowStart, inWindow, lastFrom, order := now, 0, map[], [];
    }

    method AdmitPacket(now: nat) returns (admitted: bool)
      modifies this`windowStart, this`inWindow
      ensures admitted <==> Rolled(old(WindowNow()), now).used < PACKETS_PER_SECOND
      ensures WindowNow() == var w := Rolled(old(WindowNow()), now); if admitted then Counted(w) else w
    {
      if Since(now, windowStart) >= SECOND {
        windowStart := now;
        inWindow := 0;
      }
      if inWindow >= PACKETS_PER_SECOND {
        return false;
      }
      inWindow := inWindow + 1;
      return true;
    }

    method AdmitQuietKey(key: Key, now: nat) returns (admitted: bool)
      modifies this`lastFrom, this`order
      ensures (GapsNow(), admitted) == AdmitKey(old(GapsNow()), key, now)
    {
      if key in lastFrom && Since(now, lastFrom[key]) < PER_KEY_GAP {
        return false;
      }
      var known := key in lastFrom;
      lastFrom := lastFrom[key := now];
      if !known {
        order := order + [key];
        ghost var grown := Gaps(lastFrom, order);
        while |order| > KEYS_REMEMBERED
          invariant EvictedKeys(GapsNow()) == EvictedKeys(grown)
          decreases |order|
        {
          var evicted := order[0];
          order := order[1..];
          lastFrom := lastFrom - {evicted};
        }
      }
      return true;
    }
  }

  class Machine {
    const config: Config
    const limiter: ReceiveLimiter
    const replay: ReplayGuard
    const cache: AddressCache.Cache
    var counters: Counters

    ghost function Value(): State
      reads this, limiter, replay, cache
    {
      State(limiter.WindowNow(), limiter.GapsNow(), replay.Value(), cache.entries, counters)
    }

    constructor (config: Config, now: nat)
      ensures this.config == config && Value() == Born(now)
    {
      this.config := config;
      limiter := new ReceiveLimiter(now);
      replay := new ReplayGuard();
      cache := new AddressCache.Cache();
      counters := Counters(0, 0, 0, 0, 0, 0, 0, 0, 0, 0);
    }

    method DropWith(error: Error) returns (heard: Heard)
      modifies this`counters
      ensures counters == CountDrop(old(counters), error) && heard == Dropped(error)
    {
      counters := CountDrop(counters, error);
      heard := Dropped(error);
    }

    method OnBytes(bytes: Bytes, from: SocketAddr, now: nat, nowUnix: nat, isFriend: Key -> bool, verify: Verifier)
      returns (heard: Heard)
      modifies this, limiter, replay, cache
      ensures (Value(), heard) == OnDatagram(config, old(Value()), bytes, from, now, nowUnix, isFriend, verify)
    {
      hide Signed, Known, IsLocalSource, Unmap;
      var admitted := limiter.AdmitPacket(now);
      if !admitted {
        heard := DropWith(RateLimited);
        return;
      }
      var parsed := Parse(bytes, config.community, Known(config, isFriend));
      if parsed.Err? {
        heard := DropWith(parsed.error);
        return;
      }
      var announce := parsed.announce;
      if announce.key == config.ownKey {
        heard := DropWith(Ourselves);
        return;
      }
      if !Signed(bytes, announce.key, verify) {
        heard := DropWith(BadSignature);
        return;
      }
      var quiet := limiter.AdmitQuietKey(announce.key, now);
      if !quiet {
        heard := DropWith(RateLimited);
        return;
      }
      var verdict := replay.Admit(announce, nowUnix);
      if verdict.Refused? {
        heard := DropWith(verdict.error);
        return;
      }
      var addr := Unmap(SocketAddr(from.ip, announce.port));
      if !IsLocalSource(addr.ip, false) {
        heard := DropWith(SourceNotLocal);
        return;
      }
      var heldBefore := cache.Held(announce.key) != [];
      cache.Remember(announce.key, addr, CandidateSource.Discovery, now);
      counters := counters.(accepted := counters.accepted + 1);
      heard := Discovered(announce.key, addr, if heldBefore then None else Some(from));
    }
  }

  function Born(now: nat): State {
    State(Window(now, 0), Gaps(map[], []), Memory({}, []), map[], Counters(0, 0, 0, 0, 0, 0, 0, 0, 0, 0))
  }
}
