/**
 The addresses a house keeps for its friends between attempts
 (crates/mosschat-net/src/live.rs:488-701). Instants are nanoseconds.
 */
module AddressCache {
  import opened Common
  import opened Addresses

  type Key = seq<Byte>

  datatype Entry = Entry(addr: SocketAddr, source: CandidateSource, lastAnswer: nat)

  const PER_PEER := 8
  const SECOND := 1_000_000_000

  function Ttl(source: CandidateSource): nat {
    if source.Discovery? then 300 * SECOND else 600 * SECOND
  }

  /** The place of `addr` among the entries, or their number. */
  function Find(held: seq<Entry>, addr: SocketAddr): (k: nat)
    ensures k <= |held|
    ensures k < |held| ==> held[k].addr == addr
    ensures forall j :: 0 <= j < k ==> held[j].addr != addr
  {
    if held == [] || held[0].addr == addr then 0 else 1 + Find(held[1..], addr)
  }

  /** The first entry answered longest ago. */
  function Oldest(held: seq<Entry>): (k: nat)
    requires held != []
    ensures k < |held|
    ensures forall j :: 0 <= j < |held| ==> held[k].lastAnswer <= held[j].lastAnswer
    ensures forall j :: 0 <= j < k ==> held[k].lastAnswer < held[j].lastAnswer
  {
    if |held| == 1 then 0
    else
      var rest := Oldest(held[..|held| - 1]);
      if held[|held| - 1].lastAnswer < held[rest].lastAnswer then |held| - 1 else rest
  }

  function Without(held: seq<Entry>, k: nat): (r: seq<Entry>)
    requires k < |held|
    ensures |r| == |held| - 1
  {
    held[..k] + held[k + 1..]
  }

  function Trimmed(held: seq<Entry>): seq<Entry>
    decreases |held|
  {
    if |held| <= PER_PEER then held else Trimmed(Without(held, Oldest(held)))
  }

  function Remembered(held: seq<Entry>, addr: SocketAddr, source: CandidateSource, now: nat): seq<Entry> {
    var k := Find(held, addr);
    if k < |held| then held[k := Entry(addr, source, now)] else Trimmed(held + [Entry(addr, source, now)])
  }

  ghost predicate Distinct(held: seq<Entry>) {
    && (forall k :: 0 <= k < |held| ==> !IsMapped(held[k].addr))
    && (forall j, k :: 0 <= j < k < |held| ==> held[j].addr != held[k].addr)
  }

  /** What every operation keeps of one peer's list (`RunKeeps`, below). */
  ghost predicate Kept(held: seq<Entry>) {
    |held| <= PER_PEER && Distinct(held)
  }

  /** Trimming one past the cap drops the oldest and keeps everything else. */
  lemma TrimDropsOldest(grown: seq<Entry>)
    requires |grown| == PER_PEER + 1 && Distinct(grown)
    ensures var after := Trimmed(grown); var oldest := grown[Oldest(grown)];
            && Kept(after)
            && (forall e :: e in after ==> e in grown && oldest.lastAnswer <= e.lastAnswer)
            && (forall e :: e in grown && e != oldest ==> e in after)
  {
    var k := Oldest(grown);
    var after := Without(grown, k);
    assert Trimmed(grown) == after;
    forall e | e in grown && e != grown[k]
      ensures e in after
    {
      var j :| 0 <= j < |grown| && grown[j] == e;
      assert after[if j < k then j else j - 1] == e;
    }
  }

  lemma AppendKeeps(held: seq<Entry>, added: Entry)
    requires Kept(held) && Find(held, added.addr) == |held| && !IsMapped(added.addr)
    ensures Kept(Trimmed(held + [added]))
    ensures forall e :: e in Trimmed(held + [added]) ==> e in held || e == added
    ensures forall lost, kept :: lost in held && lost !in Trimmed(held + [added]) && kept in Trimmed(held + [added])
                                 ==> lost.lastAnswer <= kept.lastAnswer
    ensures (forall e :: e in held ==> e.lastAnswer < added.lastAnswer) ==> added in Trimmed(held + [added])
  {
    var grown := held + [added];
    assert grown[|held|] == added && Distinct(grown);
    assert forall e :: e in grown <==> e in held || e == added;
    if |grown| > PER_PEER {
      TrimDropsOldest(grown);
      assert grown[0] in held && grown[Oldest(grown)].lastAnswer <= grown[0].lastAnswer;
      hide Trimmed, Distinct;
    }
  }

  lemma RefreshKeeps(held: seq<Entry>, k: nat, added: Entry)
    requires Kept(held) && k < |held| && held[k].addr == added.addr
    ensures Kept(held[k := added]) && added in held[k := added]
    ensures forall e :: e in held[k := added] ==> e in held || e == added
    ensures forall e :: e in held && e.addr != added.addr ==> e in held[k := added]
  {
    var after := held[k := added];
    assert after[k] == added;
    forall e | e in held && e.addr != added.addr
      ensures e in after
    {
      var j :| 0 <= j < |held| && held[j] == e;
      assert after[j] == e;
    }
  }

  /**
   Remembering keeps the list bounded and distinct, always holds the address just
   seen when it is the newest, and pushes out only something that answered no
   later than everything that stays.
   */
  lemma RememberKeeps(held: seq<Entry>, addr: SocketAddr, source: CandidateSource, now: nat)
    requires Kept(held)
    ensures var after := Remembered(held, Unmap(addr), source, now);
            && Kept(after)
            && (forall e :: e in after ==> e in held || e == Entry(Unmap(addr), source, now))
            && (forall lost, kept :: lost in held && lost.addr != Unmap(addr) && lost !in after && kept in after
                                     ==> lost.lastAnswer <= kept.lastAnswer)
            && ((forall e :: e in held ==> e.lastAnswer < now) ==> Entry(Unmap(addr), source, now) in after)
  {
    var k, added := Find(held, Unmap(addr)), Entry(Unmap(addr), source, now);
    if k < |held| {
      RefreshKeeps(held, k, added);
    } else {
      AppendKeeps(held, added);
    }
  }

  function Alive(held: seq<Entry>, now: nat): (r: seq<Entry>)
    ensures forall e :: e in r <==> e in held && Since(now, e.lastAnswer) < Ttl(e.source)
    ensures |r| <= |held|
  {
    if held == [] then []
    else
      var rest := Alive(held[..|held| - 1], now);
      if Since(now, held[|held| - 1].lastAnswer) < Ttl(held[|held| - 1].source) then rest + [held[|held| - 1]] else rest
  }

  /** The entries that are not of this address. */
  function Others(held: seq<Entry>, addr: SocketAddr): (r: seq<Entry>)
    ensures forall e :: e in r <==> e in held && e.addr != addr
    ensures |r| <= |held|
  {
    if held == [] then []
    else
      var rest := Others(held[..|held| - 1], addr);
      if held[|held| - 1].addr != addr then rest + [held[|held| - 1]] else rest
  }

  lemma {:induction false} AliveAdds(a: seq<Entry>, b: seq<Entry>, now: nat)
    ensures Alive(a + b, now) == Alive(a, now) + Alive(b, now)
  {
    hide Ttl, Others;
    if b == [] {
      assert a + b == a;
    } else {
      AliveAdds(a, b[..|b| - 1], now);
      assert (a + b)[..|a + b| - 1] == a + b[..|b| - 1];
    }
  }

  lemma {:induction false} OthersAdd(a: seq<Entry>, b: seq<Entry>, addr: SocketAddr)
    ensures Others(a + b, addr) == Others(a, addr) + Others(b, addr)
  {
    if b == [] {
      assert a + b == a;
    } else {
      OthersAdd(a, b[..|b| - 1], addr);
      assert (a + b)[..|a + b| - 1] == a + b[..|b| - 1];
    }
  }

  /** Neither pass reorders what it leaves, nor leaves it twice: one stretch of entries after another. */
  lemma OrderIsKept(a: seq<Entry>, b: seq<Entry>, now: nat, addr: SocketAddr)
    ensures Alive(a + b, now) == Alive(a, now) + Alive(b, now)
    ensures Others(a + b, addr) == Others(a, addr) + Others(b, addr)
    ensures |a| == 1 ==> |Alive(a, now)| <= 1 && |Others(a, addr)| <= 1
  {
    hide *;
    AliveAdds(a, b, now);
    OthersAdd(a, b, addr);
  }

  // ----- the whole cache, over runs -----

  type Entries = map<Key, seq<Entry>>

  function HeldIn(entries: Entries, peer: Key): seq<Entry> {
    if peer in entries then entries[peer] else []
  }

  /** A peer with nothing left has no list. */
  function Put(entries: Entries, peer: Key, held: seq<Entry>): Entries {
    if held == [] then entries - {peer} else entries[peer := held]
  }

  datatype Op =
    | RememberIt(peer: Key, addr: SocketAddr, source: CandidateSource, now: nat)
    | AnswerIt(peer: Key, addr: SocketAddr, now: nat)
    | ExpireAt(now: nat)
    | DialFails(peer: Key, addr: SocketAddr)

  function Step(entries: Entries, op: Op): Entries {
    match op
    case RememberIt(peer, addr, source, now) =>
      entries[peer := Remembered(HeldIn(entries, peer), Unmap(addr), source, now)]
    case AnswerIt(peer, addr, now) =>
      var held := HeldIn(entries, peer);
      var k := Find(held, Unmap(addr));
      if k < |held| then entries[peer := held[k := held[k].(lastAnswer := now)]] else entries
    case ExpireAt(now) =>
      map peer | peer in entries && Alive(entries[peer], now) != [] :: Alive(entries[peer], now)
    case DialFails(peer, addr) =>
      if peer in entries then Put(entries, peer, Others(entries[peer], Unmap(addr))) else entries
  }

  function Run(entries: Entries, ops: seq<Op>): Entries {
    if ops == [] then entries else Step(Run(entries, ops[..|ops| - 1]), ops[|ops| - 1])
  }

  /** Every list is bounded and distinct, and nobody has an empty one. */
  ghost predicate AllKept(entries: Entries) {
    forall peer :: peer in entries ==> Kept(entries[peer]) && entries[peer] != []
  }

  lemma RememberedIsNotEmpty(held: seq<Entry>, addr: SocketAddr, source: CandidateSource, now: nat)
    requires |held| <= PER_PEER
    ensures Remembered(held, addr, source, now) != []
  {
    var grown := held + [Entry(addr, source, now)];
    if Find(held, addr) == |held| && |grown| > PER_PEER {
      assert Trimmed(grown) == Trimmed(Without(grown, Oldest(grown)));
    }
  }

  lemma {:induction false} AliveIsKept(held: seq<Entry>, now: nat)
    requires Kept(held)
    ensures Kept(Alive(held, now))
  {
    if held != [] {
      AliveIsKept(held[..|held| - 1], now);
    }
  }

  lemma {:induction false} OthersAreKept(held: seq<Entry>, addr: SocketAddr)
    requires Kept(held)
    ensures Kept(Others(held, addr))
  {
    if held != [] {
      OthersAreKept(held[..|held| - 1], addr);
    }
  }

  lemma StepKeeps(entries: Entries, op: Op)
    requires AllKept(entries)
    ensures AllKept(Step(entries, op))
  {
    match op {
      case RememberIt(peer, addr, source, now) =>
        assert Kept(HeldIn(entries, peer));
        RememberKeeps(HeldIn(entries, peer), addr, source, now);
        RememberedIsNotEmpty(HeldIn(entries, peer), Unmap(addr), source, now);
        hide Kept, Remembered;
      case AnswerIt(peer, addr, now) =>
        var held := HeldIn(entries, peer);
        var k := Find(held, Unmap(addr));
        if k < |held| {
          RefreshKeeps(held, k, held[k].(lastAnswer := now));
        }
        hide Kept;
      case ExpireAt(now) =>
        forall peer | peer in entries
          ensures Kept(Alive(entries[peer], now))
        {
          AliveIsKept(entries[peer], now);
        }
        hide Kept;
      case DialFails(peer, addr) =>
        if peer in entries {
          OthersAreKept(entries[peer], Unmap(addr));
        }
        hide Kept;
    }
  }

  /** Whatever is remembered, answered, expired or fails, in any order and at any readings. */
  lemma {:induction false} RunKeeps(ops: seq<Op>)
    ensures AllKept(Run(map[], ops))
  {
    if ops != [] {
      hide AllKept, Step;
      RunKeeps(ops[..|ops| - 1]);
      StepKeeps(Run(map[], ops[..|ops| - 1]), ops[|ops| - 1]);
    } else {
      assert AllKept(map[]);
    }
  }

  // ----- as the source writes it -----

  class Cache {
    var entries: map<Key, seq<Entry>>

    constructor ()
      ensures entries == map[]
    {
      entries := map[];
    }

    function Held(peer: Key): seq<Entry>
      reads this
    {
      HeldIn(entries, peer)
    }

    method Remember(peer: Key, addr: SocketAddr, source: CandidateSource, now: nat)
      modifies this
      ensures entries == old(entries)[peer := Remembered(old(Held(peer)), Unmap(addr), source, now)]
      ensures entries == Step(old(entries), RememberIt(peer, addr, source, now))
    {
      var plain := Unmap(addr);
      var held := Held(peer);
      var k := 0;
      while k < |held| && held[k].addr != plain
        invariant k <= |held|
        invariant forall j :: 0 <= j < k ==> held[j].addr != plain
      {
        k := k + 1;
      }
      assert k == Find(held, plain);
      if k < |held| {
        held := held[k := Entry(plain, source, now)];
      } else {
        held := held + [Entry(plain, source, now)];
        ghost var grown := held;
        while |held| > PER_PEER
          invariant Trimmed(held) == Trimmed(grown)
          decreases |held|
        {
          held := Without(held, Oldest(held));
        }
      }
      entries := entries[peer := held];
    }

    method Answered(peer: Key, addr: SocketAddr, now: nat)
      modifies this
      ensures var k := Find(old(Held(peer)), Unmap(addr));
              entries == if k < |old(Held(peer))|
                         then old(entries)[peer := old(Held(peer))[k := old(Held(peer))[k].(lastAnswer := now)]]
                         else old(entries)
      ensures entries == Step(old(entries), AnswerIt(peer, addr, now))
    {
      var held := Held(peer);
      var k := Find(held, Unmap(addr));
      if k < |held| {
        entries := entries[peer := held[k := held[k].(lastAnswer := now)]];
      }
    }

    /** Nothing is left that has gone unanswered for its lifetime, and nobody is left with nothing. */
    method Expire(now: nat)
      modifies this
      ensures forall peer :: peer in entries ==> peer in old(entries) && entries[peer] == Alive(old(entries)[peer], now)
      ensures forall peer :: peer in old(entries) && Alive(old(entries)[peer], now) != [] ==> peer in entries
      ensures forall peer :: peer in entries ==> entries[peer] != []
      ensures entries == Step(old(entries), ExpireAt(now))
    {
      entries := map peer | peer in entries && Alive(entries[peer], now) != [] :: Alive(entries[peer], now);
    }

    /** A failed dial takes its address out at once; there is no retry to return. */
    method DialFailed(peer: Key, addr: SocketAddr)
      modifies this
      ensures forall e :: e in Held(peer) <==> e in old(Held(peer)) && e.addr != Unmap(addr)
      ensures forall other :: other != peer ==> Held(other) == old(Held(other))
      ensures peer in entries ==> peer in old(entries)
      ensures entries == Step(old(entries), DialFails(peer, addr))
    {
      if peer in entries {
        var held := entries[peer];
        var left: seq<Entry> := [];
        for k := 0 to |held|
          invariant left == Others(held[..k], Unmap(addr))
        {
          assert held[..k + 1][..k] == held[..k];
          if held[k].addr != Unmap(addr) {
            left := left + [held[k]];
          }
        }
        assert held[..|held|] == held;
        entries := if left == [] then entries - {peer} else entries[peer := left];
      }
    }
  }
}
