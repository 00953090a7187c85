/**
 What the address cache remembers of each address, over any operations in any order
 (crates/mosschat-net/src/live.rs:488-701): when it last answered, on whose word, and how
 long it is kept.
 */
module AddressCacheRuns {
  import opened Common
  import opened Addresses
  import opened AddressCache

  /** When an address was last remembered or answered, and who it was last remembered from. */
  datatype Seen = Seen(at: nat, source: CandidateSource)

  type Sightings = map<(Key, SocketAddr), Seen>

  /** What one call says of one address, whether or not the cache holds it. */
  function Noted(seen: Sightings, op: Op): Sightings {
    match op
    case RememberIt(peer, addr, source, now) => seen[(peer, Unmap(addr)) := Seen(now, source)]
    case AnswerIt(peer, addr, now) =>
      var place := (peer, Unmap(addr));
      if place in seen then seen[place := seen[place].(at := now)] else seen
    case _ => seen
  }

  function Sighted(ops: seq<Op>): Sightings {
    if ops == [] then map[] else Noted(Sighted(ops[..|ops| - 1]), ops[|ops| - 1])
  }

  /** This entry is what was last seen of its address. */
  predicate AsSeen(seen: Sightings, peer: Key, e: Entry) {
    (peer, e.addr) in seen && seen[(peer, e.addr)] == Seen(e.lastAnswer, e.source)
  }

  ghost predicate AllAsSeen(entries: Entries, seen: Sightings) {
    forall peer, e :: peer in entries && e in entries[peer] ==> AsSeen(seen, peer, e)
  }

  lemma RememberIsSeen(entries: Entries, seen: Sightings, op: Op)
    requires AllKept(entries) && AllAsSeen(entries, seen) && op.RememberIt?
    ensures AllAsSeen(Step(entries, op), Noted(seen, op))
  {
    var held, added := HeldIn(entries, op.peer), Entry(Unmap(op.addr), op.source, op.now);
    assert Kept(held);
    RememberKeeps(held, op.addr, op.source, op.now);
    OnlyAddedAtItsAddress(held, op.addr, op.source, op.now);
    hide Remembered, Kept, AllKept, Unmap;
  }

  /** What is held of the address remembered is what was just remembered. */
  lemma OnlyAddedAtItsAddress(held: seq<Entry>, addr: SocketAddr, source: CandidateSource, now: nat)
    requires Kept(held)
    ensures var added := Entry(Unmap(addr), source, now);
            forall e :: e in Remembered(held, Unmap(addr), source, now) && e.addr == added.addr ==> e == added
  {
    var added := Entry(Unmap(addr), source, now);
    var k := Find(held, added.addr);
    if k == |held| {
      AppendKeeps(held, added);
    }
    hide Trimmed;
  }

  lemma AnswerIsSeen(entries: Entries, seen: Sightings, op: Op)
    requires AllKept(entries) && AllAsSeen(entries, seen) && op.AnswerIt?
    ensures AllAsSeen(Step(entries, op), Noted(seen, op))
  {
    var held, plain := HeldIn(entries, op.peer), Unmap(op.addr);
    assert Kept(held);
    var k := Find(held, plain);
    forall peer, e | peer in Step(entries, op) && e in Step(entries, op)[peer]
      ensures AsSeen(Noted(seen, op), peer, e)
    {
      if peer == op.peer {
        var list := HeldIn(Step(entries, op), peer);
        var j :| 0 <= j < |list| && list[j] == e;
        assert held[j] in held && AsSeen(seen, peer, held[j]);
        assert j != k ==> held[j].addr != plain;
      } else {
        assert AsSeen(seen, peer, e);
      }
    }
  }

  lemma OthersAreSeen(entries: Entries, seen: Sightings, op: Op)
    requires AllAsSeen(entries, seen) && (op.ExpireAt? || op.DialFails?)
    ensures AllAsSeen(Step(entries, op), Noted(seen, op))
  {
  }

  /** Every entry of every run holds when its address last answered or was remembered, and from whom. */
  lemma {:induction false} EntriesAreAsLastSeen(ops: seq<Op>)
    ensures AllAsSeen(Run(map[], ops), Sighted(ops))
  {
    if ops != [] {
      var so, op := ops[..|ops| - 1], ops[|ops| - 1];
      EntriesAreAsLastSeen(so);
      AddressCache.RunKeeps(so);
      hide AllAsSeen, AllKept, Step, Noted;
      match op {
        case RememberIt(_, _, _, _) => RememberIsSeen(Run(map[], so), Sighted(so), op);
        case AnswerIt(_, _, _) => AnswerIsSeen(Run(map[], so), Sighted(so), op);
        case _ => OthersAreSeen(Run(map[], so), Sighted(so), op);
      }
    }
  }

  /** How long an address is kept after it last answered: five minutes if it was overheard, ten otherwise. */
  function Lifetime(source: CandidateSource): nat {
    match source
    case Discovery => 300_000_000_000
    case _ => 600_000_000_000
  }

  /** This address was last seen too long ago to be kept. */
  predicate RunOut(seen: Sightings, place: (Key, SocketAddr), now: nat) {
    place in seen && Since(now, seen[place].at) >= Lifetime(seen[place].source)
  }

  /**
   In every run an expiry pass drops exactly the entries whose lifetime has run out since
   their address was last seen, and a peer left with none is not known at all.
   */
  lemma ExpiryIsExact(ops: seq<Op>, now: nat, peer: Key, e: Entry)
    ensures var before, after := Run(map[], ops), Step(Run(map[], ops), ExpireAt(now));
            && (e in HeldIn(after, peer) <==> e in HeldIn(before, peer) && !RunOut(Sighted(ops), (peer, e.addr), now))
            && (peer in after <==> HeldIn(after, peer) != [])
  {
    EntriesAreAsLastSeen(ops);
    hide Run, Sighted, Kept;
  }
}
