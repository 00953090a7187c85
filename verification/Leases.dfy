/**
 The live gate-address set: a refcounted union of one set per connection
 (crates/mosschat-net/src/sock.rs:85-146, 705-724).
 */
module Leases {
  import opened Common
  import opened Addresses

  type Lease = nat

  /** Each place in a live lease's list that holds `addr`. */
  ghost function Places(byLease: map<Lease, seq<SocketAddr>>, addr: SocketAddr): set<(Lease, int)> {
    set l, k | l in byLease && 0 <= k < |byLease[l]| && byLease[l][k] == addr :: (l, k)
  }

  ghost predicate Held(byLease: map<Lease, seq<SocketAddr>>, addr: SocketAddr) {
    exists l :: l in byLease && addr in byLease[l]
  }

  lemma HeldIffPlaces(byLease: map<Lease, seq<SocketAddr>>, addr: SocketAddr)
    ensures Held(byLease, addr) <==> Places(byLease, addr) != {}
  {
    if Held(byLease, addr) {
      var l :| l in byLease && addr in byLease[l];
      var k :| 0 <= k < |byLease[l]| && byLease[l][k] == addr;
      assert (l, k) in Places(byLease, addr);
    }
    if Places(byLease, addr) != {} {
      var p :| p in Places(byLease, addr);
      assert addr in byLease[p.0];
    }
  }

  /** While a lease is being withdrawn: the other leases' places, and its own from the i-th on. */
  ghost function Remaining(others: map<Lease, seq<SocketAddr>>, lease: Lease, addrs: seq<SocketAddr>, i: nat, a: SocketAddr)
    : set<(Lease, int)>
    requires i <= |addrs|
  {
    Places(others, a) + set k | i <= k < |addrs| && addrs[k] == a :: (lease, k)
  }

  predicate CountedBy(refcounts: map<SocketAddr, nat>, a: SocketAddr, places: set<(Lease, int)>) {
    (a in refcounts <==> places != {}) && (a in refcounts ==> refcounts[a] == |places|)
  }

  /** The count of an address is the number of places that still hold it, and no count is zero. */
  ghost predicate Counts(refcounts: map<SocketAddr, nat>, others: map<Lease, seq<SocketAddr>>,
                         lease: Lease, addrs: seq<SocketAddr>, i: nat)
    requires i <= |addrs|
  {
    forall a :: CountedBy(refcounts, a, Remaining(others, lease, addrs, i, a))
  }

  lemma NothingWithdrawn(byLease: map<Lease, seq<SocketAddr>>, lease: Lease, addrs: seq<SocketAddr>, a: SocketAddr)
    ensures Remaining(byLease, lease, addrs, |addrs|, a) == Places(byLease, a)
  {
  }

  class AllowedSources {
    var byLease: map<Lease, seq<SocketAddr>>
    var refcounts: map<SocketAddr, nat>

    ghost predicate Valid()
      reads this
    {
      Counts(refcounts, byLease, 0, [], 0)
    }

    constructor ()
      ensures Valid() && byLease == map[]
    {
      byLease, refcounts := map[], map[];
    }

    /** Whether any live connection's set holds `addr`: one lookup, and exactly the union. */
    method Contains(addr: SocketAddr) returns (held: bool)
      requires Valid()
      ensures held <==> Held(byLease, addr)
    {
      HeldIffPlaces(byLease, addr);
      NothingWithdrawn(byLease, 0, [], addr);
      assert CountedBy(refcounts, addr, Remaining(byLease, 0, [], 0, addr));
      held := addr in refcounts;
    }

    method Allow(lease: Lease, addr: SocketAddr)
      requires Valid()
      modifies this
      ensures Valid()
      ensures byLease == old(byLease)[lease := (if lease in old(byLease) then old(byLease)[lease] else []) + [addr]]
    {
      OnePlaceMore(refcounts, byLease, lease, addr);
      hide Counts;
      var held := if lease in byLease then byLease[lease] else [];
      byLease := byLease[lease := held + [addr]];
      refcounts := refcounts[addr := (if addr in refcounts then refcounts[addr] else 0) + 1];
    }

    /**
     Withdraws everything a connection put in, and nothing another still holds. A
     lease that holds nothing, or was withdrawn before, is left as it is.
     */
    method Forget(lease: Lease)
      requires Valid()
      modifies this
      ensures Valid() && byLease == old(byLease) - {lease}
    {
      if lease !in byLease {
        assert byLease - {lease} == byLease;
        return;
      }
      ghost var before := byLease;
      var addrs := byLease[lease];
      byLease := byLease - {lease};
      forall a
        ensures Remaining(before, 0, [], 0, a) == Remaining(byLease, lease, addrs, 0, a)
      {
        ForgetLeavesAll(before, lease, a);
        NothingWithdrawn(before, 0, [], a);
      }
      for i := 0 to |addrs|
        invariant byLease == before - {lease}
        invariant Counts(refcounts, byLease, lease, addrs, i)
      {
        var addr := addrs[i];
        OnePlaceLess(refcounts, byLease, lease, addrs, i);
        // The count is never zero here, so the source's saturating subtraction subtracts.
        assert addr in refcounts && refcounts[addr] >= 1;
        var count := refcounts[addr] - 1;
        refcounts := if count == 0 then refcounts - {addr} else refcounts[addr := count];
      }
      forall a
        ensures Remaining(byLease, lease, addrs, |addrs|, a) == Remaining(byLease, 0, [], 0, a)
      {
        NothingWithdrawn(byLease, lease, addrs, a);
        NothingWithdrawn(byLease, 0, [], a);
      }
    }
  }

  lemma AllowAddsOnePlace(before: map<Lease, seq<SocketAddr>>, lease: Lease, addr: SocketAddr, a: SocketAddr)
    ensures var held := if lease in before then before[lease] else [];
            Places(before[lease := held + [addr]], a) == Places(before, a) + if a == addr then {(lease, |held|)} else {}
  {
    var held := if lease in before then before[lease] else [];
    var after := before[lease := held + [addr]];
    forall p
      ensures p in Places(after, a) <==> p in Places(before, a) + if a == addr then {(lease, |held|)} else {}
    {
      if p.0 == lease && 0 <= p.1 < |held| {
        assert after[lease][p.1] == held[p.1];
      }
    }
  }

  lemma ForgetLeavesAll(before: map<Lease, seq<SocketAddr>>, lease: Lease, a: SocketAddr)
    requires lease in before
    ensures Places(before, a) == Remaining(before - {lease}, lease, before[lease], 0, a)
  {
    var after := before - {lease};
    forall p
      ensures p in Places(before, a) <==> p in Remaining(after, lease, before[lease], 0, a)
    {
      assert p.0 in after <==> p.0 in before && p.0 != lease;
    }
  }

  lemma OnePlaceGoes(others: map<Lease, seq<SocketAddr>>, lease: Lease, addrs: seq<SocketAddr>, i: nat, a: SocketAddr)
    requires i < |addrs| && lease !in others
    ensures Remaining(others, lease, addrs, i + 1, a)
         == Remaining(others, lease, addrs, i, a) - (if a == addrs[i] then {(lease, i)} else {})
  {
    assert (lease, i) !in Places(others, a);
  }

  lemma ItsOwnPlace(others: map<Lease, seq<SocketAddr>>, lease: Lease, addrs: seq<SocketAddr>, i: nat)
    requires i < |addrs|
    ensures (lease, i) in Remaining(others, lease, addrs, i, addrs[i])
  {
  }

  lemma CountOneLess(refcounts: map<SocketAddr, nat>, addr: SocketAddr, a: SocketAddr,
                     places: set<(Lease, int)>, place: (Lease, int))
    requires addr in refcounts && refcounts[addr] >= 1 && CountedBy(refcounts, a, places)
    requires a == addr ==> place in places
    ensures CountedBy(if refcounts[addr] == 1 then refcounts - {addr} else refcounts[addr := refcounts[addr] - 1],
                      a, places - (if a == addr then {place} else {}))
  {
    if a == addr {
      assert |places - {place}| == |places| - 1;
    }
  }

  lemma CountOneMore(refcounts: map<SocketAddr, nat>, addr: SocketAddr, a: SocketAddr,
                     places: set<(Lease, int)>, place: (Lease, int))
    requires CountedBy(refcounts, a, places)
    requires a == addr ==> place !in places
    ensures CountedBy(refcounts[addr := (if addr in refcounts then refcounts[addr] else 0) + 1],
                      a, places + (if a == addr then {place} else {}))
  {
  }

  /** Withdrawing the i-th address takes one from its count, or the address itself with its last count. */
  lemma OnePlaceLess(refcounts: map<SocketAddr, nat>, others: map<Lease, seq<SocketAddr>>,
                     lease: Lease, addrs: seq<SocketAddr>, i: nat)
    requires i < |addrs| && lease !in others && Counts(refcounts, others, lease, addrs, i)
    ensures addrs[i] in refcounts && refcounts[addrs[i]] >= 1
    ensures var addr := addrs[i];
            Counts(if refcounts[addr] == 1 then refcounts - {addr} else refcounts[addr := refcounts[addr] - 1],
                   others, lease, addrs, i + 1)
  {
    var addr := addrs[i];
    ItsOwnPlace(others, lease, addrs, i);
    assert CountedBy(refcounts, addr, Remaining(others, lease, addrs, i, addr));
    var after := if refcounts[addr] == 1 then refcounts - {addr} else refcounts[addr := refcounts[addr] - 1];
    hide Remaining, CountedBy;
    var next := i + 1;
    forall a
      ensures CountedBy(after, a, Remaining(others, lease, addrs, next, a))
    {
      assert CountedBy(refcounts, a, Remaining(others, lease, addrs, i, a));
      OnePlaceGoes(others, lease, addrs, i, a);
      CountOneLess(refcounts, addr, a, Remaining(others, lease, addrs, i, a), (lease, i));
    }
  }

  lemma NotAPlaceYet(before: map<Lease, seq<SocketAddr>>, lease: Lease, addr: SocketAddr)
    ensures (lease, if lease in before then |before[lease]| else 0) !in Remaining(before, 0, [], 0, addr)
  {
  }

  lemma OnePlaceMore(refcounts: map<SocketAddr, nat>, before: map<Lease, seq<SocketAddr>>, lease: Lease, addr: SocketAddr)
    requires Counts(refcounts, before, 0, [], 0)
    ensures var held := if lease in before then before[lease] else [];
            Counts(refcounts[addr := (if addr in refcounts then refcounts[addr] else 0) + 1],
                   before[lease := held + [addr]], 0, [], 0)
  {
    hide Remaining, Places, CountedBy;
    var held := if lease in before then before[lease] else [];
    var after := before[lease := held + [addr]];
    var counts := refcounts[addr := (if addr in refcounts then refcounts[addr] else 0) + 1];
    forall a
      ensures CountedBy(counts, a, Remaining(after, 0, [], 0, a))
    {
      assert CountedBy(refcounts, a, Remaining(before, 0, [], 0, a));
      AllowAddsOnePlace(before, lease, addr, a);
      NothingWithdrawn(before, 0, [], a);
      NothingWithdrawn(after, 0, [], a);
      NotAPlaceYet(before, lease, addr);
      CountOneMore(refcounts, addr, a, Remaining(before, 0, [], 0, a), (lease, |held|));
    }
  }
}
