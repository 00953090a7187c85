/**
 What the porch socket shows quinn of a batch of received buffers
 (crates/mosschat-net/src/sock.rs:1011-1117): probes are lifted out, sources are
 classified, and a slot that may not be shown is emptied in place.
 */
module Porch {
  import opened Common
  import opened Addresses
  import opened PorchFilter
  import Leases
  import Path
  import ProbePacket
  import ProbeQueues

  datatype Meta = Meta(addr: SocketAddr, len: nat, stride: nat)

  datatype Verdict = Keep | Rewrite(synthetic: SocketAddr) | Refuse

  /** One received slot: its metadata and its bytes. */
  datatype Slot = Slot(meta: Meta, data: Bytes)

  /** What of a slot is not a probe. */
  function Quic(slot: Slot): seq<Bytes> {
    var len := Min(slot.meta.len, |slot.data|);
    Kept(Segments(slot.data[..len], Stride(slot.meta.len, slot.meta.stride)))
  }

  function SlotProbes(slot: Slot): seq<Bytes> {
    var len := Min(slot.meta.len, |slot.data|);
    Probes(Segments(slot.data[..len], Stride(slot.meta.len, slot.meta.stride)))
  }

  /** Some peer proved this address. */
  predicate Proved(paths: map<SocketAddr, Path.Kind>, addr: SocketAddr) {
    exists s :: s in paths && paths[s] == Path.Direct(addr)
  }

  /** What may be shown of a packet from `addr`, given the dialled addresses, the proved ones and whether the rule is armed. */
  ghost predicate Verdicts(dialled: map<nat, seq<SocketAddr>>, paths: map<SocketAddr, Path.Kind>, armed: bool,
                           addr: SocketAddr, v: Verdict)
  {
    var plain := Unmap(addr);
    match v
    case Keep => Leases.Held(dialled, plain) || (!Proved(paths, plain) && !armed)
    case Rewrite(s) => !Leases.Held(dialled, plain) && s in paths && paths[s] == Path.Direct(plain)
    case Refuse => !Leases.Held(dialled, plain) && !Proved(paths, plain) && armed
  }

  /** A slot after the batch: empty, or its QUIC segments packed at the front under an address quinn may see. */
  ghost predicate Shown(dialled: map<nat, seq<SocketAddr>>, paths: map<SocketAddr, Path.Kind>, armed: bool,
                        before: Slot, after: Slot)
  {
    var kept := Flat(Quic(before));
    && after.meta.stride == before.meta.stride && |after.data| == |before.data|
    && |kept| <= |after.data| && after.data[..|kept|] == kept
    && exists v :: Verdicts(dialled, paths, armed, before.meta.addr, v)
         && after.meta.len == (if v.Refuse? then 0 else |kept|)
         && after.meta.addr == if v.Rewrite? && kept != [] then v.synthetic else before.meta.addr
  }

  /** The probe queues after the probes of one slot. */
  function QueueSlot(mac: ProbePacket.Mac, s: ProbeQueues.State, slot: Slot): ProbeQueues.State {
    ProbeQueues.QueueAll(mac, s, Unmap(slot.meta.addr), SlotProbes(slot))
  }

  /** The probe queues after the probes of these slots, in order. */
  function QueuedFrom(mac: ProbePacket.Mac, s: ProbeQueues.State, slots: seq<Slot>): ProbeQueues.State {
    if slots == [] then s
    else QueueSlot(mac, QueuedFrom(mac, s, slots[..|slots| - 1]), slots[|slots| - 1])
  }

  class PorchSocket {
    const allowed: Leases.AllowedSources
    const book: ProbeQueues.Book
    var paths: map<SocketAddr, Path.Kind>
    var armed: bool
    var unknownSourceDropped: nat

    constructor ()
      ensures allowed.Valid() && fresh(allowed) && fresh(book) && !armed && paths == map[]
    {
      allowed := new Leases.AllowedSources();
      book := new ProbeQueues.Book();
      paths, armed, unknownSourceDropped := map[], false, 0;
    }

    /** Puts the drop rule in force for good. */
    method Arm()
      modifies this`armed
      ensures armed
    {
      armed := true;
    }

    method ClassifySource(addr: SocketAddr) returns (v: Verdict)
      requires allowed.Valid()
      ensures Verdicts(allowed.byLease, paths, armed, addr, v)
    {
      var plain := Unmap(addr);
      var held := allowed.Contains(plain);
      if held {
        return Keep;
      }
      var left := paths.Keys;
      while left != {}
        invariant left <= paths.Keys
        invariant forall s :: s in paths && s !in left ==> paths[s] != Path.Direct(plain)
        decreases |left|
      {
        var s :| s in left;
        if paths[s] == Path.Direct(plain) {
          return Rewrite(s);
        }
        left := left - {s};
      }
      return if armed then Refuse else Keep;
    }

    /** One slot of the batch. */
    method DemultiplexSlot(mac: ProbePacket.Mac, buf: array<Byte>, meta: Meta) returns (shown: Meta, carries: bool)
      requires allowed.Valid()
      modifies buf, this`unknownSourceDropped, book`queues, book`unauthenticated, book`dropped
      ensures Shown(allowed.byLease, paths, armed, Slot(meta, old(buf[..])), Slot(shown, buf[..]))
      ensures carries <==> shown.len > 0
      ensures book.Value() == ProbeQueues.QueueAll(mac, old(book.Value()), Unmap(meta.addr), SlotProbes(Slot(meta, old(buf[..]))))
    {
      ghost var before := Slot(meta, buf[..]);
      var kept, probes := FilterProbes(buf, meta.len, meta.stride);
      hide Segments, Kept, Probes, Flat;
      assert buf[..][..kept] == buf[..kept] == Flat(Quic(before));
      book.QueueProbes(mac, Unmap(meta.addr), probes);
      var v := ClassifySource(meta.addr);
      shown := meta;
      if kept == 0 || v.Refuse? {
        if kept > 0 {
          unknownSourceDropped := unknownSourceDropped + 1;
        }
        shown := shown.(len := 0);
      } else {
        shown := shown.(len := kept);
        if v.Rewrite? {
          shown := shown.(addr := v.synthetic);
        }
      }
      carries := shown.len > 0;
    }

    /** One slot in place, and no other. */
    method DemultiplexAt(mac: ProbePacket.Mac, bufs: seq<array<Byte>>, meta: array<Meta>, index: nat)
      returns (carries: bool)
      requires allowed.Valid() && index < |bufs| && index < meta.Length
      requires forall i, j :: 0 <= i < j < |bufs| ==> bufs[i] != bufs[j]
      modifies bufs, meta, this`unknownSourceDropped, book`queues, book`unauthenticated, book`dropped
      ensures Shown(allowed.byLease, paths, armed, old(Slot(meta[index], bufs[index][..])), Slot(meta[index], bufs[index][..]))
      ensures forall i :: 0 <= i < meta.Length && i != index ==> meta[i] == old(meta[i])
      ensures forall i :: 0 <= i < |bufs| && i != index ==> bufs[i][..] == old(bufs[i][..])
      ensures carries <==> meta[index].len > 0
      ensures book.Value() == QueueSlot(mac, old(book.Value()), old(Slot(meta[index], bufs[index][..])))
    {
      hide Shown, ProbeQueues.QueueAll, SlotProbes;
      var shown, carried := DemultiplexSlot(mac, bufs[index], meta[index]);
      meta[index] := shown;
      carries := carried;
    }

    /**
     The first `count` slots, each on its own: what it was before decides what it is
     after. Returns how many still carry something.
     */
    method Demultiplex(mac: ProbePacket.Mac, bufs: seq<array<Byte>>, meta: array<Meta>, count: nat)
      returns (carrying: nat)
      requires allowed.Valid()
      requires forall i, j :: 0 <= i < j < |bufs| ==> bufs[i] != bufs[j]
      modifies bufs, meta, this`unknownSourceDropped, book`queues, book`unauthenticated, book`dropped
      ensures var limit := Min(count, Min(|bufs|, meta.Length));
              && (forall i :: 0 <= i < limit ==>
                    Shown(allowed.byLease, paths, armed, old(Slot(meta[i], bufs[i][..])), Slot(meta[i], bufs[i][..])))
              && (forall i :: limit <= i < meta.Length ==> meta[i] == old(meta[i]))
              && (forall i :: limit <= i < |bufs| ==> bufs[i][..] == old(bufs[i][..]))
              && carrying == Carrying(meta[..limit])
              && book.Value() == QueuedFrom(mac, old(book.Value()), old(SlotsOf(bufs, meta, limit)))
    {
      hide Shown, QueueSlot, QueuedFrom, Carrying;
      var limit := Min(count, Min(|bufs|, meta.Length));
      ghost var slots, start := SlotsOf(bufs, meta, limit), book.Value();
      carrying := 0;
      NothingYet(mac, start);
      assert meta[..0] == [] && slots[..0] == [];
      for index := 0 to limit
        invariant forall i :: 0 <= i < index ==>
                    Shown(allowed.byLease, paths, armed, slots[i], Slot(meta[i], bufs[i][..]))
        invariant forall i :: index <= i < meta.Length ==> meta[i] == old(meta[i])
        invariant forall i :: index <= i < |bufs| ==> bufs[i][..] == old(bufs[i][..])
        invariant carrying == Carrying(meta[..index])
        invariant book.Value() == QueuedFrom(mac, start, slots[..index])
      {
        ghost var done := meta[..index];
        var carries := DemultiplexAt(mac, bufs, meta, index);
        carrying := carrying + if carries then 1 else 0;
        OneMoreQueued(mac, start, slots, index);
        OneMoreCarried(done, meta[index]);
        assert meta[..index + 1] == done + [meta[index]];
      }
      assert slots[..limit] == slots;
    }
  }

  function Carrying(meta: seq<Meta>): nat {
    if meta == [] then 0 else Carrying(meta[..|meta| - 1]) + if meta[|meta| - 1].len > 0 then 1 else 0
  }

  lemma NothingYet(mac: ProbePacket.Mac, s: ProbeQueues.State)
    ensures Carrying([]) == 0 && QueuedFrom(mac, s, []) == s
  {
  }

  lemma OneMoreCarried(done: seq<Meta>, next: Meta)
    ensures Carrying(done + [next]) == Carrying(done) + if next.len > 0 then 1 else 0
  {
    assert (done + [next])[..|done|] == done;
  }

  lemma OneMoreQueued(mac: ProbePacket.Mac, s: ProbeQueues.State, slots: seq<Slot>, k: nat)
    requires k < |slots|
    ensures QueuedFrom(mac, s, slots[..k + 1]) == QueueSlot(mac, QueuedFrom(mac, s, slots[..k]), slots[k])
  {
    assert slots[..k + 1][..k] == slots[..k];
  }

  function SlotsOf(bufs: seq<array<Byte>>, meta: array<Meta>, limit: nat): (r: seq<Slot>)
    requires limit <= |bufs| && limit <= meta.Length
    reads bufs, meta
    ensures |r| == limit && forall i :: 0 <= i < limit ==> r[i] == Slot(meta[i], bufs[i][..])
  {
    if limit == 0 then [] else SlotsOf(bufs, meta, limit - 1) + [Slot(meta[limit - 1], bufs[limit - 1][..])]
  }

  /**
   Section 3's rule: once armed, quinn sees bytes only from an address this house
   dialled, unchanged, or from one a peer proved, as that peer's synthetic address;
   and what it sees splits into exactly the datagrams that were not probes.
   */
  lemma ArmedShowsOnlyKnownSources(dialled: map<nat, seq<SocketAddr>>, paths: map<SocketAddr, Path.Kind>,
                                   before: Slot, after: Slot)
    requires Shown(dialled, paths, true, before, after) && after.meta.len > 0
    ensures var plain := Unmap(before.meta.addr);
            || (Leases.Held(dialled, plain) && after.meta.addr == before.meta.addr)
            || (after.meta.addr in paths && paths[after.meta.addr] == Path.Direct(plain))
    ensures var stride := Stride(before.meta.len, before.meta.stride);
            stride > 0 && after.meta.len <= |after.data|
            && Segments(after.data[..after.meta.len], stride) == Quic(before)
  {
    var len, stride := Min(before.meta.len, |before.data|), Stride(before.meta.len, before.meta.stride);
    ResplitsTheSame(before.data[..len], stride);
    assert Flat(Quic(before)) != [];
  }
}
