/**
 Lifting probes out of one received buffer, in place
 (crates/mosschat-net/src/sock.rs:900-950). A buffer may hold several datagrams
 of one stride, the last possibly shorter; a probe is a segment of exactly 81
 bytes that starts with 0x2A.
 */
module PorchFilter {
  import opened Common

  type Bytes = seq<Byte>

  const PROBE_DISCRIMINATOR: Byte := 0x2A
  const PROBE_LEN := 81

  predicate IsProbe(segment: Bytes) {
    |segment| == PROBE_LEN && segment[0] == PROBE_DISCRIMINATOR
  }

  /** The datagrams of a buffer. */
  function Segments(data: Bytes, stride: nat): (s: seq<Bytes>)
    requires data == [] || stride > 0
    ensures data == [] ==> s == []
  {
    if data == [] then []
    else if |data| <= stride then [data]
    else [data[..stride]] + Segments(data[stride..], stride)
  }

  function Kept(segments: seq<Bytes>): seq<Bytes> {
    if segments == [] then []
    else if IsProbe(segments[0]) then Kept(segments[1..])
    else [segments[0]] + Kept(segments[1..])
  }

  function Probes(segments: seq<Bytes>): (p: seq<Bytes>)
    ensures forall k :: 0 <= k < |p| ==> IsProbe(p[k])
  {
    if segments == [] then []
    else if IsProbe(segments[0]) then [segments[0]] + Probes(segments[1..])
    else Probes(segments[1..])
  }

  function Flat(segments: seq<Bytes>): Bytes {
    if segments == [] then [] else segments[0] + Flat(segments[1..])
  }

  /** 81 bytes that start with 0x2A are a probe; anything with QUIC's fixed bit set is not. */
  lemma ProbesAreNotQuic(segment: Bytes)
    ensures IsProbe(segment) <==> |segment| == 81 && segment[0] == 42
    ensures IsProbe(segment) ==> segment[0] / 64 % 2 == 0
  {
  }

  lemma {:induction false} KeptAdds(a: seq<Bytes>, b: seq<Bytes>)
    ensures Kept(a + b) == Kept(a) + Kept(b)
  {
    hide IsProbe;
    if a == [] {
      assert a + b == b;
    } else {
      KeptAdds(a[1..], b);
      assert (a + b)[1..] == a[1..] + b;
    }
  }

  lemma {:induction false} ProbesAdd(a: seq<Bytes>, b: seq<Bytes>)
    ensures Probes(a + b) == Probes(a) + Probes(b)
  {
    hide IsProbe;
    if a == [] {
      assert a + b == b;
    } else {
      ProbesAdd(a[1..], b);
      assert (a + b)[1..] == a[1..] + b;
    }
  }

  lemma OneGoesOneWay(segment: Bytes)
    ensures Kept([segment]) == (if IsProbe(segment) then [] else [segment])
    ensures Probes([segment]) == (if IsProbe(segment) then [segment] else [])
  {
    hide IsProbe;
    assert [segment][1..] == [];
  }

  /** Sorting one stretch after another is sorting the two together, and one segment goes one way: order is kept. */
  lemma SortingIsInOrder(a: seq<Bytes>, segment: Bytes, b: seq<Bytes>)
    ensures Kept(a + [segment] + b) == Kept(a) + (if IsProbe(segment) then [] else [segment]) + Kept(b)
    ensures Probes(a + [segment] + b) == Probes(a) + (if IsProbe(segment) then [segment] else []) + Probes(b)
  {
    hide *;
    KeptAdds(a + [segment], b);
    KeptAdds(a, [segment]);
    ProbesAdd(a + [segment], b);
    ProbesAdd(a, [segment]);
    OneGoesOneWay(segment);
  }

  /** Nothing is lost: what stays and 81 bytes a probe are what came. */
  lemma {:induction false} BytesAreConserved(data: Bytes, stride: nat)
    requires data == [] || stride > 0
    ensures var s := Segments(data, stride);
            Flat(s) == data && |Flat(Kept(s))| + PROBE_LEN * |Probes(s)| == |data|
    decreases |data|
  {
    var s := Segments(data, stride);
    if data != [] && |data| > stride {
      BytesAreConserved(data[stride..], stride);
      assert s[1..] == Segments(data[stride..], stride);
      assert data == data[..stride] + data[stride..];
    } else if data != [] {
      assert s[1..] == [];
      assert data + [] == data;
    }
  }

  /** Every segment but the last is a whole stride long, and none is empty or longer. */
  predicate Strided(segments: seq<Bytes>, stride: nat) {
    && (forall k :: 0 <= k < |segments| ==> 0 < |segments[k]| <= stride)
    && (forall k :: 0 <= k < |segments| - 1 ==> |segments[k]| == stride)
  }

  lemma {:induction false} SegmentsAreStrided(data: Bytes, stride: nat)
    requires data == [] || stride > 0
    ensures Strided(Segments(data, stride), stride)
    decreases |data|
  {
    if data != [] && |data| > stride {
      SegmentsAreStrided(data[stride..], stride);
    }
  }

  lemma {:induction false} StridedSplitsBack(segments: seq<Bytes>, stride: nat)
    requires Strided(segments, stride)
    ensures (Flat(segments) == [] || stride > 0) && Segments(Flat(segments), stride) == segments
    decreases |segments|
  {
    if segments != [] {
      var rest := segments[1..];
      StridedSplitsBack(rest, stride);
      if rest == [] {
        assert segments == [segments[0]] && Flat(segments) == segments[0] + [] == segments[0];
      } else {
        var flat := Flat(segments);
        assert Flat(rest) != [] by { assert Flat(rest) == rest[0] + Flat(rest[1..]); }
        assert flat[..stride] == segments[0] && flat[stride..] == Flat(rest);
        assert segments == [segments[0]] + rest;
      }
    }
  }

  lemma {:induction false} KeptAreStrided(segments: seq<Bytes>, stride: nat)
    requires Strided(segments, stride)
    ensures Strided(Kept(segments), stride)
    decreases |segments|
  {
    if segments != [] {
      assert Strided(segments[1..], stride);
      KeptAreStrided(segments[1..], stride);
      if Kept(segments[1..]) != [] {
        assert |segments| > 1;
      }
    }
  }

  /** Splitting what was kept at the same stride gives back exactly the segments that were not probes. */
  lemma ResplitsTheSame(data: Bytes, stride: nat)
    requires data == [] || stride > 0
    ensures var kept := Kept(Segments(data, stride));
            (Flat(kept) == [] || stride > 0) && Segments(Flat(kept), stride) == kept
  {
    SegmentsAreStrided(data, stride);
    KeptAreStrided(Segments(data, stride), stride);
    StridedSplitsBack(Kept(Segments(data, stride)), stride);
  }

  // ----- in place -----

  function Stride(metaLen: nat, metaStride: nat): nat {
    if metaStride == 0 then metaLen else metaStride
  }

  /** What is left to split once the first `read` bytes have been. */
  lemma FirstSegment(data: Bytes, stride: nat)
    requires data != [] && stride > 0
    ensures var end := Min(stride, |data|);
            Segments(data, stride) == [data[..end]] + Segments(data[end..], stride)
  {
    if |data| <= stride {
      assert data[..|data|] == data;
    }
  }

  lemma {:induction false} FlatOfSum(a: seq<Bytes>, b: seq<Bytes>)
    ensures Flat(a + b) == Flat(a) + Flat(b)
    decreases |a|
  {
    if a == [] {
      assert a + b == b;
    } else {
      FlatOfSum(a[1..], b);
      assert (a + b)[1..] == a[1..] + b;
    }
  }

  /** Moves a stretch of the buffer towards its front; the two may overlap. */
  method CopyWithin(buf: array<Byte>, from: nat, end: nat, to: nat)
    requires to <= from <= end <= buf.Length
    modifies buf
    ensures buf[..to] == old(buf[..to])
    ensures buf[to..to + (end - from)] == old(buf[from..end])
    ensures buf[end..] == old(buf[end..])
  {
    forall k | 0 <= k < end - from {
      buf[to + k] := buf[from + k];
    }
  }

  /** One more segment, on both sides of the cursor. */
  lemma OneMoreSegment(data: Bytes, stride: nat, read: nat, done: seq<Bytes>, probes: seq<Bytes>)
    requires read < |data| && stride > 0
    ensures var end := Min(read + stride, |data|);
            var segment := data[read..end];
            && Kept(Segments(data[read..], stride))
               == (if IsProbe(segment) then [] else [segment]) + Kept(Segments(data[end..], stride))
            && Probes(Segments(data[read..], stride))
               == (if IsProbe(segment) then [segment] else []) + Probes(Segments(data[end..], stride))
            && Flat(done + [segment]) == Flat(done) + segment
  {
    var end := Min(read + stride, |data|);
    FirstSegment(data[read..], stride);
    assert data[read..][..end - read] == data[read..end] && data[read..][end - read..] == data[end..];
    SplitOne(data[read..end], Segments(data[end..], stride));
    FlatOfOneMore(done, data[read..end]);
    hide Segments, IsProbe, Kept, Probes, Flat;
  }

  lemma SplitOne(first: Bytes, rest: seq<Bytes>)
    ensures Kept([first] + rest) == (if IsProbe(first) then [] else [first]) + Kept(rest)
    ensures Probes([first] + rest) == (if IsProbe(first) then [first] else []) + Probes(rest)
  {
    hide IsProbe;
    assert ([first] + rest)[1..] == rest;
  }

  lemma FlatOfOneMore(done: seq<Bytes>, segment: Bytes)
    ensures Flat(done + [segment]) == Flat(done) + segment
  {
    FlatOfSum(done, [segment]);
    assert Flat([segment]) == segment + Flat([]) == segment;
  }

  /** Keeps one segment by moving it down to what is kept already. */
  method KeepSegment(buf: array<Byte>, read: nat, end: nat, kept: nat) returns (after: nat)
    requires kept <= read <= end <= buf.Length
    modifies buf
    ensures after == kept + (end - read)
    ensures buf[..after] == old(buf[..kept]) + old(buf[read..end])
    ensures buf[end..] == old(buf[end..])
  {
    after := kept + (end - read);
    if kept != read {
      CopyWithin(buf, read, end, kept);
    }
    assert buf[..after] == buf[..kept] + buf[kept..after];
  }

  /** Half way: what is kept is packed at the front, what is unread is where it was. */
  ghost predicate Progress(now: Bytes, data: Bytes, past: Bytes, stride: nat,
                           read: nat, kept: nat, probes: seq<Bytes>, done: seq<Bytes>)
    requires data == [] || stride > 0
  {
    && kept <= read <= |data| <= |now|
    && done + Kept(Segments(data[read..], stride)) == Kept(Segments(data, stride))
    && probes + Probes(Segments(data[read..], stride)) == Probes(Segments(data, stride))
    && now[..kept] == Flat(done)
    && now[read..] == data[read..] + past
  }

  lemma Unread(now: Bytes, data: Bytes, past: Bytes, read: nat, end: nat)
    requires read <= end <= |data| <= |now| && now[read..] == data[read..] + past
    ensures now[read..end] == data[read..end] && now[end..] == data[end..] + past
  {
    assert now[read..][..end - read] == now[read..end] && (data[read..] + past)[..end - read] == data[read..end];
    assert now[read..][end - read..] == now[end..] && (data[read..] + past)[end - read..] == data[end..] + past;
  }

  lemma ProgressPast(now: Bytes, now': Bytes, data: Bytes, past: Bytes, stride: nat,
                     read: nat, kept: nat, probes: seq<Bytes>, done: seq<Bytes>)
    requires stride > 0 && read < |data| && Progress(now, data, past, stride, read, kept, probes, done)
    requires var end := Min(read + stride, |data|);
             var segment := data[read..end];
             && |now'| == |now| && now'[end..] == now[end..]
             && (if IsProbe(segment) then now'[..kept] == now[..kept]
                 else now'[..kept + (end - read)] == now[..kept] + segment)
    ensures var end := Min(read + stride, |data|);
            var segment := data[read..end];
            if IsProbe(segment) then Progress(now', data, past, stride, end, kept, probes + [segment], done)
            else Progress(now', data, past, stride, end, kept + (end - read), probes, done + [segment])
  {
    hide Segments, Kept, Probes, Flat, IsProbe;
    var end := Min(read + stride, |data|);
    Unread(now, data, past, read, end);
    OneMoreSegment(data, stride, read, done, probes);
  }

  /** One turn of the loop. */
  method TakeSegment(buf: array<Byte>, stride: nat, len: nat, read: nat, kept: nat, probes: seq<Bytes>,
                     ghost data: Bytes, ghost past: Bytes, ghost done: seq<Bytes>)
    returns (end: nat, kept': nat, probes': seq<Bytes>, ghost done': seq<Bytes>)
    requires read < len == |data| && stride > 0
    requires Progress(buf[..], data, past, stride, read, kept, probes, done)
    modifies buf
    ensures end == Min(read + stride, len)
    ensures Progress(buf[..], data, past, stride, end, kept', probes', done')
  {
    ghost var now := buf[..];
    end := Min(read + stride, len);
    Unread(now, data, past, read, end);
    hide Progress, IsProbe;
    var segment := buf[read..end];
    assert segment == now[read..end];
    kept', probes', done' := kept, probes, done;
    if IsProbe(segment) {
      probes' := probes + [segment];
    } else {
      kept' := KeepSegment(buf, read, end, kept);
      done' := done + [segment];
      assert buf[..][..kept'] == buf[..kept'] && buf[..][end..] == buf[end..];
    }
    ProgressPast(now, buf[..], data, past, stride, read, kept, probes, done);
  }

  /** Drops the probes, repacks what is left at the front, and returns both. */
  method FilterProbes(buf: array<Byte>, metaLen: nat, metaStride: nat) returns (kept: nat, probes: seq<Bytes>)
    modifies buf
    ensures var len, stride := Min(metaLen, buf.Length), Stride(metaLen, metaStride);
            var segments := Segments(old(buf[..])[..len], stride);
            && kept <= len
            && buf[..kept] == Flat(Kept(segments))
            && probes == Probes(segments)
            && kept + PROBE_LEN * |probes| == len
            && buf[len..] == old(buf[len..])
  {
    hide Segments, Kept, Probes, Flat;
    var stride := if metaStride == 0 then metaLen else metaStride;
    var len := Min(metaLen, buf.Length);
    ghost var data, past, done := buf[..][..len], buf[len..], [];
    var read := 0;
    kept, probes := 0, [];
    NothingIsFlat();
    assert data[0..] == data && buf[..][0..] == data + past;
    assert Progress(buf[..], data, past, stride, 0, 0, [], []);
    hide Progress;
    while read < len
      invariant Progress(buf[..], data, past, stride, read, kept, probes, done)
      decreases len - read
    {
      read, kept, probes, done := TakeSegment(buf, stride, len, read, kept, probes, data, past, done);
    }
    AllTaken(buf[..], data, past, stride, kept, probes, done);
    assert buf[..][..kept] == buf[..kept] && buf[..][len..] == buf[len..];
    BytesAreConserved(data, stride);
  }

  lemma AllTaken(now: Bytes, data: Bytes, past: Bytes, stride: nat, kept: nat, probes: seq<Bytes>, done: seq<Bytes>)
    requires (data == [] || stride > 0) && Progress(now, data, past, stride, |data|, kept, probes, done)
    ensures kept <= |data| <= |now| && now[..kept] == Flat(Kept(Segments(data, stride)))
    ensures probes == Probes(Segments(data, stride)) && now[|data|..] == past
  {
    NothingIsSplit(stride);
    hide Segments, Kept, Probes, Flat;
    assert data[|data|..] == [] && done + [] == done && probes + [] == probes && [] + past == past;
  }

  lemma NothingIsFlat()
    ensures Flat([]) == []
  {
  }

  lemma NothingIsSplit(stride: nat)
    ensures Segments([], stride) == [] && Kept([]) == [] && Probes([]) == []
  {
  }
}
