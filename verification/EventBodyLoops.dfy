/**
 The encoder and the decoders as the source writes them: appending to a buffer,
 and advancing a cursor in a loop that fills in what it finds
 (crates/mosschat-core/src/event/body.rs:325-447, 457-864).
 */
module EventBodyLoops {
  import opened Common
  import opened Cbor
  import opened EventBody

  lemma BlobsWrittenOneMore(bs: seq<Bytes>, k: nat)
    requires All32(bs) && k < |bs|
    ensures WriteBlobs(bs[k..]) == WriteString(BYTES, bs[k]) + WriteBlobs(bs[k + 1..])
  {
    assert bs[k..][1..] == bs[k + 1..];
  }

  /** An array head and its 32 byte strings. */
  method PutBlobs(buffer: Bytes, bs: seq<Bytes>) returns (out: Bytes)
    requires All32(bs) && |bs| < MAX_ARG
    ensures out == buffer + WriteValue(Blobs(bs))
  {
    hide Head, WriteString, WriteBlobs;
    out := buffer + Head(ARRAY, |bs|);
    assert bs[0..] == bs;
    for k := 0 to |bs|
      invariant out + WriteBlobs(bs[k..]) == buffer + Head(ARRAY, |bs|) + WriteBlobs(bs)
    {
      BlobsWrittenOneMore(bs, k);
      assert out + (WriteString(BYTES, bs[k]) + WriteBlobs(bs[k + 1..]))
          == (out + WriteString(BYTES, bs[k])) + WriteBlobs(bs[k + 1..]);
      out := out + WriteString(BYTES, bs[k]);
    }
    NoBlobsLeft(bs);
    assert out + [] == out;
    assert buffer + Head(ARRAY, |bs|) + WriteBlobs(bs) == buffer + (Head(ARRAY, |bs|) + WriteBlobs(bs));
  }

  lemma NoBlobsLeft(bs: seq<Bytes>)
    ensures All32(bs[|bs|..]) && WriteBlobs(bs[|bs|..]) == []
  {
  }

  lemma {:induction false} WrittenOneMore(fields: seq<Field>, f: Field)
    requires WritableFields(fields) && f.key < MAX_ARG && Writable(f.value)
    ensures WritableFields(fields + [f])
    ensures WriteFields(fields + [f]) == WriteFields(fields) + (Head(UINT, f.key) + WriteValue(f.value))
    decreases |fields|
  {
    hide Head, WriteValue, Writable;
    if fields == [] {
      assert fields + [f] == [f] && [f][1..] == [];
    } else {
      WrittenOneMore(fields[1..], f);
      assert (fields + [f])[1..] == fields[1..] + [f];
    }
  }

  /** The buffer so far: a map head and some fields. */
  ghost predicate Holds(buffer: Bytes, count: nat, fields: seq<Field>) {
    count < MAX_ARG && WritableFields(fields) && buffer == Head(MAP, count) + WriteFields(fields)
  }

  lemma HoldsOneMore(buffer: Bytes, count: nat, fields: seq<Field>, f: Field)
    requires Holds(buffer, count, fields) && f.key < MAX_ARG && Writable(f.value)
    ensures Holds(buffer + Head(UINT, f.key) + WriteValue(f.value), count, fields + [f])
  {
    WrittenOneMore(fields, f);
    hide Head, WriteFields, WriteValue, Writable;
    Regrouped(Head(MAP, count), WriteFields(fields), Head(UINT, f.key), WriteValue(f.value));
  }

  lemma Regrouped(a: Bytes, b: Bytes, c: Bytes, d: Bytes)
    ensures a + b + c + d == a + (b + (c + d))
  {
  }

  /** One key and its value. */
  method PutField(buffer: Bytes, ghost count: nat, ghost fields: seq<Field>, f: Field) returns (out: Bytes)
    requires Holds(buffer, count, fields) && f.key < MAX_ARG && Writable(f.value)
    ensures Holds(out, count, fields + [f])
  {
    HoldsOneMore(buffer, count, fields, f);
    hide Holds, Head;
    if f.value.Blobs? {
      out := PutBlobs(buffer + Head(UINT, f.key), f.value.bs);
    } else {
      out := buffer + Head(UINT, f.key) + WriteValue(f.value);
    }
  }

  /** The map head, which must count what follows, and the type under key 0. */
  method PutTag(count: nat, tag: nat) returns (out: Bytes)
    requires count < MAX_ARG && tag < MAX_ARG
    ensures Holds(out, count, [Field(0, Num(tag))])
  {
    assert Head(MAP, count) + [] == Head(MAP, count);
    assert WriteFields([]) == [];
    hide WriteFields, Head;
    out := PutField(Head(MAP, count), count, [], Field(0, Num(tag)));
    assert [] + [Field(0, Num(tag))] == [Field(0, Num(tag))];
  }

  predicate Writes(b: Body) {
    !b.Unknown? && WritableFields(FieldsOf(b))
  }

  lemma PartsAreWritable(b: Body)
    requires Writes(b)
    ensures forall k :: 0 <= k < |Required(b)| ==> Writable(Required(b)[k].value)
    ensures forall k :: 0 <= k < |Optional(b)| ==> Writable(Optional(b)[k].value)
  {
    hide Required, Optional, Writable;
    var fields := FieldsOf(b);
    assert forall k :: 0 <= k < |Required(b)| ==> fields[1 + k] == Required(b)[k];
    assert forall k :: 0 <= k < |Optional(b)| ==> fields[1 + |Required(b)| + k] == Optional(b)[k];
  }

  ghost predicate Encoded(buffer: Bytes, b: Body) {
    Writes(b) && Holds(buffer, |FieldsOf(b)|, FieldsOf(b))
  }

  method EncodeMessage(b: Body) returns (buffer: Bytes)
    requires b.Message? && Writes(b)
    ensures Encoded(buffer, b)
  {
    PartsAreWritable(b);
    hide Holds;
    var count := if b.replyTo.Some? then 3 else 2;
    buffer := PutTag(count, MESSAGE);
    ghost var fields := [Field(0, Num(MESSAGE))];
    assert Writable(Required(b)[0].value);
    buffer := PutField(buffer, count, fields, Field(1, Text(b.text)));
    fields := fields + [Field(1, Text(b.text))];
    if b.replyTo.Some? {
      assert Writable(Optional(b)[0].value);
      buffer := PutField(buffer, count, fields, Field(2, Blob(b.replyTo.value)));
      fields := fields + [Field(2, Blob(b.replyTo.value))];
    }
    assert fields == FieldsOf(b);
  }

  method EncodeReaction(b: Body) returns (buffer: Bytes)
    requires b.Reaction? && Writes(b)
    ensures Encoded(buffer, b)
  {
    PartsAreWritable(b);
    hide Holds;
    var count := if b.remove then 4 else 3;
    buffer := PutTag(count, REACTION);
    ghost var fields := [Field(0, Num(REACTION))];
    assert Writable(Required(b)[0].value);
    buffer := PutField(buffer, count, fields, Field(1, Blob(b.target)));
    fields := fields + [Field(1, Blob(b.target))];
    assert Writable(Required(b)[1].value);
    buffer := PutField(buffer, count, fields, Field(2, Text(b.symbol)));
    fields := fields + [Field(2, Text(b.symbol))];
    if b.remove {
      assert Writable(Optional(b)[0].value);
      buffer := PutField(buffer, count, fields, Field(3, Flag));
      fields := fields + [Field(3, Flag)];
    }
    assert fields == FieldsOf(b);
  }

  method EncodeAttachment(b: Body) returns (buffer: Bytes)
    requires b.Attachment? && Writes(b)
    ensures Encoded(buffer, b)
  {
    PartsAreWritable(b);
    hide Holds;
    var count := if b.mediaType.Some? then 5 else 4;
    buffer := PutTag(count, ATTACHMENT);
    ghost var fields := [Field(0, Num(ATTACHMENT))];
    assert Writable(Required(b)[0].value);
    buffer := PutField(buffer, count, fields, Field(1, Blob(b.hash)));
    fields := fields + [Field(1, Blob(b.hash))];
    assert Writable(Required(b)[1].value);
    buffer := PutField(buffer, count, fields, Field(2, Num(b.size)));
    fields := fields + [Field(2, Num(b.size))];
    assert Writable(Required(b)[2].value);
    buffer := PutField(buffer, count, fields, Field(3, Text(b.name)));
    fields := fields + [Field(3, Text(b.name))];
    if b.mediaType.Some? {
      assert Writable(Optional(b)[0].value);
      buffer := PutField(buffer, count, fields, Field(4, Text(b.mediaType.value)));
      fields := fields + [Field(4, Text(b.mediaType.value))];
    }
    assert fields == FieldsOf(b);
  }

  method EncodeJoin(b: Body) returns (buffer: Bytes)
    requires b.Join? && Writes(b)
    ensures Encoded(buffer, b)
  {
    PartsAreWritable(b);
    hide Holds;
    var count := if b.joinName.Some? then 4 else 3;
    buffer := PutTag(count, JOIN);
    ghost var fields := [Field(0, Num(JOIN))];
    assert Writable(Required(b)[0].value);
    buffer := PutField(buffer, count, fields, Field(1, Blob(b.person)));
    fields := fields + [Field(1, Blob(b.person))];
    assert Writable(Required(b)[1].value);
    buffer := PutField(buffer, count, fields, Field(2, Blobs(b.devices)));
    fields := fields + [Field(2, Blobs(b.devices))];
    if b.joinName.Some? {
      assert Writable(Optional(b)[0].value);
      buffer := PutField(buffer, count, fields, Field(3, Text(b.joinName.value)));
      fields := fields + [Field(3, Text(b.joinName.value))];
    }
    assert fields == FieldsOf(b);
  }

  method EncodeLeave(b: Body) returns (buffer: Bytes)
    requires b.Leave? && Writes(b)
    ensures Encoded(buffer, b)
  {
    PartsAreWritable(b);
    hide Holds;
    var count := 3;
    buffer := PutTag(count, LEAVE);
    ghost var fields := [Field(0, Num(LEAVE))];
    assert Writable(Required(b)[0].value);
    buffer := PutField(buffer, count, fields, Field(1, Blob(b.leaver)));
    fields := fields + [Field(1, Blob(b.leaver))];
    assert Writable(Required(b)[1].value);
    buffer := PutField(buffer, count, fields, Field(2, Num(b.reason)));
    fields := fields + [Field(2, Num(b.reason))];
    assert fields == FieldsOf(b);
  }

  method EncodeDeviceAdd(b: Body) returns (buffer: Bytes)
    requires b.DeviceAdd? && Writes(b)
    ensures Encoded(buffer, b)
  {
    PartsAreWritable(b);
    hide Holds;
    var count := if b.deviceLabel.Some? then 5 else 4;
    buffer := PutTag(count, DEVICE_ADD);
    ghost var fields := [Field(0, Num(DEVICE_ADD))];
    assert Writable(Required(b)[0].value);
    buffer := PutField(buffer, count, fields, Field(1, Blob(b.device)));
    fields := fields + [Field(1, Blob(b.device))];
    assert Writable(Required(b)[1].value);
    buffer := PutField(buffer, count, fields, Field(2, Num(b.notBeforeMs)));
    fields := fields + [Field(2, Num(b.notBeforeMs))];
    assert Writable(Required(b)[2].value);
    buffer := PutField(buffer, count, fields, Field(3, Num(b.notAfterMs)));
    fields := fields + [Field(3, Num(b.notAfterMs))];
    if b.deviceLabel.Some? {
      assert Writable(Optional(b)[0].value);
      buffer := PutField(buffer, count, fields, Field(4, Text(b.deviceLabel.value)));
      fields := fields + [Field(4, Text(b.deviceLabel.value))];
    }
    assert fields == FieldsOf(b);
  }

  method EncodeDeviceRevoke(b: Body) returns (buffer: Bytes)
    requires b.DeviceRevoke? && Writes(b)
    ensures Encoded(buffer, b)
  {
    PartsAreWritable(b);
    hide Holds;
    var count := 3;
    buffer := PutTag(count, DEVICE_REVOKE);
    ghost var fields := [Field(0, Num(DEVICE_REVOKE))];
    assert Writable(Required(b)[0].value);
    buffer := PutField(buffer, count, fields, Field(1, Blob(b.revoked)));
    fields := fields + [Field(1, Blob(b.revoked))];
    assert Writable(Required(b)[1].value);
    buffer := PutField(buffer, count, fields, Field(2, Num(b.atMs)));
    fields := fields + [Field(2, Num(b.atMs))];
    assert fields == FieldsOf(b);
  }

  method EncodeDropRequest(b: Body) returns (buffer: Bytes)
    requires b.DropRequest? && Writes(b)
    ensures Encoded(buffer, b)
  {
    PartsAreWritable(b);
    hide Holds;
    var count := 2 + (if b.targets.Some? then 1 else 0) + (if b.note.Some? then 1 else 0);
    buffer := PutTag(count, DROP_REQUEST);
    ghost var fields := [Field(0, Num(DROP_REQUEST))];
    assert Writable(Required(b)[0].value);
    buffer := PutField(buffer, count, fields, Field(1, Num(b.scope)));
    fields := fields + [Field(1, Num(b.scope))];
    if b.targets.Some? {
      assert Writable(Optional(b)[0].value);
      buffer := PutField(buffer, count, fields, Field(2, Blobs(b.targets.value)));
      fields := fields + [Field(2, Blobs(b.targets.value))];
    }
    if b.note.Some? {
      assert Writable(Optional(b)[if b.targets.Some? then 1 else 0].value);
      buffer := PutField(buffer, count, fields, Field(3, Text(b.note.value)));
      fields := fields + [Field(3, Text(b.note.value))];
    }
    assert fields == FieldsOf(b);
  }

  /** `encode_known`, whichever type it is. */
  method EncodeKnown(b: Body) returns (buffer: Bytes)
    requires Writes(b)
    ensures buffer == ToCbor(b)
  {
    match b {
      case Message(_, _) => buffer := EncodeMessage(b);
      case Reaction(_, _, _) => buffer := EncodeReaction(b);
      case Attachment(_, _, _, _) => buffer := EncodeAttachment(b);
      case Join(_, _, _) => buffer := EncodeJoin(b);
      case Leave(_, _) => buffer := EncodeLeave(b);
      case DeviceAdd(_, _, _, _) => buffer := EncodeDeviceAdd(b);
      case DeviceRevoke(_, _) => buffer := EncodeDeviceRevoke(b);
      case DropRequest(_, _, _) => buffer := EncodeDropRequest(b);
    }
    hide FieldsOf, WriteFields, Head;
  }

  // ----- reading -----

  /** An array of 32 byte strings, one after the other. */
  method TakeBlobs(bytes: Bytes, count: nat) returns (r: Read<seq<Bytes>>)
    ensures r == ReadBlobs(bytes, count)
  {
    var list: seq<Bytes> := [];
    var rest := bytes;
    PrefixedNothing(ReadBlobs(bytes, count));
    for k := 0 to count
      invariant ReadBlobs(bytes, count) == Prefixed(list, ReadBlobs(rest, count - k))
    {
      var next := Read32(rest);
      if next.Bad? {
        return Bad;
      }
      rest := next.rest;
      list := list + [next.value];
      hide Read32;
      PrefixedOneMore(list, next.value, ReadBlobs(rest, count - k - 1));
    }
    assert list + [] == list;
    return Got(list, rest);
  }

  function Prefixed(list: seq<Bytes>, r: Read<seq<Bytes>>): Read<seq<Bytes>> {
    if r.Got? then Got(list + r.value, r.rest) else Bad
  }

  lemma PrefixedNothing(r: Read<seq<Bytes>>)
    ensures Prefixed([], r) == r
  {
    if r.Got? {
      assert [] + r.value == r.value;
    }
  }

  lemma PrefixedOneMore(list: seq<Bytes>, next: Bytes, r: Read<seq<Bytes>>)
    requires list != [] && list[|list| - 1] == next
    ensures Prefixed(list, r) == Prefixed(list[..|list| - 1], Prefixed([next], r))
  {
    if r.Got? {
      assert list[..|list| - 1] + ([next] + r.value) == list + r.value;
    }
  }

  /** The shape all eight decoders share: a cursor through the map, the last key, and what has been filled in. */
  method DecodeMap(lib: Library, t: nat, bytes: Bytes) returns (r: Option<map<nat, Value>>)
    requires 1 <= t <= 8
    ensures r == ReadMap(lib, t, bytes)
  {
    hide KindOf, ReadHead;
    var header := ReadHead(MAP, bytes);
    if header.Bad? {
      return None;
    }
    var rest, last: Option<nat>, got: map<nat, Value> := header.rest, None, map[];
    for k := 0 to header.value
      invariant ReadMap(lib, t, bytes) == ReadEntries(lib, t, rest, header.value - k, last, got)
    {
      var key := ReadHead(UINT, rest);
      if key.Bad? {
        return None;
      }
      if last.Some? && key.value <= last.value {
        return None;
      }
      last := Some(key.value);
      var kind := KindOf(t, key.value);
      if kind.Ignored? {
        var skipped := lib.skip(key.rest);
        if skipped.Bad? {
          return None;
        }
        rest := skipped.rest;
      } else {
        var value := ReadValue(lib, t, kind, key.rest);
        if value.Bad? {
          return None;
        }
        rest := value.rest;
        got := got[key.value := value.value];
      }
    }
    return Some(got);
  }
}
