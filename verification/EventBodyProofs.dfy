/**
 The accepted language of `Body::from_cbor`, exactly: the encodings of valid
 bodies and nothing else (crates/mosschat-core/src/event/body.rs:235-305).
 */
module EventBodyProofs {
  import opened Common
  import opened Cbor
  import opened EventBody

  // ----- what is written fits what is read -----

  predicate Ascending(fields: seq<Field>, last: Option<nat>) {
    && (fields != [] && last.Some? ==> last.value < fields[0].key)
    && (forall k :: 0 < k < |fields| ==> fields[k - 1].key < fields[k].key)
  }

  predicate FieldsFit(lib: Library, t: nat, fields: seq<Field>)
    requires 1 <= t <= 8
  {
    forall k :: 0 <= k < |fields| ==> Fits(lib, t, KindOf(t, fields[k].key), fields[k].value)
  }

  lemma ValidRequiredFit(lib: Library, b: Body)
    requires Valid(lib, b) && !b.Unknown?
    ensures FieldsFit(lib, TypeValue(b), Required(b)) && Ascending(Required(b), Some(0))
  {
  }

  lemma ValidOptionalFit(lib: Library, b: Body)
    requires Valid(lib, b) && !b.Unknown?
    ensures FieldsFit(lib, TypeValue(b), Optional(b))
    ensures Required(b) != [] && Ascending(Optional(b), Some(Required(b)[|Required(b)| - 1].key))
  {
  }

  lemma JoinedFit(lib: Library, t: nat, required: seq<Field>, optional: seq<Field>)
    requires 1 <= t <= 8 && required != []
    requires FieldsFit(lib, t, required) && FieldsFit(lib, t, optional)
    requires Ascending(required, Some(0)) && Ascending(optional, Some(required[|required| - 1].key))
    ensures var fields := [Field(0, Num(t))] + required + optional;
            FieldsFit(lib, t, fields) && Ascending(fields, None)
  {
    TagIsZero(t);
    hide KindOf;
  }

  lemma ValidFits(lib: Library, b: Body)
    requires Valid(lib, b) && !b.Unknown?
    ensures FieldsFit(lib, TypeValue(b), FieldsOf(b)) && Ascending(FieldsOf(b), None)
  {
    hide Required, Optional, KindOf, Fits, Ascending, FieldsFit;
    ValidRequiredFit(lib, b);
    ValidOptionalFit(lib, b);
    JoinedFit(lib, TypeValue(b), Required(b), Optional(b));
  }

  lemma TagIsZero(t: nat)
    requires 1 <= t <= 8
    ensures KindOf(t, 0) == TypeTag
  {
  }

  // ----- one value, one list of fields, read back -----

  lemma {:induction false} BlobsReadBack(bs: seq<Bytes>, rest: Bytes)
    requires All32(bs)
    ensures ReadBlobs(WriteBlobs(bs) + rest, |bs|) == Got(bs, rest)
  {
    hide ReadString, WriteString;
    if bs == [] {
      assert WriteBlobs(bs) + rest == rest;
    } else {
      StringReadsBack(BYTES, bs[0], WriteBlobs(bs[1..]) + rest);
      assert WriteBlobs(bs) + rest == WriteString(BYTES, bs[0]) + (WriteBlobs(bs[1..]) + rest);
      assert All32(bs[1..]);
      BlobsReadBack(bs[1..], rest);
      assert [bs[0]] + bs[1..] == bs;
    }
  }

  lemma BlobsValueReadsBack(lib: Library, t: nat, most: nat, bs: seq<Bytes>, rest: Bytes)
    requires Fits(lib, t, Keys32(most), Blobs(bs)) && |bs| < MAX_ARG
    ensures ReadValue(lib, t, Keys32(most), WriteValue(Blobs(bs)) + rest) == Got(Blobs(bs), rest)
  {
    HeadReadsBack(ARRAY, |bs|, WriteBlobs(bs) + rest);
    assert WriteValue(Blobs(bs)) + rest == Head(ARRAY, |bs|) + (WriteBlobs(bs) + rest);
    BlobsReadBack(bs, rest);
    hide Head, ReadHead, WriteBlobs, ReadBlobs;
  }

  lemma ValueReadsBack(lib: Library, t: nat, kind: Kind, v: Value, rest: Bytes)
    requires Fits(lib, t, kind, v) && Writable(v)
    ensures ReadValue(lib, t, kind, WriteValue(v) + rest) == Got(v, rest)
  {
    hide Head, ReadHead, WriteString, ReadString, WriteBlobs, ReadBlobs, IsFileName;
    match v {
      case Num(n) => HeadReadsBack(UINT, n, rest);
      case Text(s) => StringReadsBack(TEXT, s, rest);
      case Blob(b) => StringReadsBack(BYTES, b, rest);
      case Blobs(bs) => BlobsValueReadsBack(lib, t, kind.most, bs, rest);
      case Flag => assert ([0xf5] + rest)[1..] == rest;
    }
  }

  /** What a decoder holds once it has read these fields. */
  function Collected(fields: seq<Field>): (got: map<nat, Value>)
    ensures forall key :: key in got ==> exists k :: 0 <= k < |fields| && fields[k].key == key && fields[k].value == got[key]
    ensures forall k :: 0 <= k < |fields| ==> fields[k].key in got
  {
    if fields == [] then map[]
    else Collected(fields[..|fields| - 1])[fields[|fields| - 1].key := fields[|fields| - 1].value]
  }

  lemma CollectedHolds(fields: seq<Field>, k: nat)
    requires Ascending(fields, None) && k < |fields|
    ensures fields[k].key in Collected(fields) && Collected(fields)[fields[k].key] == fields[k].value
  {
    var j :| 0 <= j < |fields| && fields[j].key == fields[k].key && fields[j].value == Collected(fields)[fields[k].key];
    KeysAscend(fields, j, k);
    KeysAscend(fields, k, j);
  }

  lemma {:induction false} KeysAscend(fields: seq<Field>, j: nat, k: nat)
    requires Ascending(fields, None) && k < |fields|
    ensures j < k ==> fields[j].key < fields[k].key
    decreases k
  {
    if j + 1 < k {
      KeysAscend(fields, j, k - 1);
    }
  }

  function LastKey(fields: seq<Field>): Option<nat> {
    if fields == [] then None else Some(fields[|fields| - 1].key)
  }

  /** One entry, read back. */
  lemma EntryReadsBack(lib: Library, t: nat, f: Field, others: Bytes, n: nat, last: Option<nat>, got: map<nat, Value>)
    requires 1 <= t <= 8 && Fits(lib, t, KindOf(t, f.key), f.value) && f.key < MAX_ARG && Writable(f.value)
    requires last.Some? ==> last.value < f.key
    ensures ReadEntries(lib, t, Head(UINT, f.key) + (WriteValue(f.value) + others), n + 1, last, got)
            == ReadEntries(lib, t, others, n, Some(f.key), got[f.key := f.value])
  {
    HeadReadsBack(UINT, f.key, WriteValue(f.value) + others);
    ValueReadsBack(lib, t, KindOf(t, f.key), f.value, others);
    hide Head, ReadHead, WriteValue, ReadValue, KindOf;
  }

  lemma NothingLeft(lib: Library, t: nat, rest: Bytes, last: Option<nat>, got: map<nat, Value>)
    requires 1 <= t <= 8
    ensures ReadEntries(lib, t, rest, 0, last, got) == Some(got)
  {
  }

  lemma WriteOneMore(fields: seq<Field>, i: nat, rest: Bytes)
    requires WritableFields(fields) && i < |fields|
    ensures WriteFields(fields[i..]) + rest
            == Head(UINT, fields[i].key) + (WriteValue(fields[i].value) + (WriteFields(fields[i + 1..]) + rest))
  {
    hide Head, WriteValue, Writable;
    var s := fields[i..];
    assert s[1..] == fields[i + 1..] && s[0] == fields[i];
    assert WriteFields(s) == Head(UINT, s[0].key) + WriteValue(s[0].value) + WriteFields(s[1..]);
    Regroup(Head(UINT, s[0].key), WriteValue(s[0].value), WriteFields(s[1..]), rest);
  }

  lemma Regroup(a: Bytes, b: Bytes, c: Bytes, d: Bytes)
    ensures a + b + c + d == a + (b + (c + d))
  {
  }

  lemma CollectOneMore(fields: seq<Field>, i: nat)
    requires i < |fields|
    ensures Collected(fields[..i + 1]) == Collected(fields[..i])[fields[i].key := fields[i].value]
    ensures LastKey(fields[..i + 1]) == Some(fields[i].key)
  {
    assert fields[..i + 1][..i] == fields[..i];
  }

  /** From field i on, the loop reads back what was written, on top of what it already holds. */
  lemma {:induction false} FieldsReadBack(lib: Library, t: nat, fields: seq<Field>, i: nat, rest: Bytes)
    requires 1 <= t <= 8 && i <= |fields|
    requires FieldsFit(lib, t, fields) && WritableFields(fields) && Ascending(fields, None)
    ensures ReadEntries(lib, t, WriteFields(fields[i..]) + rest, |fields| - i, LastKey(fields[..i]), Collected(fields[..i]))
            == Some(Collected(fields))
    decreases |fields| - i
  {
    hide Head, WriteValue, KindOf, Fits, Writable, ReadEntries, WriteFields, Collected;
    if i == |fields| {
      assert fields[..i] == fields;
      NothingLeft(lib, t, WriteFields(fields[i..]) + rest, LastKey(fields[..i]), Collected(fields[..i]));
    } else {
      var others := WriteFields(fields[i + 1..]) + rest;
      WriteOneMore(fields, i, rest);
      CollectOneMore(fields, i);
      FieldsReadBack(lib, t, fields, i + 1, rest);
      EntryReadsBack(lib, t, fields[i], others, |fields| - i - 1, LastKey(fields[..i]), Collected(fields[..i]));
    }
  }

  // ----- the body comes back -----

  /** The rules of a body that span more than one key. */
  predicate Consistent(b: Body) {
    match b
    case Join(person, devices, _) => NoDuplicates(devices) && person in devices
    case DeviceAdd(_, notBefore, notAfter, _) => notBefore < notAfter
    case DropRequest(scope, targets, _) => targets.Some? <==> scope == 1
    case _ => true
  }

  /** A decoder holding exactly these fields, each under its own key. */
  predicate HoldsExactly(got: map<nat, Value>, fields: seq<Field>) {
    && (forall k :: 0 <= k < |fields| ==> fields[k].key in got && got[fields[k].key] == fields[k].value)
    && (forall key :: key in got ==> exists k :: 0 <= k < |fields| && fields[k].key == key)
  }

  lemma FinishesAs(b: Body, got: map<nat, Value>)
    requires !b.Unknown? && Consistent(b) && HoldsExactly(got, FieldsOf(b))
    ensures Finish(TypeValue(b), got) == Some(b)
  {
    var fields := FieldsOf(b);
    hide NoDuplicates;
    assert fields[1] == Required(b)[0];
    assert |Required(b)| > 1 ==> fields[2] == Required(b)[1];
    assert |Required(b)| > 2 ==> fields[3] == Required(b)[2];
    assert |Optional(b)| > 0 ==> fields[1 + |Required(b)|] == Optional(b)[0];
    assert |Optional(b)| > 1 ==> fields[2 + |Required(b)|] == Optional(b)[1];
  }

  lemma CollectedExactly(fields: seq<Field>)
    requires Ascending(fields, None)
    ensures HoldsExactly(Collected(fields), fields)
  {
    forall k | 0 <= k < |fields|
      ensures fields[k].key in Collected(fields) && Collected(fields)[fields[k].key] == fields[k].value
    {
      CollectedHolds(fields, k);
    }
  }

  lemma ValidIsConsistent(lib: Library, b: Body)
    requires Valid(lib, b)
    ensures Consistent(b)
    ensures !b.Unknown? ==> 1 <= TypeValue(b) <= 8
  {
  }

  lemma ValidIsWritable(lib: Library, b: Body)
    requires Valid(lib, b) && !b.Unknown?
    ensures WritableFields(FieldsOf(b))
  {
    ValidFits(lib, b);
    hide Valid, FieldsOf, Ascending;
  }

  lemma TypeReadsBack(fields: seq<Field>, t: nat)
    requires 0 < |fields| < MAX_ARG && fields[0] == Field(0, Num(t)) && WritableFields(fields)
    ensures TypeOf(Head(MAP, |fields|) + WriteFields(fields)) == Some(t)
  {
    hide Head, ReadHead, WriteFields;
    var others := WriteFields(fields[1..]);
    assert fields[0..] == fields && others + [] == others && WriteFields(fields) + [] == WriteFields(fields);
    WriteOneMore(fields, 0, []);
    HeadReadsBack(MAP, |fields|, WriteFields(fields));
    HeadReadsBack(UINT, 0, Head(UINT, t) + others);
    HeadReadsBack(UINT, t, others);
  }

  lemma MapReadsBack(lib: Library, t: nat, fields: seq<Field>)
    requires 1 <= t <= 8 && |fields| < MAX_ARG
    requires FieldsFit(lib, t, fields) && WritableFields(fields) && Ascending(fields, None)
    ensures ReadMap(lib, t, Head(MAP, |fields|) + WriteFields(fields)) == Some(Collected(fields))
  {
    hide Head, ReadHead, WriteFields, ReadEntries, KindOf, Fits, Writable;
    HeadReadsBack(MAP, |fields|, WriteFields(fields));
    assert fields[0..] == fields && fields[..0] == [];
    assert WriteFields(fields) + [] == WriteFields(fields);
    FieldsReadBack(lib, t, fields, 0, []);
  }

  /** Each stage of `from_cbor` on a valid body's own encoding. */
  lemma StagesReadBack(lib: Library, b: Body)
    requires Valid(lib, b) && !b.Unknown?
    ensures WritableFields(FieldsOf(b)) && 1 <= TypeValue(b) <= 8
    ensures TypeOf(ToCbor(b)) == Some(TypeValue(b))
    ensures ReadMap(lib, TypeValue(b), ToCbor(b)) == Some(Collected(FieldsOf(b)))
    ensures Finish(TypeValue(b), Collected(FieldsOf(b))) == Some(b)
  {
    ValidIsConsistent(lib, b);
    ValidIsWritable(lib, b);
    ValidFits(lib, b);
    hide Valid, Finish, ReadMap, TypeOf, WriteFields, Head, Consistent, FieldsFit, HoldsExactly, Required, Optional, WritableFields;
    var fields := FieldsOf(b);
    assert fields[0] == Field(0, Num(TypeValue(b)));
    TypeReadsBack(fields, TypeValue(b));
    MapReadsBack(lib, TypeValue(b), fields);
    CollectedExactly(fields);
    FinishesAs(b, Collected(fields));
  }

  lemma KnownReadsBack(lib: Library, b: Body)
    requires Valid(lib, b) && !b.Unknown?
    ensures WritableFields(FieldsOf(b)) && FromCbor(lib, ToCbor(b)) == Some(b)
  {
    hide FieldsOf, Finish, ReadMap, TypeOf, WriteFields, Head, WritableFields, ToCbor, TypeValue, Valid, Collected;
    StagesReadBack(lib, b);
    assert IsWrittenAs(b, ToCbor(b));
    hide IsWrittenAs;
  }

  /** Decoding what was encoded gives the body back: every valid body, every combination of optional keys. */
  lemma RoundTrip(lib: Library, b: Body)
    requires Valid(lib, b)
    ensures (!b.Unknown? ==> WritableFields(FieldsOf(b))) && FromCbor(lib, ToCbor(b)) == Some(b)
  {
    hide *;
    if b.Unknown? {
      UnknownReadsBack(lib, b);
    } else {
      KnownReadsBack(lib, b);
    }
  }

  lemma UnknownReadsBack(lib: Library, b: Body)
    requires Valid(lib, b) && b.Unknown?
    ensures FromCbor(lib, ToCbor(b)) == Some(b)
  {
    hide ReadMap, Finish, IsWrittenAs, TypeOf;
  }

  // ----- nothing else is accepted -----

  predicate AllFit(lib: Library, t: nat, got: map<nat, Value>)
    requires 1 <= t <= 8
  {
    forall key :: key in got ==> Fits(lib, t, KindOf(t, key), got[key])
  }

  lemma {:induction false} EntriesFit(lib: Library, t: nat, bytes: Bytes, count: nat, last: Option<nat>, got: map<nat, Value>)
    requires 1 <= t <= 8 && AllFit(lib, t, got)
    requires ReadEntries(lib, t, bytes, count, last, got).Some?
    ensures AllFit(lib, t, ReadEntries(lib, t, bytes, count, last, got).value)
    decreases count
  {
    hide KindOf, Fits, ReadHead;
    if count > 0 {
      var key := ReadHead(UINT, bytes);
      if KindOf(t, key.value).Ignored? {
        EntriesFit(lib, t, lib.skip(key.rest).rest, count - 1, Some(key.value), got);
      } else {
        var v := ReadValue(lib, t, KindOf(t, key.value), key.rest);
        EntriesFit(lib, t, v.rest, count - 1, Some(key.value), got[key.value := v.value]);
      }
    }
  }

  lemma FinishIsValid(lib: Library, t: nat, got: map<nat, Value>)
    requires 1 <= t <= 8 && AllFit(lib, t, got) && Finish(t, got).Some?
    ensures Valid(lib, Finish(t, got).value) && TypeValue(Finish(t, got).value) == t
  {
  }

  lemma AcceptedIsValid(lib: Library, bytes: Bytes)
    requires FromCbor(lib, bytes).Some?
    ensures var b := FromCbor(lib, bytes).value;
            Valid(lib, b) && (!b.Unknown? ==> WritableFields(FieldsOf(b))) && ToCbor(b) == bytes
  {
    var t := TypeOf(bytes).value;
    if 1 <= t <= 8 {
      EntriesFit(lib, t, ReadHead(MAP, bytes).rest, ReadHead(MAP, bytes).value, None, map[]);
      var got := ReadMap(lib, t, bytes).value;
      hide ReadMap, TypeOf, FieldsOf, ReadEntries;
      FinishIsValid(lib, t, got);
    }
  }

  /**
   The accepted language: bytes decode to a body exactly when the body is valid
   and the bytes are its own encoding. It does not matter how the decoder skips
   what sits under a key it does not know.
   */
  lemma {:induction false} AcceptedIffCanonical(lib: Library, bytes: Bytes, b: Body)
    ensures FromCbor(lib, bytes) == Some(b)
            <==> Valid(lib, b) && (!b.Unknown? ==> WritableFields(FieldsOf(b))) && ToCbor(b) == bytes
  {
    if FromCbor(lib, bytes) == Some(b) {
      AcceptedIsValid(lib, bytes);
    }
    if Valid(lib, b) && (!b.Unknown? ==> WritableFields(FieldsOf(b))) && ToCbor(b) == bytes {
      RoundTrip(lib, b);
    }
  }

  /** Two valid bodies never share an encoding. */
  lemma EncodingIsInjective(lib: Library, a: Body, b: Body)
    requires Valid(lib, a) && Valid(lib, b)
    requires (!a.Unknown? ==> WritableFields(FieldsOf(a))) && (!b.Unknown? ==> WritableFields(FieldsOf(b)))
    requires ToCbor(a) == ToCbor(b)
    ensures a == b
  {
    RoundTrip(lib, a);
    RoundTrip(lib, b);
  }

  /** Unknown keys are ignored on read and then refused: no accepted body of a known type holds one. */
  lemma {:induction false} SkippingNeverMatters(a: Library, b: Library, bytes: Bytes)
    requires a.utf8 == b.utf8
    ensures FromCbor(a, bytes) == FromCbor(b, bytes)
  {
    if FromCbor(a, bytes).Some? {
      AcceptedIsValid(a, bytes);
      ValidUnderEither(a, b, FromCbor(a, bytes).value);
      RoundTrip(b, FromCbor(a, bytes).value);
    } else if FromCbor(b, bytes).Some? {
      AcceptedIsValid(b, bytes);
      ValidUnderEither(b, a, FromCbor(b, bytes).value);
      RoundTrip(a, FromCbor(b, bytes).value);
    }
  }

  lemma ValidUnderEither(a: Library, b: Library, body: Body)
    requires a.utf8 == b.utf8 && Valid(a, body)
    ensures Valid(b, body)
  {
  }

  /** Everything a decoder lets through, with its limits: 32 byte keys, UTF-8 text, and the ranges of each field. */
  ghost predicate WithinLimits(lib: Library, b: Body) {
    match b
    case Message(text, replyTo) =>
      lib.utf8(text) && 1 <= |text| <= 65_536 && (replyTo.Some? ==> |replyTo.value| == 32)
    case Reaction(target, symbol, _) =>
      |target| == 32 && lib.utf8(symbol) && 1 <= |symbol| <= 32
    case Attachment(hash, size, name, mediaType) =>
      && |hash| == 32 && size <= 1_099_511_627_776
      && lib.utf8(name) && 1 <= |name| <= 128
      && (forall k :: 0 <= k < |name| ==> name[k] != 0 && name[k] != 47 && name[k] != 92)
      && name != [46] && name != [46, 46]
      && (mediaType.Some? ==> lib.utf8(mediaType.value) && |mediaType.value| <= 128)
    case Join(person, devices, name) =>
      && |person| == 32 && 1 <= |devices| <= 8
      && (forall k :: 0 <= k < |devices| ==> |devices[k]| == 32)
      && (forall j, k :: 0 <= j < k < |devices| ==> devices[j] != devices[k])
      && (exists k :: 0 <= k < |devices| && devices[k] == person)
      && (name.Some? ==> lib.utf8(name.value) && |name.value| <= 128)
    case Leave(leaver, reason) => |leaver| == 32 && 0 <= reason <= 3
    case DeviceAdd(device, from, until, name) =>
      && |device| == 32 && from < until < 0x1_0000_0000_0000_0000
      && (name.Some? ==> lib.utf8(name.value) && |name.value| <= 128)
    case DeviceRevoke(device, at) => |device| == 32 && at < 0x1_0000_0000_0000_0000
    case DropRequest(scope, targets, note) =>
      && ((scope == 0 && targets.None?) || (scope == 1 && targets.Some?))
      && (targets.Some? ==> 1 <= |targets.value| <= 64 && forall k :: 0 <= k < |targets.value| ==> |targets.value[k]| == 32)
      && (note.Some? ==> lib.utf8(note.value) && |note.value| <= 256)
    case Unknown(typeValue, raw) => typeValue == 0 || typeValue > 8
  }

  /** What decodes is within its type's limits; and a body of a known type within them is decoded from its own encoding. */
  lemma AcceptedIsWithinLimits(lib: Library, bytes: Bytes, b: Body)
    ensures FromCbor(lib, bytes) == Some(b) ==> WithinLimits(lib, b)
    ensures !b.Unknown? && WithinLimits(lib, b) ==> WritableFields(FieldsOf(b)) && FromCbor(lib, ToCbor(b)) == Some(b)
  {
    hide *;
    ValidIffWithinLimits(lib, b);
    AcceptedIffCanonical(lib, bytes, b);
    if !b.Unknown? && WithinLimits(lib, b) {
      RoundTrip(lib, b);
    }
  }

  lemma ValidIffWithinLimits(lib: Library, b: Body)
    ensures Valid(lib, b) ==> WithinLimits(lib, b)
    ensures !b.Unknown? && WithinLimits(lib, b) ==> Valid(lib, b)
  {
  }
}
