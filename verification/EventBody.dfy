/**
 The eight event bodies (crates/mosschat-core/src/event/body.rs:18-864): what each
 may hold, how it is written, and how it is read. The eight decoders of the
 source are one loop over a table: `KindOf` is their `match key`, `Finish` what
 each does after its loop. Two things the source takes from libraries are
 parameters: which byte strings are UTF-8, and how an item under an unknown key
 is skipped.
 */
module EventBody {
  import opened Common
  import opened Cbor

  const MESSAGE := 1
  const REACTION := 2
  const ATTACHMENT := 3
  const JOIN := 4
  const LEAVE := 5
  const DEVICE_ADD := 6
  const DEVICE_REVOKE := 7
  const DROP_REQUEST := 8

  const MESSAGE_TEXT_MAX := 65_536
  const REACTION_SYMBOL_MAX := 32
  const ATTACHMENT_NAME_MAX := 128
  const ATTACHMENT_MEDIA_TYPE_MAX := 128
  const ATTACHMENT_SIZE_MAX := 0x100_0000_0000
  const JOIN_NAME_MAX := 128
  const JOIN_DEVICES_MAX := 8
  const DEVICE_ADD_LABEL_MAX := 128
  const DROP_REQUEST_TARGETS_MAX := 64
  const DROP_REQUEST_NOTE_MAX := 256

  datatype Library = Library(utf8: Bytes -> bool, skip: Bytes -> Read<()>)

  datatype Body =
    | Message(text: Bytes, replyTo: Option<Bytes>)
    | Reaction(target: Bytes, symbol: Bytes, remove: bool)
    | Attachment(hash: Bytes, size: nat, name: Bytes, mediaType: Option<Bytes>)
    | Join(person: Bytes, devices: seq<Bytes>, joinName: Option<Bytes>)
    | Leave(leaver: Bytes, reason: nat)
    | DeviceAdd(device: Bytes, notBeforeMs: nat, notAfterMs: nat, deviceLabel: Option<Bytes>)
    | DeviceRevoke(revoked: Bytes, atMs: nat)
    | DropRequest(scope: nat, targets: Option<seq<Bytes>>, note: Option<Bytes>)
    | Unknown(typeValue: nat, raw: Bytes)

  // ----- what a valid body is -----

  predicate Is32(b: Bytes) { |b| == 32 }

  predicate All32(bs: seq<Bytes>) { forall k :: 0 <= k < |bs| ==> Is32(bs[k]) }

  predicate TextOf(lib: Library, s: Bytes, min: nat, max: nat) {
    lib.utf8(s) && min <= |s| <= max
  }

  predicate OptionalText(lib: Library, s: Option<Bytes>, max: nat) {
    s.Some? ==> TextOf(lib, s.value, 0, max)
  }

  /** A filename that names something in one directory: no NUL, no separator, not `.` or `..`. */
  predicate IsFileName(s: Bytes) {
    0x00 !in s && 0x2F !in s && 0x5C !in s && s != [0x2E] && s != [0x2E, 0x2E]
  }

  predicate NoDuplicates(bs: seq<Bytes>) {
    forall i, j :: 0 <= i < j < |bs| ==> bs[i] != bs[j]
  }

  ghost predicate Valid(lib: Library, b: Body) {
    match b
    case Message(text, replyTo) => TextOf(lib, text, 1, MESSAGE_TEXT_MAX) && (replyTo.Some? ==> Is32(replyTo.value))
    case Reaction(target, symbol, _) => Is32(target) && TextOf(lib, symbol, 1, REACTION_SYMBOL_MAX)
    case Attachment(hash, size, name, mediaType) =>
      Is32(hash) && size <= ATTACHMENT_SIZE_MAX && TextOf(lib, name, 1, ATTACHMENT_NAME_MAX) && IsFileName(name)
      && OptionalText(lib, mediaType, ATTACHMENT_MEDIA_TYPE_MAX)
    case Join(person, devices, name) =>
      Is32(person) && 1 <= |devices| <= JOIN_DEVICES_MAX && All32(devices) && NoDuplicates(devices)
      && person in devices && OptionalText(lib, name, JOIN_NAME_MAX)
    case Leave(person, reason) => Is32(person) && reason <= 3
    case DeviceAdd(device, notBefore, notAfter, name) =>
      Is32(device) && notBefore < notAfter < MAX_ARG && OptionalText(lib, name, DEVICE_ADD_LABEL_MAX)
    case DeviceRevoke(device, at) => Is32(device) && at < MAX_ARG
    case DropRequest(scope, targets, note) =>
      scope <= 1 && (targets.Some? <==> scope == 1)
      && (targets.Some? ==> 1 <= |targets.value| <= DROP_REQUEST_TARGETS_MAX && All32(targets.value))
      && OptionalText(lib, note, DROP_REQUEST_NOTE_MAX)
    case Unknown(typeValue, raw) => TypeOf(raw) == Some(typeValue) && !(1 <= typeValue <= 8)
  }

  // ----- fields -----

  /** The value under one map key. */
  datatype Value = Num(n: nat) | Text(s: Bytes) | Blob(b: Bytes) | Blobs(bs: seq<Bytes>) | Flag

  datatype Field = Field(key: nat, value: Value)

  /** What a decoder accepts under one key of one type. */
  datatype Kind =
    | TypeTag
    | NumUpTo(max: nat)
    | TextIn(min: nat, max: nat)
    | FileName
    | Key32
    | Keys32(most: nat)
    | TrueOnly
    | Ignored

  function KindOf(t: nat, key: nat): Kind
    requires 1 <= t <= 8
  {
    if key == 0 then TypeTag
    else if t == MESSAGE then
      if key == 1 then TextIn(1, MESSAGE_TEXT_MAX) else if key == 2 then Key32 else Ignored
    else if t == REACTION then
      if key == 1 then Key32 else if key == 2 then TextIn(1, REACTION_SYMBOL_MAX)
      else if key == 3 then TrueOnly else Ignored
    else if t == ATTACHMENT then
      if key == 1 then Key32 else if key == 2 then NumUpTo(ATTACHMENT_SIZE_MAX)
      else if key == 3 then FileName else if key == 4 then TextIn(0, ATTACHMENT_MEDIA_TYPE_MAX) else Ignored
    else if t == JOIN then
      if key == 1 then Key32 else if key == 2 then Keys32(JOIN_DEVICES_MAX)
      else if key == 3 then TextIn(0, JOIN_NAME_MAX) else Ignored
    else if t == LEAVE then
      if key == 1 then Key32 else if key == 2 then NumUpTo(3) else Ignored
    else if t == DEVICE_ADD then
      if key == 1 then Key32 else if key == 2 || key == 3 then NumUpTo(MAX_ARG - 1)
      else if key == 4 then TextIn(0, DEVICE_ADD_LABEL_MAX) else Ignored
    else if t == DEVICE_REVOKE then
      if key == 1 then Key32 else if key == 2 then NumUpTo(MAX_ARG - 1) else Ignored
    else
      if key == 1 then NumUpTo(1) else if key == 2 then Keys32(DROP_REQUEST_TARGETS_MAX)
      else if key == 3 then TextIn(0, DROP_REQUEST_NOTE_MAX) else Ignored
  }

  /** What the checks under one key let through. */
  predicate Fits(lib: Library, t: nat, kind: Kind, v: Value) {
    match kind
    case TypeTag => v == Num(t)
    case NumUpTo(max) => v.Num? && v.n <= max
    case TextIn(min, max) => v.Text? && TextOf(lib, v.s, min, max)
    case FileName => v.Text? && TextOf(lib, v.s, 1, ATTACHMENT_NAME_MAX) && IsFileName(v.s)
    case Key32 => v.Blob? && Is32(v.b)
    case Keys32(most) => v.Blobs? && 1 <= |v.bs| <= most && All32(v.bs)
    case TrueOnly => v.Flag?
    case Ignored => false
  }

  // ----- writing -----

  function WriteBlobs(bs: seq<Bytes>): Bytes
    requires All32(bs)
  {
    if bs == [] then [] else WriteString(BYTES, bs[0]) + WriteBlobs(bs[1..])
  }

  predicate Writable(v: Value) {
    match v
    case Num(n) => n < MAX_ARG
    case Text(s) => |s| < MAX_ARG
    case Blob(b) => Is32(b)
    case Blobs(bs) => All32(bs) && |bs| < MAX_ARG
    case Flag => true
  }

  function WriteValue(v: Value): Bytes
    requires Writable(v)
  {
    match v
    case Num(n) => Head(UINT, n)
    case Text(s) => WriteString(TEXT, s)
    case Blob(b) => WriteString(BYTES, b)
    case Blobs(bs) => Head(ARRAY, |bs|) + WriteBlobs(bs)
    case Flag => [0xf5]
  }

  predicate WritableFields(fields: seq<Field>) {
    forall k :: 0 <= k < |fields| ==> fields[k].key < MAX_ARG && Writable(fields[k].value)
  }

  function WriteFields(fields: seq<Field>): Bytes
    requires WritableFields(fields)
  {
    if fields == [] then []
    else Head(UINT, fields[0].key) + WriteValue(fields[0].value) + WriteFields(fields[1..])
  }

  function TypeValue(b: Body): nat {
    match b
    case Message(_, _) => MESSAGE
    case Reaction(_, _, _) => REACTION
    case Attachment(_, _, _, _) => ATTACHMENT
    case Join(_, _, _) => JOIN
    case Leave(_, _) => LEAVE
    case DeviceAdd(_, _, _, _) => DEVICE_ADD
    case DeviceRevoke(_, _) => DEVICE_REVOKE
    case DropRequest(_, _, _) => DROP_REQUEST
    case Unknown(t, _) => t
  }

  function TextField(key: nat, s: Option<Bytes>): seq<Field> {
    if s.Some? then [Field(key, Text(s.value))] else []
  }

  function Required(b: Body): (fields: seq<Field>)
    requires !b.Unknown?
    ensures |fields| <= 3
  {
    match b
    case Message(text, _) => [Field(1, Text(text))]
    case Reaction(target, symbol, _) => [Field(1, Blob(target)), Field(2, Text(symbol))]
    case Attachment(hash, size, name, _) => [Field(1, Blob(hash)), Field(2, Num(size)), Field(3, Text(name))]
    case Join(person, devices, _) => [Field(1, Blob(person)), Field(2, Blobs(devices))]
    case Leave(person, reason) => [Field(1, Blob(person)), Field(2, Num(reason))]
    case DeviceAdd(device, notBefore, notAfter, _) =>
      [Field(1, Blob(device)), Field(2, Num(notBefore)), Field(3, Num(notAfter))]
    case DeviceRevoke(device, at) => [Field(1, Blob(device)), Field(2, Num(at))]
    case DropRequest(scope, _, _) => [Field(1, Num(scope))]
  }

  function Optional(b: Body): (fields: seq<Field>)
    requires !b.Unknown?
    ensures |fields| <= 2
  {
    match b
    case Message(_, replyTo) => if replyTo.Some? then [Field(2, Blob(replyTo.value))] else []
    case Reaction(_, _, remove) => if remove then [Field(3, Flag)] else []
    case Attachment(_, _, _, mediaType) => TextField(4, mediaType)
    case Join(_, _, name) => TextField(3, name)
    case Leave(_, _) => []
    case DeviceAdd(_, _, _, name) => TextField(4, name)
    case DeviceRevoke(_, _) => []
    case DropRequest(_, targets, note) =>
      (if targets.Some? then [Field(2, Blobs(targets.value))] else []) + TextField(3, note)
  }

  /** The entries of the map, keys ascending, absent options left out. */
  function FieldsOf(b: Body): (fields: seq<Field>)
    requires !b.Unknown?
    ensures |fields| <= 6
  {
    [Field(0, Num(TypeValue(b)))] + Required(b) + Optional(b)
  }

  /** Deterministic CBOR for a known body, the stored bytes for an unknown one. */
  function ToCbor(b: Body): Bytes
    requires !b.Unknown? ==> WritableFields(FieldsOf(b))
  {
    if b.Unknown? then b.raw else Head(MAP, |FieldsOf(b)|) + WriteFields(FieldsOf(b))
  }

  // ----- reading -----

  /** Key 0 of a definite-length map, if it comes first and is an unsigned integer. */
  function TypeOf(bytes: Bytes): Option<nat> {
    var map_ := ReadHead(MAP, bytes);
    if map_.Bad? then None
    else
      var key := ReadHead(UINT, map_.rest);
      if key.Bad? || key.value != 0 then None
      else
        var t := ReadHead(UINT, key.rest);
        if t.Bad? then None else Some(t.value)
  }

  function Read32(bytes: Bytes): (r: Read<Bytes>)
    ensures r.Got? ==> |r.rest| < |bytes| && Is32(r.value)
  {
    var s := ReadString(BYTES, bytes);
    if s.Got? && Is32(s.value) then s else Bad
  }

  function ReadBlobs(bytes: Bytes, count: nat): (r: Read<seq<Bytes>>)
    ensures r.Got? ==> |r.rest| <= |bytes| && All32(r.value) && |r.value| == count
  {
    if count == 0 then Got([], bytes)
    else
      var first := Read32(bytes);
      if first.Bad? then Bad
      else
        var others := ReadBlobs(first.rest, count - 1);
        if others.Bad? then Bad else Got([first.value] + others.value, others.rest)
  }

  function ReadText(lib: Library, bytes: Bytes): Read<Bytes> {
    var s := ReadString(TEXT, bytes);
    if s.Got? && lib.utf8(s.value) then s else Bad
  }

  /** One value of the kind its key calls for, checks and all. */
  function ReadValue(lib: Library, t: nat, kind: Kind, bytes: Bytes): (r: Read<Value>)
    requires !kind.Ignored?
    ensures r.Got? ==> Fits(lib, t, kind, r.value)
  {
    match kind
    case TypeTag =>
      var n := ReadHead(UINT, bytes);
      if n.Got? && n.value == t then Got(Num(t), n.rest) else Bad
    case NumUpTo(max) =>
      var n := ReadHead(UINT, bytes);
      if n.Got? && n.value <= max then Got(Num(n.value), n.rest) else Bad
    case TextIn(min, max) =>
      var s := ReadText(lib, bytes);
      if s.Got? && min <= |s.value| <= max then Got(Text(s.value), s.rest) else Bad
    case FileName =>
      var s := ReadText(lib, bytes);
      if s.Got? && 1 <= |s.value| <= ATTACHMENT_NAME_MAX && IsFileName(s.value) then Got(Text(s.value), s.rest) else Bad
    case Key32 =>
      var b := Read32(bytes);
      if b.Got? then Got(Blob(b.value), b.rest) else Bad
    case Keys32(most) =>
      var count := ReadHead(ARRAY, bytes);
      if count.Bad? || count.value == 0 || count.value > most then Bad
      else
        var bs := ReadBlobs(count.rest, count.value);
        if bs.Got? then Got(Blobs(bs.value), bs.rest) else Bad
    case TrueOnly =>
      var flag := ReadBool(bytes);
      if flag.Got? && flag.value then Got(Flag, flag.rest) else Bad
  }

  /** `count` more entries, keys strictly ascending; an unknown key's value is skipped. */
  function ReadEntries(lib: Library, t: nat, bytes: Bytes, count: nat, last: Option<nat>, got: map<nat, Value>)
    : (r: Option<map<nat, Value>>)
    requires 1 <= t <= 8
    decreases count
  {
    if count == 0 then Some(got)
    else
      var key := ReadHead(UINT, bytes);
      if key.Bad? || (last.Some? && key.value <= last.value) then None
      else if KindOf(t, key.value).Ignored? then
        var skipped := lib.skip(key.rest);
        if skipped.Bad? then None else ReadEntries(lib, t, skipped.rest, count - 1, Some(key.value), got)
      else
        var v := ReadValue(lib, t, KindOf(t, key.value), key.rest);
        if v.Bad? then None else ReadEntries(lib, t, v.rest, count - 1, Some(key.value), got[key.value := v.value])
  }

  function ReadMap(lib: Library, t: nat, bytes: Bytes): Option<map<nat, Value>>
    requires 1 <= t <= 8
  {
    var map_ := ReadHead(MAP, bytes);
    if map_.Bad? then None else ReadEntries(lib, t, map_.rest, map_.value, None, map[])
  }

  function OptText(got: map<nat, Value>, key: nat): Option<Bytes> {
    if key in got && got[key].Text? then Some(got[key].s) else None
  }

  /** After the loop: required keys present, the rules that span keys, and the body. */
  function Finish(t: nat, got: map<nat, Value>): Option<Body>
    requires 1 <= t <= 8
  {
    if t == MESSAGE then
      if 1 in got && got[1].Text? then
        Some(Message(got[1].s, if 2 in got && got[2].Blob? then Some(got[2].b) else None))
      else None
    else if t == REACTION then
      if 1 in got && got[1].Blob? && 2 in got && got[2].Text? then Some(Reaction(got[1].b, got[2].s, 3 in got)) else None
    else if t == ATTACHMENT then
      if 1 in got && got[1].Blob? && 2 in got && got[2].Num? && 3 in got && got[3].Text? then
        Some(Attachment(got[1].b, got[2].n, got[3].s, OptText(got, 4)))
      else None
    else if t == JOIN then
      if 1 in got && got[1].Blob? && 2 in got && got[2].Blobs?
         && NoDuplicates(got[2].bs) && got[1].b in got[2].bs then
        Some(Join(got[1].b, got[2].bs, OptText(got, 3)))
      else None
    else if t == LEAVE then
      if 1 in got && got[1].Blob? && 2 in got && got[2].Num? then Some(Leave(got[1].b, got[2].n)) else None
    else if t == DEVICE_ADD then
      if 1 in got && got[1].Blob? && 2 in got && got[2].Num? && 3 in got && got[3].Num? && got[2].n < got[3].n then
        Some(DeviceAdd(got[1].b, got[2].n, got[3].n, OptText(got, 4)))
      else None
    else if t == DEVICE_REVOKE then
      if 1 in got && got[1].Blob? && 2 in got && got[2].Num? then Some(DeviceRevoke(got[1].b, got[2].n)) else None
    else
      if 1 in got && got[1].Num? && (got[1].n == 1 <==> 2 in got && got[2].Blobs?) then
        Some(DropRequest(got[1].n, if 2 in got && got[2].Blobs? then Some(got[2].bs) else None, OptText(got, 3)))
      else None
  }

  /** R-10: the bytes are this body's own encoding. */
  predicate IsWrittenAs(b: Body, bytes: Bytes) {
    !b.Unknown? && WritableFields(FieldsOf(b)) && ToCbor(b) == bytes
  }

  /** Decodes, then refuses anything but the one canonical encoding of what was decoded. */
  function FromCbor(lib: Library, bytes: Bytes): Option<Body> {
    var t := TypeOf(bytes);
    if t.None? then None
    else if !(1 <= t.value <= 8) then Some(Unknown(t.value, bytes))
    else
      var got := ReadMap(lib, t.value, bytes);
      if got.None? then None
      else
        var body := Finish(t.value, got.value);
        if body.Some? && IsWrittenAs(body.value, bytes) then body else None
  }
}
