/**
 The 81 byte probe (crates/mosschat-net/src/punch.rs:90-246). The keyed hash is
 a parameter: `mac(key, message)`.
 */
module ProbePacket {
  import opened Common

  type Bytes = seq<Byte>
  type Key = Bytes
  type Mac = (Key, Bytes) -> Bytes

  const PING: Byte := 1
  const PONG: Byte := 2
  /** Discriminator, "MSP", version. */
  const HEADER: Bytes := [0x2A, 0x4D, 0x53, 0x50, 0x01]

  datatype RawAddr = RawAddr(family: Byte, octets: Bytes, port: Word)

  datatype Probe = Probe(kind: Byte, attempt: Bytes, tx: Bytes, observed: RawAddr) {
    predicate Valid() {
      (kind == PING || kind == PONG) && |attempt| == 16 && |tx| == 8 && |observed.octets| == 16
    }
  }

  function AddrToRaw(a: RawAddr): (r: Bytes)
    requires |a.octets| == 16
    ensures |r| == 19
  {
    [a.family] + a.octets + WordBytes(a.port)
  }

  function AddrFromRaw(raw: Bytes): (a: RawAddr)
    requires |raw| == 19
    ensures |a.octets| == 16
  {
    RawAddr(raw[0], raw[1..17], raw[17] as int * 256 + raw[18] as int)
  }

  lemma AddrRoundTrips(a: RawAddr, raw: Bytes)
    requires |a.octets| == 16 && |raw| == 19
    ensures AddrFromRaw(AddrToRaw(a)) == a
    ensures AddrToRaw(AddrFromRaw(raw)) == raw
  {
    assert AddrToRaw(a)[1..17] == a.octets;
    assert raw == [raw[0]] + raw[1..17] + [raw[17], raw[18]];
  }

  /** Everything the keyed hash covers. */
  function Body(p: Probe): (r: Bytes)
    requires p.Valid()
    ensures |r| == 49
  {
    HEADER + [p.kind] + p.attempt + p.tx + AddrToRaw(p.observed)
  }

  function Encode(mac: Mac, p: Probe, key: Key): Bytes
    requires p.Valid()
  {
    Body(p) + mac(key, Body(p))
  }

  /** The attempt a segment names, whoever signed it. */
  function AttemptField(bytes: Bytes): Bytes
    requires |bytes| == 81
  {
    bytes[6..22]
  }

  function Decode(mac: Mac, bytes: Bytes, key: Key): (r: Option<Probe>)
    ensures r.Some? ==> r.value.Valid() && |bytes| == 81 && r.value.attempt == AttemptField(bytes)
  {
    if |bytes| != 81 then None
    else if bytes[..5] != HEADER then None
    else if bytes[5] != PING && bytes[5] != PONG then None
    else if bytes[49..] != mac(key, bytes[..49]) then None
    else Some(Probe(bytes[5], bytes[6..22], bytes[22..30], AddrFromRaw(bytes[30..49])))
  }

  lemma BodyLayout(p: Probe)
    requires p.Valid()
    ensures var b := Body(p);
            && b[..5] == HEADER && b[5] == p.kind && b[6..22] == p.attempt && b[22..30] == p.tx
            && b[30..49] == AddrToRaw(p.observed)
  {
  }

  /** A probe has one encoding under a key, and nothing else decodes to it. */
  lemma DecodesIffEncoded(mac: Mac, bytes: Bytes, key: Key, p: Probe)
    requires p.Valid() && |mac(key, Body(p))| == 32
    ensures Decode(mac, bytes, key) == Some(p) <==> bytes == Encode(mac, p, key)
  {
    BodyLayout(p);
    AddrRoundTrips(p.observed, AddrToRaw(p.observed));
    if Decode(mac, bytes, key) == Some(p) {
      AddrRoundTrips(p.observed, bytes[30..49]);
      assert bytes[..49] == bytes[..5] + [bytes[5]] + bytes[6..22] + bytes[22..30] + bytes[30..49];
      assert bytes == bytes[..49] + bytes[49..];
    }
    if bytes == Encode(mac, p, key) {
      var b := Body(p);
      assert bytes[..49] == b && bytes[49..] == mac(key, b);
      assert bytes[..5] == b[..5] && bytes[6..22] == b[6..22] && bytes[22..30] == b[22..30] && bytes[30..49] == b[30..49];
    }
  }
}
