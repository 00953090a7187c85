/**
 The fixed 144 byte announce (crates/mosschat-net/src/discovery.rs:162-333).
 The signature scheme is a parameter: `verify(key, message, signature)`.
 */
module Announces {
  import opened Common

  type Bytes = seq<Byte>
  type Key = Bytes
  type Verifier = (Key, Bytes, Bytes) -> bool

  const ANNOUNCE_LEN := 144
  const HEADER: Bytes := [0x2B, 0x4D, 0x53, 0x44, 0x01, 0x01]   // discriminator, "MSD", version, type
  /** `mosschat-discovery-v1`. */
  const SIGNING_CONTEXT: Bytes :=
    [0x6D, 0x6F, 0x73, 0x73, 0x63, 0x68, 0x61, 0x74, 0x2D, 0x64, 0x69,
     0x73, 0x63, 0x6F, 0x76, 0x65, 0x72, 0x79, 0x2D, 0x76, 0x31]

  datatype Error =
    | Malformed | OtherCommunity | NotAFriend | BadSignature | Ourselves
    | RateLimited | OutsideWindow | Replayed | SourceNotLocal

  datatype Announce = Announce(community: Bytes, key: Key, port: Word, sentUnix: nat, nonce: Bytes) {
    predicate Valid() {
      |community| == 32 && |key| == 32 && sentUnix < 0x1_0000_0000 && |nonce| == 4
    }
  }

  datatype Result = Ok(announce: Announce) | Err(error: Error)

  function Word32(n: nat): (r: Bytes)
    requires n < 0x1_0000_0000
    ensures |r| == 4
  {
    WordBytes(n / 0x1_0000) + WordBytes(n % 0x1_0000)
  }

  function FromWord16(b: Bytes): (n: Word)
    requires |b| == 2
  {
    b[0] as int * 256 + b[1] as int
  }

  function FromWord32(b: Bytes): (n: nat)
    requires |b| == 4
    ensures n < 0x1_0000_0000
  {
    FromWord16(b[..2]) * 0x1_0000 + FromWord16(b[2..])
  }

  /** Bytes 0..80, everything the signature covers. */
  function Body(a: Announce): (r: Bytes)
    requires a.Valid()
    ensures |r| == 80
  {
    HEADER + a.community + a.key + WordBytes(a.port) + Word32(a.sentUnix) + a.nonce
  }

  function Encode(a: Announce, sign: Bytes -> Bytes): (r: Bytes)
    requires a.Valid() && |sign(SIGNING_CONTEXT + Body(a))| == 64
    ensures |r| == ANNOUNCE_LEN
  {
    Body(a) + sign(SIGNING_CONTEXT + Body(a))
  }

  function Parse(bytes: Bytes, community: Bytes, isFriend: Key -> bool): (r: Result)
    ensures r.Ok? ==> r.announce.Valid() && r.announce.community == community && isFriend(r.announce.key)
  {
    if |bytes| != ANNOUNCE_LEN || bytes[..6] != HEADER then Err(Malformed)
    else if bytes[6..38] != community then Err(OtherCommunity)
    else if !isFriend(bytes[38..70]) then Err(NotAFriend)
    else Ok(Announce(community, bytes[38..70], FromWord16(bytes[70..72]), FromWord32(bytes[72..76]), bytes[76..80]))
  }

  predicate Signed(bytes: Bytes, key: Key, verify: Verifier)
    requires |bytes| == ANNOUNCE_LEN
  {
    verify(key, SIGNING_CONTEXT + bytes[..80], bytes[80..])
  }

  lemma BodyLayout(a: Announce)
    requires a.Valid()
    ensures var b := Body(a);
            && b[..6] == HEADER && b[6..38] == a.community && b[38..70] == a.key
            && FromWord16(b[70..72]) == a.port && FromWord32(b[72..76]) == a.sentUnix && b[76..80] == a.nonce
  {
    var b := Body(a);
    assert b[70..72] == WordBytes(a.port);
    assert b[72..76] == Word32(a.sentUnix);
    assert Word32(a.sentUnix)[..2] == WordBytes(a.sentUnix / 0x1_0000);
    assert Word32(a.sentUnix)[2..] == WordBytes(a.sentUnix % 0x1_0000);
  }

  /** A frame is read back as what was announced, by exactly the community and the friends it is for. */
  lemma ParseOfEncode(a: Announce, sign: Bytes -> Bytes, community: Bytes, isFriend: Key -> bool)
    requires a.Valid() && |sign(SIGNING_CONTEXT + Body(a))| == 64
    ensures var bytes := Encode(a, sign);
            && Parse(bytes, community, isFriend) ==
               (if a.community != community then Err(OtherCommunity)
                else if !isFriend(a.key) then Err(NotAFriend) else Ok(a))
            && bytes[..80] == Body(a) && bytes[80..] == sign(SIGNING_CONTEXT + Body(a))
  {
    var bytes, b := Encode(a, sign), Body(a);
    BodyLayout(a);
    assert bytes[..80] == b;
    assert bytes[..6] == b[..6] && bytes[6..38] == b[6..38] && bytes[38..70] == b[38..70];
    assert bytes[70..72] == b[70..72] && bytes[72..76] == b[72..76] && bytes[76..80] == b[76..80];
  }

  /**
   Bytes are read as an announce if and only if they are 144, the first 80 lay out that
   announce, and it is of this community and of a key that is read at all; and nothing
   else is refused as malformed.
   */
  lemma ParsesIffLaidOut(bytes: Bytes, community: Bytes, isFriend: Key -> bool, a: Announce)
    requires a.Valid()
    ensures Parse(bytes, community, isFriend) == Ok(a) <==>
              |bytes| == 144 && bytes[..80] == Body(a) && a.community == community && isFriend(a.key)
    ensures Parse(bytes, community, isFriend) == Err(Malformed) <==> |bytes| != 144 || bytes[..6] != HEADER
  {
    BodyLayout(a);
    if |bytes| == 144 {
      var b := bytes[..80];
      assert b[..6] == bytes[..6] && b[6..38] == bytes[6..38] && b[38..70] == bytes[38..70];
      assert b[70..72] == bytes[70..72] && b[72..76] == bytes[72..76] && b[76..80] == bytes[76..80];
      if Parse(bytes, community, isFriend) == Ok(a) {
        assert b == b[..6] + b[6..38] + b[38..70] + b[70..72] + b[72..76] + b[76..80];
        assert WordBytes(a.port) == b[70..72];
        Word32ReadsBack(b[72..76]);
      }
    }
  }

  lemma Word32ReadsBack(b: Bytes)
    requires |b| == 4
    ensures Word32(FromWord32(b)) == b
  {
    var high, low := FromWord16(b[..2]), FromWord16(b[2..]);
    assert FromWord32(b) / 0x1_0000 == high && FromWord32(b) % 0x1_0000 == low;
    assert WordBytes(high) == b[..2] && WordBytes(low) == b[2..];
  }

  /** `mosschat-discovery-v1`, character by character. */
  function ContextText(): Bytes {
    ['m' as int, 'o' as int, 's' as int, 's' as int, 'c' as int, 'h' as int, 'a' as int, 't' as int, '-' as int,
     'd' as int, 'i' as int, 's' as int, 'c' as int, 'o' as int, 'v' as int, 'e' as int, 'r' as int, 'y' as int, '-' as int,
     'v' as int, '1' as int]
  }

  /** What is encoded counts as signed exactly when the signature verifies over the context and the 80 bytes. */
  lemma SignedIffVerified(a: Announce, sign: Bytes -> Bytes, verify: Verifier)
    requires a.Valid() && |sign(ContextText() + Body(a))| == 64
    ensures |sign(SIGNING_CONTEXT + Body(a))| == 64
    ensures Signed(Encode(a, sign), a.key, verify) <==> verify(a.key, ContextText() + Body(a), sign(ContextText() + Body(a)))
  {
    assert SIGNING_CONTEXT == ContextText();
    var bytes := Encode(a, sign);
    assert bytes[..80] == Body(a) && bytes[80..] == sign(SIGNING_CONTEXT + Body(a));
  }

  /** Neither the timestamp nor the nonce, nor anything else read, can be edited under one signature. */
  lemma SignatureFixesEverything(a: Announce, b: Announce)
    requires a.Valid() && b.Valid() && SIGNING_CONTEXT + Body(a) == SIGNING_CONTEXT + Body(b)
    ensures a == b
  {
    assert Body(a) == (SIGNING_CONTEXT + Body(a))[21..] == (SIGNING_CONTEXT + Body(b))[21..] == Body(b);
    BodyLayout(a);
    BodyLayout(b);
  }
}
