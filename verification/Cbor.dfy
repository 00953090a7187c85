/**
 The part of deterministic CBOR the event bodies use: RFC 8949 section 3 (heads
 and their arguments) and section 4.2.1 (shortest arguments). Writers give
 shortest heads; readers, like the decoder the source calls, take any width. A
 reader consumes a prefix and returns what is left.
 */
module Cbor {
  import opened Common

  type Bytes = seq<Byte>

  const MAX_ARG := 0x1_0000_0000_0000_0000

  datatype Read<+T> = Got(value: T, rest: Bytes) | Bad

  /** Big-endian, in a fixed number of bytes. */
  function BigEndian(n: nat, width: nat): (r: Bytes)
    ensures |r| == width
  {
    if width == 0 then [] else BigEndian(n / 256, width - 1) + [n % 256]
  }

  function FromBigEndian(b: Bytes): nat {
    if b == [] then 0 else FromBigEndian(b[..|b| - 1]) * 256 + b[|b| - 1] as int
  }

  function Pow256(k: nat): nat {
    if k == 0 then 1 else 256 * Pow256(k - 1)
  }

  lemma {:induction false} BigEndianRoundTrips(n: nat, width: nat)
    requires n < Pow256(width)
    ensures FromBigEndian(BigEndian(n, width)) == n
  {
    if width > 0 {
      BigEndianRoundTrips(n / 256, width - 1);
      assert BigEndian(n, width)[..width - 1] == BigEndian(n / 256, width - 1);
    }
  }

  lemma {:induction false} FromBigEndianFits(b: Bytes)
    ensures FromBigEndian(b) < Pow256(|b|)
  {
    if b != [] {
      FromBigEndianFits(b[..|b| - 1]);
    }
  }

  lemma Widths()
    ensures Pow256(1) == 0x100 && Pow256(2) == 0x1_0000 && Pow256(4) == 0x1_0000_0000 && Pow256(8) == MAX_ARG
  {
    assert Pow256(3) == 0x100_0000;
    assert Pow256(5) == 0x100_0000_0000;
    assert Pow256(6) == 0x1_0000_0000_0000;
    assert Pow256(7) == 0x100_0000_0000_0000;
  }

  /** How many argument bytes follow a head with this additional information. */
  function ArgWidth(info: nat): (w: nat)
    requires 24 <= info <= 27
    ensures w == 1 || w == 2 || w == 4 || w == 8
  {
    if info == 24 then 1 else if info == 25 then 2 else if info == 26 then 4 else 8
  }

  function ShortestInfo(n: nat): (info: nat)
    requires n < MAX_ARG
    ensures info <= 27
  {
    if n < 24 then n else if n < 0x100 then 24 else if n < 0x1_0000 then 25 else if n < 0x1_0000_0000 then 26 else 27
  }

  /** The shortest head of a major type with an argument. */
  function Head(major: nat, n: nat): (r: Bytes)
    requires major < 8 && n < MAX_ARG
    ensures r != []
  {
    var info := ShortestInfo(n);
    [major * 32 + info] + if info < 24 then [] else BigEndian(n, ArgWidth(info))
  }

  /** A head of the wanted major type with a definite argument, in whatever width it was written. */
  function ReadHead(major: nat, bytes: Bytes): (r: Read<nat>)
    ensures r.Got? ==> |r.rest| < |bytes| && r.value < MAX_ARG
  {
    if bytes == [] || bytes[0] as int / 32 != major then Bad
    else
      var info := bytes[0] as int % 32;
      if info < 24 then Got(info, bytes[1..])
      else if info > 27 || |bytes| < 1 + ArgWidth(info) then Bad
      else
        var w := ArgWidth(info);
        FromBigEndianFits(bytes[1..1 + w]);
        Widths();
        Got(FromBigEndian(bytes[1..1 + w]), bytes[1 + w..])
  }

  lemma HeadReadsBack(major: nat, n: nat, rest: Bytes)
    requires major < 8 && n < MAX_ARG
    ensures ReadHead(major, Head(major, n) + rest) == Got(n, rest)
  {
    var info := ShortestInfo(n);
    var bytes := Head(major, n) + rest;
    assert bytes[0] == major * 32 + info;
    if info >= 24 {
      WideHeadReadsBack(major, n, rest);
    } else {
      assert bytes[1..] == rest;
    }
  }

  lemma WideHeadReadsBack(major: nat, n: nat, rest: Bytes)
    requires major < 8 && n < MAX_ARG && ShortestInfo(n) >= 24 && n < Pow256(ArgWidth(ShortestInfo(n)))
    ensures ReadHead(major, Head(major, n) + rest) == Got(n, rest)
  {
    var info := ShortestInfo(n);
    var w := ArgWidth(info);
    BigEndianRoundTrips(n, w);
    hide BigEndian, FromBigEndian, Pow256, ArgWidth;
    var bytes := Head(major, n) + rest;
    assert bytes[1..1 + w] == BigEndian(n, w);
    assert bytes[1 + w..] == rest;
  }

  // ----- strings of bytes and of text -----

  /** A definite length followed by that many bytes. */
  function ReadString(major: nat, bytes: Bytes): (r: Read<Bytes>)
    ensures r.Got? ==> |r.rest| < |bytes| && |r.value| < MAX_ARG
  {
    var head := ReadHead(major, bytes);
    if head.Bad? || head.value > |head.rest| then Bad
    else Got(head.rest[..head.value], head.rest[head.value..])
  }

  function WriteString(major: nat, s: Bytes): (r: Bytes)
    requires major < 8 && |s| < MAX_ARG
    ensures r != []
  {
    Head(major, |s|) + s
  }

  lemma StringReadsBack(major: nat, s: Bytes, rest: Bytes)
    requires major < 8 && |s| < MAX_ARG
    ensures ReadString(major, WriteString(major, s) + rest) == Got(s, rest)
  {
    assert WriteString(major, s) + rest == Head(major, |s|) + (s + rest);
    HeadReadsBack(major, |s|, s + rest);
    assert (s + rest)[..|s|] == s && (s + rest)[|s|..] == rest;
  }

  const UINT := 0
  const BYTES := 2
  const TEXT := 3
  const ARRAY := 4
  const MAP := 5

  /** `true` and `false` are the one-byte heads 0xf5 and 0xf4. */
  function ReadBool(bytes: Bytes): (r: Read<bool>)
    ensures r.Got? ==> |r.rest| < |bytes|
  {
    if bytes != [] && bytes[0] == 0xf5 then Got(true, bytes[1..])
    else if bytes != [] && bytes[0] == 0xf4 then Got(false, bytes[1..])
    else Bad
  }
}
