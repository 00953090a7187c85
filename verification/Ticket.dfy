/**
 The spike's ticket: a pinned public key and a socket address behind `moss1`
 (crates/mosschat-net/examples/spike.rs:531-600).
 */
module Ticket {
  import opened Common
  import opened Addresses
  import opened Numerals
  import Base32

  const PREFIX := "moss1"
  const KEY_LENGTH := 32

  datatype Error =
    | MissingPrefix
    | NotBase32(ch: char)
    | TooShort
    | ShortAddress(family: nat)
    | UnknownFamily(family: nat)
    | MissingPort

  datatype Parsed = Ticket(key: seq<nat>, addr: SocketAddr) | Refused(error: Error)

  function WordAt(bytes: seq<nat>, at: nat): Word
    requires at + 1 < |bytes| && AreDigits(bytes, 256)
  {
    bytes[at] * 256 + bytes[at + 1]
  }

  function IpBytes(ip: Ip): (r: seq<Byte>)
    ensures |r| == if ip.V4? then 4 else 16
  {
    match ip
    case V4(a, b, c, d) => [a, b, c, d]
    case V6(g0, g1, g2, g3, g4, g5, g6, g7) =>
      WordBytes(g0) + WordBytes(g1) + WordBytes(g2) + WordBytes(g3)
      + WordBytes(g4) + WordBytes(g5) + WordBytes(g6) + WordBytes(g7)
  }

  function IpAt(bytes: seq<nat>, v6: bool): Ip
    requires |bytes| >= (if v6 then 16 else 4) && AreDigits(bytes, 256)
  {
    if v6 then
      V6(WordAt(bytes, 0), WordAt(bytes, 2), WordAt(bytes, 4), WordAt(bytes, 6),
         WordAt(bytes, 8), WordAt(bytes, 10), WordAt(bytes, 12), WordAt(bytes, 14))
    else V4(bytes[0], bytes[1], bytes[2], bytes[3])
  }

  /** The layout: key, family, address, port high octet first. */
  function Bytes(key: seq<Byte>, addr: SocketAddr): seq<Byte> {
    key + [if addr.ip.V4? then 4 else 6] + IpBytes(addr.ip) + WordBytes(addr.port)
  }

  function Parse(bytes: seq<nat>): Parsed
    requires AreDigits(bytes, 256)
  {
    if |bytes| < KEY_LENGTH + 1 then Refused(TooShort)
    else
      var family := bytes[KEY_LENGTH];
      if family != 4 && family != 6 then Refused(UnknownFamily(family))
      else
        var end := if family == 4 then 37 else 49;
        if |bytes| < end then Refused(ShortAddress(family))
        else if |bytes| < end + 2 then Refused(MissingPort)
        else Ticket(bytes[..KEY_LENGTH], SocketAddr(IpAt(bytes[33..end], family == 6), WordAt(bytes, end)))
  }

  function Text(key: seq<Byte>, addr: SocketAddr): string {
    PREFIX + Base32.Encoded(Bytes(key, addr))
  }

  predicate HasPrefix(text: string) {
    |text| >= |PREFIX| && text[..|PREFIX|] == PREFIX
  }

  function Read(text: string): Parsed {
    if !HasPrefix(text) then Refused(MissingPrefix)
    else
      match Base32.Decoded(text[|PREFIX|..])
      case Bad(ch) => Refused(NotBase32(ch))
      case Fine(bytes) => Parse(bytes)
  }

  /** Why octets are refused: each reason exactly where the layout first breaks. */
  lemma RefusedBecause(bytes: seq<nat>, family: nat)
    requires AreDigits(bytes, 256)
    ensures Parse(bytes) == Refused(TooShort) <==> |bytes| < 33
    ensures Parse(bytes) == Refused(UnknownFamily(family)) <==> |bytes| >= 33 && bytes[32] == family && family != 4 && family != 6
    ensures Parse(bytes) == Refused(ShortAddress(4)) <==> 33 <= |bytes| < 37 && bytes[32] == 4
    ensures Parse(bytes) == Refused(ShortAddress(6)) <==> 33 <= |bytes| < 49 && bytes[32] == 6
    ensures Parse(bytes) == Refused(MissingPort) <==>
              |bytes| >= 33 && ((bytes[32] == 4 && 37 <= |bytes| < 39) || (bytes[32] == 6 && 49 <= |bytes| < 51))
  {
  }

  /**
   A text that does not start with `moss1` is refused for that, before anything is
   decoded; otherwise what follows decides: its first bad character, or the octets it holds.
   */
  lemma TextRefusedBecause(text: string)
    ensures Read(text) == Refused(MissingPrefix) <==> |text| < 5 || text[..5] != "moss1"
    ensures |text| >= 5 && text[..5] == "moss1" ==>
              Read(text) == match Base32.Decoded(text[5..]) case Bad(ch) => Refused(NotBase32(ch)) case Fine(bytes) => Parse(bytes)
  {
    if HasPrefix(text) {
      match Base32.Decoded(text[|PREFIX|..]) {
        case Bad(_) =>
        case Fine(bytes) => assert Parse(bytes) != Refused(MissingPrefix);
      }
    }
  }

  lemma WordReadsBack(w: Word)
    ensures w / 256 * 256 + w % 256 == w
  {
  }

  lemma IpReadsBack(ip: Ip)
    ensures AreDigits(IpBytes(ip), 256) && IpAt(IpBytes(ip), ip.V6?) == ip
  {
    if ip.V6? {
      var r := IpBytes(ip);
      assert r == [ip.g0 / 256, ip.g0 % 256, ip.g1 / 256, ip.g1 % 256, ip.g2 / 256, ip.g2 % 256, ip.g3 / 256, ip.g3 % 256,
                   ip.g4 / 256, ip.g4 % 256, ip.g5 / 256, ip.g5 % 256, ip.g6 / 256, ip.g6 % 256, ip.g7 / 256, ip.g7 % 256];
    }
  }

  lemma BytesReadAs(bytes: seq<nat>, v6: bool)
    requires AreDigits(bytes, 256) && |bytes| == if v6 then 16 else 4
    ensures IpBytes(IpAt(bytes, v6)) == bytes
  {
    var ip := IpAt(bytes, v6);
    if v6 {
      forall at | 0 <= at < 15
        ensures WordBytes(WordAt(bytes, at)) == bytes[at..at + 2]
      {
        assert WordAt(bytes, at) / 256 == bytes[at] && WordAt(bytes, at) % 256 == bytes[at + 1];
      }
      assert IpBytes(ip) == bytes[0..2] + bytes[2..4] + bytes[4..6] + bytes[6..8] + bytes[8..10] + bytes[10..12] + bytes[12..14] + bytes[14..16];
    }
  }

  /** Where each field of the layout lies, whatever follows it. */
  lemma Layout(key: seq<Byte>, addr: SocketAddr, bytes: seq<nat>)
    requires |key| == KEY_LENGTH
    ensures var end := if addr.ip.V4? then 37 else 49;
            Bytes(key, addr) <= bytes <==>
              && end + 2 <= |bytes| && bytes[..KEY_LENGTH] == key
              && bytes[KEY_LENGTH] == (if addr.ip.V4? then 4 else 6)
              && bytes[33..end] == IpBytes(addr.ip) && bytes[end..end + 2] == WordBytes(addr.port)
  {
    var end := if addr.ip.V4? then 37 else 49;
    var layout := Bytes(key, addr);
    hide IpBytes, WordBytes;
    assert |layout| == end + 2;
    assert layout[..KEY_LENGTH] == key && layout[KEY_LENGTH] == (if addr.ip.V4? then 4 else 6);
    assert layout[33..end] == IpBytes(addr.ip) && layout[end..end + 2] == WordBytes(addr.port);
    if end + 2 <= |bytes| {
      assert bytes[..end + 2] == bytes[..KEY_LENGTH] + [bytes[KEY_LENGTH]] + bytes[33..end] + bytes[end..end + 2];
      assert layout == layout[..KEY_LENGTH] + [layout[KEY_LENGTH]] + layout[33..end] + layout[end..end + 2];
    }
  }

  /**
   What parses, exactly: octets that start with the layout of a 32 octet key and that
   address, and nothing else. Octets after the port are not looked at.
   */
  lemma ParsesIffLaidOut(key: seq<Byte>, addr: SocketAddr, bytes: seq<nat>)
    requires AreDigits(bytes, 256)
    ensures Parse(bytes) == Ticket(key, addr) <==> |key| == KEY_LENGTH && Bytes(key, addr) <= bytes
  {
    if |key| == KEY_LENGTH {
      Layout(key, addr, bytes);
      if Bytes(key, addr) <= bytes {
        LaidOutParses(key, addr, bytes);
      }
      if Parse(bytes) == Ticket(key, addr) {
        ParsedIsLaidOut(key, addr, bytes);
      }
    }
  }

  lemma LaidOutParses(key: seq<Byte>, addr: SocketAddr, bytes: seq<nat>)
    requires AreDigits(bytes, 256) && |key| == KEY_LENGTH && Bytes(key, addr) <= bytes
    ensures Parse(bytes) == Ticket(key, addr)
  {
    hide IpBytes, IpAt, Bytes;
    Layout(key, addr, bytes);
    var end := if addr.ip.V4? then 37 else 49;
    IpReadsBack(addr.ip);
    assert bytes[end..end + 2][0] == bytes[end] && bytes[end..end + 2][1] == bytes[end + 1];
    WordReadsBack(addr.port);
  }

  lemma ParsedIsLaidOut(key: seq<Byte>, addr: SocketAddr, bytes: seq<nat>)
    requires AreDigits(bytes, 256) && |key| == KEY_LENGTH && Parse(bytes) == Ticket(key, addr)
    ensures Bytes(key, addr) <= bytes
  {
    var end := if bytes[KEY_LENGTH] == 4 then 37 else 49;
    assert addr.ip == IpAt(bytes[33..end], end == 49) && addr.port == WordAt(bytes, end);
    assert addr.ip.V4? <==> end == 37;
    BytesReadAs(bytes[33..end], end == 49);
    assert WordBytes(addr.port) == bytes[end..end + 2] by {
      assert addr.port / 256 == bytes[end] && addr.port % 256 == bytes[end + 1];
    }
    hide IpBytes, IpAt, Bytes;
    Layout(key, addr, bytes);
  }

  /** Every key, address of either family and port comes back from its ticket. */
  lemma RoundTrip(key: seq<Byte>, addr: SocketAddr)
    requires |key| == KEY_LENGTH
    ensures Read(Text(key, addr)) == Ticket(key, addr)
  {
    hide Parse, Bytes;
    Base32.RoundTrip(Bytes(key, addr));
    var text := Text(key, addr);
    assert text[..|PREFIX|] == PREFIX && text[|PREFIX|..] == Base32.Encoded(Bytes(key, addr));
    ParsesIffLaidOut(key, addr, Bytes(key, addr));
  }

  /** Two tickets read alike only if they are of one key and one address. */
  lemma TicketsDiffer(key: seq<Byte>, addr: SocketAddr, otherKey: seq<Byte>, otherAddr: SocketAddr)
    requires |key| == |otherKey| == KEY_LENGTH && Text(key, addr) == Text(otherKey, otherAddr)
    ensures key == otherKey && addr == otherAddr
  {
    hide Read, Text;
    RoundTrip(key, addr);
    RoundTrip(otherKey, otherAddr);
  }

  // ----- as the source writes it -----

  method EncodeTicket(key: seq<Byte>, addr: SocketAddr) returns (text: string)
    requires |key| == KEY_LENGTH
    ensures text == Text(key, addr)
    ensures Read(text) == Ticket(key, addr)
  {
    hide Read;
    RoundTrip(key, addr);
    var bytes: seq<Byte> := key;
    match addr.ip {
      case V4(_, _, _, _) => bytes := bytes + [4];
      case V6(_, _, _, _, _, _, _, _) => bytes := bytes + [6];
    }
    bytes := bytes + IpBytes(addr.ip);
    bytes := bytes + WordBytes(addr.port);
    var body := Base32.Encode(bytes);
    text := PREFIX + body;
  }

  method DecodeTicket(text: string) returns (r: Parsed)
    ensures r == Read(text)
    ensures r.Ticket? ==> |r.key| == KEY_LENGTH && AreDigits(r.key, 256)
  {
    if !HasPrefix(text) {
      return Refused(MissingPrefix);
    }
    var decoded := Base32.Decode(text[|PREFIX|..]);
    match decoded {
      case Bad(ch) => r := Refused(NotBase32(ch));
      case Fine(bytes) => r := Parse(bytes);
    }
  }
}
