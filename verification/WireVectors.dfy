/**
 What the formats look like on the wire. The round trips say that both directions agree;
 these say on which octets, for every value of the parts that are copied as they are.
 CBOR heads are those of appendix A of RFC 8949, base32 is section 6 and 10 of RFC 4648.
 */
module WireVectors {
  import opened Common
  import opened Addresses
  import Announces
  import Base32
  import Cbor
  import EventBody
  import Numerals
  import ProbePacket
  import Ticket

  type Octets = seq<Byte>

  // ----- heads -----

  lemma Heads()
    ensures Cbor.Head(0, 0) == [0x00] && Cbor.Head(0, 10) == [0x0a] && Cbor.Head(0, 23) == [0x17]
    ensures Cbor.Head(0, 24) == [0x18, 0x18] && Cbor.Head(0, 100) == [0x18, 0x64]
    ensures Cbor.Head(0, 1000) == [0x19, 0x03, 0xe8]
    ensures Cbor.Head(2, 4) == [0x44] && Cbor.Head(3, 4) == [0x64] && Cbor.Head(4, 3) == [0x83] && Cbor.Head(5, 2) == [0xa2]
  {
    Two(1000);
    One(24);
    One(100);
  }

  lemma One(n: nat)
    requires n < 256
    ensures Cbor.BigEndian(n, 1) == [n]
  {
    assert Cbor.BigEndian(n / 256, 0) == [];
  }

  lemma Two(n: nat)
    requires n < 0x1_0000
    ensures Cbor.BigEndian(n, 2) == [n / 256, n % 256]
  {
    One(n / 256);
  }

  lemma Four(n: nat)
    requires n < 0x1_0000_0000
    ensures Cbor.BigEndian(n, 4) == [n / 0x100_0000, n / 0x1_0000 % 256, n / 256 % 256, n % 256]
  {
    Two(n / 0x1_0000);
    assert Cbor.BigEndian(n / 256, 3) == Cbor.BigEndian(n / 256 / 256, 2) + [n / 256 % 256];
    assert n / 256 / 256 == n / 0x1_0000;
  }

  lemma WideHeads()
    ensures Cbor.Head(0, 1_000_000) == [0x1a, 0x00, 0x0f, 0x42, 0x40]
    ensures Cbor.Head(0, 1_000_000_000_000) == [0x1b, 0x00, 0x00, 0x00, 0xe8, 0xd4, 0xa5, 0x10, 0x00]
  {
    Four(1_000_000);
    var n := 1_000_000_000_000;
    var n3 := n / 256 / 256 / 256 / 256;
    Four(n3);
    assert Cbor.BigEndian(n / 256 / 256 / 256, 5) == Cbor.BigEndian(n3, 4) + [0xd4];
    assert Cbor.BigEndian(n / 256 / 256, 6) == Cbor.BigEndian(n / 256 / 256 / 256, 5) + [0xa5];
    assert Cbor.BigEndian(n / 256, 7) == Cbor.BigEndian(n / 256 / 256, 6) + [0x10];
    assert Cbor.BigEndian(n, 8) == Cbor.BigEndian(n / 256, 7) + [0x00];
  }

  // ----- event bodies -----

  lemma Small(major: nat, n: nat)
    requires major < 8 && n < 24
    ensures Cbor.Head(major, n) == [major * 32 + n]
  {
  }

  lemma KeyString(b: Octets)
    requires |b| == 32
    ensures Cbor.WriteString(Cbor.BYTES, b) == [0x58, 0x20] + b
  {
    One(32);
  }

  lemma OneField(key: nat, value: EventBody.Value)
    requires key < 24 && EventBody.Writable(value)
    ensures EventBody.WritableFields([EventBody.Field(key, value)])
    ensures EventBody.WriteFields([EventBody.Field(key, value)]) == [key] + EventBody.WriteValue(value)
  {
    hide EventBody.WriteValue, EventBody.Writable, Cbor.Head;
    var fields := [EventBody.Field(key, value)];
    assert fields[1..] == [];
    Small(0, key);
    assert [key] + EventBody.WriteValue(value) + [] == [key] + EventBody.WriteValue(value);
  }

  lemma OneKey(key: nat, b: Octets)
    requires |b| == 32 && key < 24
    ensures EventBody.WritableFields([EventBody.Field(key, EventBody.Blob(b))])
    ensures EventBody.WriteFields([EventBody.Field(key, EventBody.Blob(b))]) == [key, 0x58, 0x20] + b
  {
    OneField(key, EventBody.Blob(b));
    KeyString(b);
  }

  lemma OneSmall(key: nat, n: nat)
    requires n < 24 && key < 24
    ensures EventBody.WritableFields([EventBody.Field(key, EventBody.Num(n))])
    ensures EventBody.WriteFields([EventBody.Field(key, EventBody.Num(n))]) == [key, n]
  {
    OneField(key, EventBody.Num(n));
    Small(0, n);
  }

  lemma OneText(key: nat, s: Octets)
    requires |s| < 24 && key < 24
    ensures EventBody.WritableFields([EventBody.Field(key, EventBody.Text(s))])
    ensures EventBody.WriteFields([EventBody.Field(key, EventBody.Text(s))]) == [key, 0x60 + |s|] + s
  {
    OneField(key, EventBody.Text(s));
    Small(3, |s|);
  }

  lemma WritableAdds(a: seq<EventBody.Field>, b: seq<EventBody.Field>)
    requires EventBody.WritableFields(a) && EventBody.WritableFields(b)
    ensures EventBody.WritableFields(a + b) && (a != [] ==> EventBody.WritableFields(a[1..]))
  {
    hide EventBody.Writable;
  }

  lemma WritesFirst(fields: seq<EventBody.Field>)
    requires fields != [] && EventBody.WritableFields(fields)
    ensures EventBody.WritableFields(fields[1..])
    ensures EventBody.WriteFields(fields) == EventBody.WriteFields(fields[..1]) + EventBody.WriteFields(fields[1..])
  {
    hide EventBody.Writable, EventBody.WriteValue, Cbor.Head;
    var one := fields[..1];
    assert one[1..] == [];
    assert EventBody.WriteFields([]) == [];
  }

  /** Fields one after the other are written one after the other. */
  lemma {:induction false} FieldsAdd(a: seq<EventBody.Field>, b: seq<EventBody.Field>)
    requires EventBody.WritableFields(a) && EventBody.WritableFields(b)
    ensures EventBody.WritableFields(a + b)
    ensures EventBody.WriteFields(a + b) == EventBody.WriteFields(a) + EventBody.WriteFields(b)
  {
    hide *;
    WritableAdds(a, b);
    if a == [] {
      assert a + b == b;
      WritesNothing(a);
    } else {
      FieldsAdd(a[1..], b);
      assert (a + b)[1..] == a[1..] + b && (a + b)[..1] == a[..1];
      WritesFirst(a);
      WritesFirst(a + b);
    }
  }

  lemma WritesNothing(a: seq<EventBody.Field>)
    requires a == []
    ensures EventBody.WritableFields(a) && EventBody.WriteFields(a) == []
  {
  }

  lemma WrittenInFull(b: EventBody.Body)
    requires !b.Unknown? && EventBody.WritableFields(EventBody.FieldsOf(b))
    ensures EventBody.ToCbor(b) == Cbor.Head(Cbor.MAP, |EventBody.FieldsOf(b)|) + EventBody.WriteFields(EventBody.FieldsOf(b))
  {
    hide EventBody.FieldsOf, EventBody.WriteFields, EventBody.WritableFields, Cbor.Head;
  }

  lemma WritesAs(b: EventBody.Body, head: Octets, first: Octets, more: seq<EventBody.Field>, body: Octets)
    requires !b.Unknown? && EventBody.WritableFields(more) && EventBody.TypeValue(b) < 24
    requires EventBody.FieldsOf(b) == [EventBody.Field(0, EventBody.Num(EventBody.TypeValue(b)))] + more
    requires first == [0, EventBody.TypeValue(b)] && EventBody.WriteFields(more) == body
    requires head == [0xa0 + 1 + |more|] && |more| < 23
    ensures EventBody.WritableFields(EventBody.FieldsOf(b)) && EventBody.ToCbor(b) == head + first + body
  {
    hide EventBody.FieldsOf, EventBody.WriteFields, EventBody.WritableFields, EventBody.ToCbor, EventBody.TypeValue, EventBody.WriteValue, Cbor.Head;
    var tag := EventBody.Field(0, EventBody.Num(EventBody.TypeValue(b)));
    OneSmall(0, EventBody.TypeValue(b));
    FieldsAdd([tag], more);
    WrittenInFull(b);
    Small(5, 1 + |more|);
  }

  /** A message, alone and in reply. */
  lemma Messages(text: Octets, to: Octets)
    requires |text| < 24 && |to| == 32
    ensures var b := EventBody.Message(text, None);
            && EventBody.WritableFields(EventBody.FieldsOf(b))
            && EventBody.ToCbor(b) == [0xa2] + [0x00, 0x01] + ([0x01, 0x60 + |text|] + text)
    ensures var b := EventBody.Message(text, Some(to));
            && EventBody.WritableFields(EventBody.FieldsOf(b))
            && EventBody.ToCbor(b) == [0xa3] + [0x00, 0x01] + ([0x01, 0x60 + |text|] + text + ([0x02, 0x58, 0x20] + to))
  {
    var one, two := [EventBody.Field(1, EventBody.Text(text))], [EventBody.Field(2, EventBody.Blob(to))];
    OneText(1, text);
    OneKey(2, to);
    FieldsAdd(one, two);
    WritesAs(EventBody.Message(text, None), [0xa2], [0, 1], one, [0x01, 0x60 + |text|] + text);
    WritesAs(EventBody.Message(text, Some(to)), [0xa3], [0, 1], one + two, [0x01, 0x60 + |text|] + text + ([0x02, 0x58, 0x20] + to));
  }

  /** A reaction and its removal. */
  lemma Reactions(target: Octets, symbol: Octets)
    requires |symbol| < 24 && |target| == 32
    ensures var b := EventBody.Reaction(target, symbol, true);
            && EventBody.WritableFields(EventBody.FieldsOf(b))
            && EventBody.ToCbor(b) == [0xa4] + [0x00, 0x02]
                                      + ([0x01, 0x58, 0x20] + target + ([0x02, 0x60 + |symbol|] + symbol) + [0x03, 0xf5])
  {
    var one, two, three := [EventBody.Field(1, EventBody.Blob(target))], [EventBody.Field(2, EventBody.Text(symbol))], [EventBody.Field(3, EventBody.Flag)];
    OneText(2, symbol);
    OneKey(1, target);
    OneField(3, EventBody.Flag);
    FieldsAdd(one, two);
    FieldsAdd(one + two, three);
    WritesAs(EventBody.Reaction(target, symbol, true), [0xa4], [0, 2], one + two + three,
             [0x01, 0x58, 0x20] + target + ([0x02, 0x60 + |symbol|] + symbol) + [0x03, 0xf5]);
  }

  /** Leaving, for one of the four reasons. */
  lemma Leaves(leaver: Octets, reason: nat)
    requires |leaver| == 32 && reason <= 3
    ensures var b := EventBody.Leave(leaver, reason);
            && EventBody.WritableFields(EventBody.FieldsOf(b))
            && EventBody.ToCbor(b) == [0xa3] + [0x00, 0x05] + ([0x01, 0x58, 0x20] + leaver + [0x02, reason])
  {
    var one, two := [EventBody.Field(1, EventBody.Blob(leaver))], [EventBody.Field(2, EventBody.Num(reason))];
    OneKey(1, leaver);
    OneSmall(2, reason);
    FieldsAdd(one, two);
    WritesAs(EventBody.Leave(leaver, reason), [0xa3], [0, 5], one + two, [0x01, 0x58, 0x20] + leaver + [0x02, reason]);
  }

  /** An attachment, a device added and one revoked, with times and sizes below 24. */
  lemma Attachments(hash: Octets, size: nat, name: Octets, media: Octets)
    requires |hash| == 32 && size < 24 && |name| < 24 && |media| < 24
    ensures var b := EventBody.Attachment(hash, size, name, Some(media));
            && EventBody.WritableFields(EventBody.FieldsOf(b))
            && EventBody.ToCbor(b) == [0xa5] + [0x00, 0x03]
                 + ([0x01, 0x58, 0x20] + hash + [0x02, size] + ([0x03, 0x60 + |name|] + name) + ([0x04, 0x60 + |media|] + media))
  {
    hide EventBody.WriteFields, EventBody.WritableFields, EventBody.ToCbor;
    var one, two := [EventBody.Field(1, EventBody.Blob(hash))], [EventBody.Field(2, EventBody.Num(size))];
    var three, four := [EventBody.Field(3, EventBody.Text(name))], [EventBody.Field(4, EventBody.Text(media))];
    OneKey(1, hash);
    OneSmall(2, size);
    OneText(3, name);
    OneText(4, media);
    FieldsAdd(one, two);
    FieldsAdd(one + two, three);
    FieldsAdd(one + two + three, four);
    WritesAs(EventBody.Attachment(hash, size, name, Some(media)), [0xa5], [0, 3], one + two + three + four,
             [0x01, 0x58, 0x20] + hash + [0x02, size] + ([0x03, 0x60 + |name|] + name) + ([0x04, 0x60 + |media|] + media));
  }

  lemma Devices(key: Octets, from: nat, until: nat, name: Octets)
    requires |key| == 32 && from < 24 && until < 24 && |name| < 24
    ensures var b := EventBody.DeviceAdd(key, from, until, Some(name));
            && EventBody.WritableFields(EventBody.FieldsOf(b))
            && EventBody.ToCbor(b) == [0xa5] + [0x00, 0x06]
                 + ([0x01, 0x58, 0x20] + key + [0x02, from] + [0x03, until] + ([0x04, 0x60 + |name|] + name))
    ensures var b := EventBody.DeviceRevoke(key, from);
            && EventBody.WritableFields(EventBody.FieldsOf(b))
            && EventBody.ToCbor(b) == [0xa3] + [0x00, 0x07] + ([0x01, 0x58, 0x20] + key + [0x02, from])
  {
    hide EventBody.WriteFields, EventBody.WritableFields, EventBody.ToCbor;
    var one, two := [EventBody.Field(1, EventBody.Blob(key))], [EventBody.Field(2, EventBody.Num(from))];
    var three, four := [EventBody.Field(3, EventBody.Num(until))], [EventBody.Field(4, EventBody.Text(name))];
    OneKey(1, key);
    OneSmall(2, from);
    OneSmall(3, until);
    OneText(4, name);
    FieldsAdd(one, two);
    FieldsAdd(one + two, three);
    FieldsAdd(one + two + three, four);
    WritesAs(EventBody.DeviceRevoke(key, from), [0xa3], [0, 7], one + two, [0x01, 0x58, 0x20] + key + [0x02, from]);
    WritesAs(EventBody.DeviceAdd(key, from, until, Some(name)), [0xa5], [0, 6], one + two + three + four,
             [0x01, 0x58, 0x20] + key + [0x02, from] + [0x03, until] + ([0x04, 0x60 + |name|] + name));
  }

  lemma OneBlobs(key: nat, a: Octets)
    requires |a| == 32 && key < 24
    ensures EventBody.WritableFields([EventBody.Field(key, EventBody.Blobs([a]))])
    ensures EventBody.WriteFields([EventBody.Field(key, EventBody.Blobs([a]))]) == [key, 0x81, 0x58, 0x20] + a
  {
    OneField(key, EventBody.Blobs([a]));
    Small(4, 1);
    KeyString(a);
    assert [a][1..] == [];
    assert EventBody.WriteBlobs([a]) == Cbor.WriteString(Cbor.BYTES, a) + EventBody.WriteBlobs([]);
  }

  /** Joining with one device. */
  lemma Joins(person: Octets, name: Octets)
    requires |person| == 32 && |name| < 24
    ensures var b := EventBody.Join(person, [person], Some(name));
            && EventBody.WritableFields(EventBody.FieldsOf(b))
            && EventBody.ToCbor(b) == [0xa4] + [0x00, 0x04]
                 + ([0x01, 0x58, 0x20] + person + ([0x02, 0x81, 0x58, 0x20] + person) + ([0x03, 0x60 + |name|] + name))
  {
    hide EventBody.WriteFields, EventBody.WritableFields, EventBody.ToCbor;
    var one, two := [EventBody.Field(1, EventBody.Blob(person))], [EventBody.Field(2, EventBody.Blobs([person]))];
    var three := [EventBody.Field(3, EventBody.Text(name))];
    OneKey(1, person);
    OneBlobs(2, person);
    OneText(3, name);
    FieldsAdd(one, two);
    FieldsAdd(one + two, three);
    WritesAs(EventBody.Join(person, [person], Some(name)), [0xa4], [0, 4], one + two + three,
             [0x01, 0x58, 0x20] + person + ([0x02, 0x81, 0x58, 0x20] + person) + ([0x03, 0x60 + |name|] + name));
  }

  /** A request to drop one event. */
  lemma DropRequests(target: Octets, note: Octets)
    requires |target| == 32 && |note| < 24
    ensures var b := EventBody.DropRequest(1, Some([target]), Some(note));
            && EventBody.WritableFields(EventBody.FieldsOf(b))
            && EventBody.ToCbor(b) == [0xa4] + [0x00, 0x08]
                 + ([0x01, 0x01] + ([0x02, 0x81, 0x58, 0x20] + target) + ([0x03, 0x60 + |note|] + note))
  {
    hide EventBody.WriteFields, EventBody.WritableFields, EventBody.ToCbor;
    var one, two := [EventBody.Field(1, EventBody.Num(1))], [EventBody.Field(2, EventBody.Blobs([target]))];
    var three := [EventBody.Field(3, EventBody.Text(note))];
    OneSmall(1, 1);
    OneBlobs(2, target);
    OneText(3, note);
    FieldsAdd(one, two);
    FieldsAdd(one + two, three);
    WritesAs(EventBody.DropRequest(1, Some([target]), Some(note)), [0xa4], [0, 8], one + two + three,
             [0x01, 0x01] + ([0x02, 0x81, 0x58, 0x20] + target) + ([0x03, 0x60 + |note|] + note));
  }

  // ----- addresses, announces, tickets -----

  /** 203.0.113.7:4433 in a probe and in a ticket, the port high octet first. */
  lemma AddressLayouts(key: Octets, octets: Octets)
    requires |key| == 32 && |octets| == 16
    ensures ProbePacket.AddrToRaw(ProbePacket.RawAddr(4, octets, 4433)) == [4] + octets + [0x11, 0x51]
    ensures Ticket.Bytes(key, SocketAddr(V4(203, 0, 113, 7), 4433)) == key + [4, 203, 0, 113, 7, 0x11, 0x51]
    ensures Ticket.Bytes(key, SocketAddr(V6(0x2001, 0xdb8, 0, 0, 0, 0, 0, 0x1ff), 4433))
              == key + [6, 0x20, 0x01, 0x0d, 0xb8, 0, 0, 0, 0, 0, 0, 0, 0, 0, 0, 0x01, 0xff, 0x11, 0x51]
  {
  }

  /** The signed part of an announce: header, community, key, port, time and nonce, high octets first. */
  lemma AnnounceLayout(community: Octets, key: Octets, nonce: Octets)
    requires |community| == 32 && |key| == 32 && |nonce| == 4
    ensures Announces.Body(Announces.Announce(community, key, 4433, 0x6789_ABCD, nonce))
              == [0x2B, 0x4D, 0x53, 0x44, 0x01, 0x01] + community + key + [0x11, 0x51] + [0x67, 0x89, 0xAB, 0xCD] + nonce
  {
    assert Announces.Word32(0x6789_ABCD) == [0x67, 0x89, 0xAB, 0xCD];
  }

  // ----- base32 -----

  /** Table 3 of RFC 4648. */
  lemma Alphabet(d: nat)
    requires d < 32
    ensures Base32.Letter(d) == "ABCDEFGHIJKLMNOPQRSTUVWXYZ234567"[d]
  {
  }

  lemma Number1(a: nat, base: nat)
    ensures Numerals.Number([a], base) == a
  {
    assert [a][..0] == [];
  }

  lemma Number2(a: nat, b: nat, base: nat)
    ensures Numerals.Number([a, b], base) == a * base + b
  {
    Number1(a, base);
    Numerals.NumberPush([a], b, base);
    assert [a] + [b] == [a, b];
  }

  lemma Number4(a: nat, b: nat, c: nat, d: nat, base: nat)
    ensures Numerals.Number([a, b, c, d], base) == ((a * base + b) * base + c) * base + d
  {
    Number2(a, b, base);
    Numerals.NumberPush([a, b], c, base);
    Numerals.NumberPush([a, b] + [c], d, base);
    assert [a, b] + [c] + [d] == [a, b, c, d];
  }

  lemma FourZeros(n: nat)
    ensures Base32.Zeros(n, 2) == 4 * n && Base32.Zeros(n, 4) == 16 * n
  {
    Base32.ZerosAre(n, 2);
    Base32.ZerosAre(n, 4);
  }

  /** The first two vectors of section 10 of RFC 4648 without their padding: "f" and "fo". */
  lemma Foobar()
    ensures Base32.Encoded([0x66]) == "MY" && Base32.Encoded([0x66, 0x6f]) == "MZXQ"
  {
    hide Numerals.Number, Numerals.Digits, Base32.Zeros, Base32.Spell, Base32.Letter;
    Number1(0x66, 256);
    Number2(0x66, 0x6f, 256);
    FourZeros(0x66);
    FourZeros(0x666f);
    Number2(12, 24, 32);
    Number4(12, 25, 23, 16, 32);
    Fives(0x198, [12, 24]);
    Fives(0x666f0, [12, 25, 23, 16]);
    SpellsFoobar();
  }

  lemma SpellsFoobar()
    ensures Base32.Spell([12, 24]) == "MY" && Base32.Spell([12, 25, 23, 16]) == "MZXQ"
  {
    hide Base32.Spell;
    Spells([12, 24], "MY");
    Spells([12, 25, 23, 16], "MZXQ");
  }

  lemma {:induction false} Fives(n: nat, digits: seq<nat>)
    requires Numerals.AreDigits(digits, 32) && Numerals.Number(digits, 32) == n
    ensures Numerals.Digits(n, |digits|, 32) == digits
  {
    if digits != [] {
      var so := digits[..|digits| - 1];
      assert n / 32 == Numerals.Number(so, 32) && n % 32 == digits[|digits| - 1];
      Fives(n / 32, so);
    }
  }

  lemma Spells(digits: seq<nat>, text: string)
    requires Numerals.AreDigits(digits, 32) && |text| == |digits|
    requires forall k :: 0 <= k < |digits| ==> Base32.Letter(digits[k]) == text[k]
    ensures Base32.Spell(digits) == text
  {
  }
}
