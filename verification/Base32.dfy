/**
 The unpadded base32 codec of a ticket (crates/mosschat-net/examples/spike.rs:608-648),
 after section 6 of RFC 4648. Both directions shift through a 32 bit accumulator that
 loses its high bits; what they compute is the same number in the other base.
 */
module Base32 {
  import opened Common
  import opened Numerals

  const U32 := 0x1_0000_0000

  /** `A` to `Z`, then `2` to `7`. */
  function Letter(d: nat): char
    requires d < 32
  {
    if d < 26 then ('A' as int + d) as char else ('2' as int + d - 26) as char
  }

  function AsciiUpper(ch: char): char {
    if 'a' <= ch <= 'z' then (ch as int - 32) as char else ch
  }

  /** What a character stands for. The source compares its lowest octet only. */
  function ValueOf(ch: char): (r: Option<nat>)
    ensures r.Some? ==> r.value < 32
  {
    var octet := AsciiUpper(ch) as int % 256;
    if 'A' as int <= octet <= 'Z' as int then Some(octet - 'A' as int)
    else if '2' as int <= octet <= '7' as int then Some(octet - '2' as int + 26)
    else None
  }

  datatype Outcome<T, E> = Fine(value: T) | Bad(error: E)

  /** The values of a text, or its first character that has none. */
  function Values(text: string): (r: Outcome<seq<nat>, char>)
    ensures r.Fine? ==> |r.value| == |text| && AreDigits(r.value, 32)
  {
    if text == [] then Fine([])
    else
      var so := Values(text[..|text| - 1]);
      var last := ValueOf(text[|text| - 1]);
      if so.Bad? then so
      else if last.None? then Bad(text[|text| - 1])
      else Fine(so.value + [last.value])
  }

  function Spell(digits: seq<nat>): (r: string)
    requires AreDigits(digits, 32)
    ensures |r| == |digits|
    ensures forall k :: 0 <= k < |r| ==> r[k] == Letter(digits[k])
  {
    if digits == [] then [] else Spell(digits[..|digits| - 1]) + [Letter(digits[|digits| - 1])]
  }

  /** Powers of two, up to what the accumulator ever holds unread. */
  function P(bits: nat): (r: nat)
    requires bits <= 12
    ensures r > 0
  {
    match bits
    case 0 => 1 case 1 => 2 case 2 => 4 case 3 => 8 case 4 => 16 case 5 => 32 case 6 => 64
    case 7 => 128 case 8 => 256 case 9 => 512 case 10 => 1024 case 11 => 2048 case 12 => 4096
  }

  // ----- what the two directions mean -----

  function TextLength(n: nat): nat {
    (8 * n + 4) / 5
  }

  function PadBits(n: nat): (r: nat)
    ensures r < 5
  {
    5 * TextLength(n) - 8 * n
  }

  /** A number followed by so many zero bits. */
  function Zeros(n: nat, bits: nat): nat {
    if bits == 0 then n else 2 * Zeros(n, bits - 1)
  }

  lemma ZerosAre(n: nat, bits: nat)
    requires bits < 5
    ensures Zeros(n, bits) == n * P(bits) && Zeros(n, bits) / P(bits) == n && Zeros(n, bits) % P(bits) == 0
  {
    match bits {
      case 0 =>
      case 1 => assert Zeros(n, 1) == 2 * n;
      case 2 => assert Zeros(n, 2) == 4 * n;
      case 3 => assert Zeros(n, 3) == 8 * n;
      case 4 => assert Zeros(n, 4) == 16 * n;
    }
  }

  /** The octets as one number, padded with zero bits to whole groups of five. */
  function Encoded(data: seq<Byte>): (r: string)
    ensures |r| == TextLength(|data|)
  {
    Spell(Digits(Zeros(Number(data, 256), PadBits(|data|)), TextLength(|data|), 32))
  }

  /** The text as one number, without the bits that do not fill an octet. */
  function Decoded(text: string): Outcome<seq<nat>, char> {
    match Values(text)
    case Bad(ch) => Bad(ch)
    case Fine(values) => Fine(Digits(Number(values, 32) / P(5 * |text| % 8), 5 * |text| / 8, 256))
  }

  lemma {:induction false} SpellingReadsBack(digits: seq<nat>)
    requires AreDigits(digits, 32)
    ensures Values(Spell(digits)) == Fine(digits)
  {
    if digits != [] {
      var n := |digits| - 1;
      SpellingReadsBack(digits[..n]);
      hide Letter, ValueOf;
      assert Spell(digits)[..n] == Spell(digits[..n]);
      assert digits[..n] + [digits[n]] == digits;
    }
  }

  lemma PaddedFits(data: seq<Byte>)
    ensures Zeros(Number(data, 256), PadBits(|data|)) < Two(5 * TextLength(|data|))
  {
    hide Two, Zeros, Number, TextLength, PadBits;
    NumberFits(data, 256);
    PadFills(|data|);
    ZerosFit(Number(data, 256), 8 * |data|, PadBits(|data|));
  }

  lemma PadFills(n: nat)
    ensures 5 * TextLength(n) == 8 * n + PadBits(n)
  {
  }

  lemma {:induction false} ZerosFit(n: nat, width: nat, bits: nat)
    requires n < Two(width)
    ensures Zeros(n, bits) < Two(width + bits)
  {
    if bits > 0 {
      ZerosFit(n, width, bits - 1);
    }
  }

  /** Every byte string comes back, though the last group is padded. */
  lemma {:induction false} RoundTrip(data: seq<Byte>)
    ensures Decoded(Encoded(data)) == Fine(data)
  {
    hide Number, Digits, Spell, Values, P, TextLength, PadBits, Zeros;
    var n, len, pad := |data|, TextLength(|data|), PadBits(|data|);
    var padded := Zeros(Number(data, 256), pad);
    var digits := Digits(padded, len, 32);
    SpellingReadsBack(digits);
    PaddedFits(data);
    NumberOfDigits(padded, len, 32);
    PadIsLeftOver(n);
    ZerosAre(Number(data, 256), pad);
    DigitsOfNumber(data, 256);
  }

  /** The bits that do not fill an octet are the padding and nothing else. */
  lemma PadIsLeftOver(n: nat)
    ensures 5 * TextLength(n) % 8 == PadBits(n) && 5 * TextLength(n) / 8 == n
  {
    assert 5 * TextLength(n) == 8 * n + PadBits(n);
  }

  /** A text in the alphabet itself, with no character to spare and no bit set in the padding. */
  predicate Canonical(text: string, values: seq<nat>) {
    && |values| == |text| && AreDigits(values, 32)
    && text == Spell(values)
    && 5 * |text| % 8 < 5
    && Number(values, 32) % P(5 * |text| % 8) == 0
  }

  /** A text that decodes is what the octets encode back to exactly when it is canonical. */
  lemma {:induction false} ReencodesIffCanonical(text: string, data: seq<Byte>)
    requires Decoded(text) == Fine(data)
    ensures Encoded(data) == text <==> Canonical(text, Values(text).value)
  {
    var values, m, bits := Values(text).value, |text|, 5 * |text| % 8;
    var n := 5 * m / 8;
    assert |data| == n;
    NumberFits(values, 32);
    WholeOctetsFit(Number(values, 32), 5 * m);
    NumberOfDigits(Number(values, 32) / P(bits), n, 256);
    assert bits < 5 <==> TextLength(n) == m;
    if bits < 5 {
      assert PadBits(n) == bits;
      var whole := Zeros(Number(values, 32) / P(bits), bits);
      WholeMultiple(Number(values, 32), bits);
      NumberOfDigits(whole, m, 32);
      SpellingReadsBack(Digits(whole, m, 32));
      DigitsOfNumber(values, 32);
    }
  }

  /** Two or three characters worth less than one octet's lowest place are the octet zero. */
  lemma ReadsAsZero(text: string, values: seq<nat>)
    requires 2 <= |text| == |values| <= 3 && Values(text) == Fine(values) && Number(values, 32) < 4
    ensures Decoded(text) == Fine([0])
  {
    var bits: nat := 5 * |text| - 8;
    WholeOctets(|text|, 1, bits);
    BelowOne(Number(values, 32), P(bits));
    OneOctetZero();
    hide Values, Number, P, Digits;
  }

  lemma OneOctetZero()
    ensures Digits(0, 1, 256) == [0]
  {
    assert Digits(0, 1, 256) == Digits(0, 0, 256) + [0];
  }

  lemma BelowOne(n: nat, p: nat)
    requires n < p
    ensures n / p == 0
  {
  }

  lemma SmallNumbers(last: nat)
    ensures Number([0, last], 32) == last && Number([0, 0, last], 32) == last
  {
    NumberPush([], 0, 32);
    NumberPush([0], 0, 32);
    NumberPush([0], last, 32);
    NumberPush([0, 0], last, 32);
    assert [] + [0] == [0] && [0] + [0] == [0, 0] && [0] + [last] == [0, last] && [0, 0] + [last] == [0, 0, last];
  }

  /** A text that reads as the octet zero in any spelling but `AA` is nobody's encoding. */
  lemma OnlyOneSpelling(text: string, data: seq<Byte>)
    requires Decoded(text) == Fine([0]) && text != "AA"
    ensures Encoded(data) != text && Values(text).Fine? && !Canonical(text, Values(text).value)
  {
    OctetZero([0], "AA");
    ReencodesIffCanonical(text, [0]);
    RoundTrip(data);
    hide Encoded, Canonical;
  }

  /** Decodes, but to octets that encode to something else: no encoder writes it. */
  ghost predicate Nobodys(text: string) {
    && Decoded(text).Fine? && Values(text).Fine?
    && !Canonical(text, Values(text).value)
    && forall data: seq<Byte> :: Encoded(data) != text
  }

  lemma ReadsAsNobodys(text: string, values: seq<nat>)
    requires 2 <= |text| == |values| <= 3 && Values(text) == Fine(values) && Number(values, 32) < 4 && text != "AA"
    ensures Nobodys(text)
  {
    ReadsAsZero(text, values);
    hide Canonical, Encoded, Decoded, Values, Number;
    forall data: seq<Byte>
      ensures Encoded(data) != text
    {
      OnlyOneSpelling(text, data);
    }
    OnlyOneSpelling(text, []);
  }

  lemma LowestOctetIsNobodys(text: string)
    requires text == ['\U{0141}', 'A']
    ensures Nobodys(text)
  {
    ReadsAs(text, [0, 0]);
    SmallNumbers(0);
    hide Number, Nobodys, Values;
    ReadsAsNobodys(text, [0, 0]);
  }

  lemma SpareCharacterIsNobodys(text: string)
    requires text == ['A', 'A', 'A']
    ensures Nobodys(text)
  {
    ReadsAs(text, [0, 0, 0]);
    SmallNumbers(0);
    hide Number, Nobodys, Values;
    ReadsAsNobodys(text, [0, 0, 0]);
  }

  lemma PaddingBitIsNobodys(text: string)
    requires text == ['A', 'B']
    ensures Nobodys(text)
  {
    ReadsAs(text, [0, 1]);
    SmallNumbers(1);
    hide Number, Nobodys, Values;
    ReadsAsNobodys(text, [0, 1]);
  }

  /**
   Three texts that decode and that no encoder writes: a character whose lowest octet
   is a letter, a character to spare, and a bit set in the padding.
   */
  lemma SomeTextsAreNobodys()
    ensures Nobodys("\U{0141}A") && Nobodys("AAA") && Nobodys("AB")
  {
    hide Nobodys;
    LowestOctetIsNobodys("\U{0141}A");
    SpareCharacterIsNobodys("AAA");
    PaddingBitIsNobodys("AB");
  }

  lemma OctetZero(data: seq<Byte>, text: string)
    requires data == [0] && text == ['A', 'A']
    ensures Encoded(data) == text
  {
    hide Number, Zeros, Digits, Spell, TextLength, PadBits, P, Encoded;
    NumberPush([], 0, 256);
    NothingYet(256);
    assert [] + [0] == data;
    Groups(1, 2, 2);
    NoneStaysNone(2);
    TwoGroupsZero();
    TwoLetters([0, 0]);
    EncodedIs(data, [0, 0]);
  }

  lemma {:induction false} NoneStaysNone(bits: nat)
    ensures Zeros(0, bits) == 0
  {
    if bits > 0 {
      NoneStaysNone(bits - 1);
    }
  }

  lemma TwoGroupsZero()
    ensures Digits(0, 2, 32) == [0, 0]
  {
    assert Digits(0, 2, 32) == Digits(0, 1, 32) + [0];
    assert Digits(0, 1, 32) == Digits(0, 0, 32) + [0];
  }

  lemma TwoLetters(digits: seq<nat>)
    requires digits == [0, 0]
    ensures Spell(digits) == ['A', 'A']
  {
    hide Spell;
    SpellPush([], 0);
    SpellPush([0], 0);
    assert [] + [0] == [0] && [0] + [0] == digits;
    NoText();
    assert Letter(0) == 'A';
  }

  /** A text of up to three characters, read. */
  lemma ReadsAs(text: string, values: seq<nat>)
    requires |text| == |values| <= 3 && forall k :: 0 <= k < |text| ==> ValueOf(text[k]) == Some(values[k])
    ensures Values(text) == Fine(values)
  {
    hide ValueOf;
    if text != [] {
      ReadsAs(text[..|text| - 1], values[..|text| - 1]);
      assert values == values[..|text| - 1] + [values[|text| - 1]];
    } else {
      assert values == [];
    }
  }

  lemma WholeMultiple(n: nat, bits: nat)
    requires bits < 5
    ensures Zeros(n / P(bits), bits) <= n && (Zeros(n / P(bits), bits) == n <==> n % P(bits) == 0)
  {
    ZerosAre(n / P(bits), bits);
    assert n == n / P(bits) * P(bits) + n % P(bits);
    hide P, Zeros;
  }

  lemma WholeOctetsFit(n: nat, width: nat)
    requires n < Two(width)
    ensures n / P(width % 8) < Two(8 * (width / 8))
  {
    EightBits(8 * (width / 8), width % 8);
    assert width == 8 * (width / 8) + width % 8;
    hide Two;
  }

  lemma EightBits(k: nat, bits: nat)
    requires bits < 8
    ensures Two(k + bits) == P(bits) * Two(k)
  {
    if bits > 0 {
      EightBits(k, bits - 1);
      assert Two(k + bits) == 2 * Two(k + bits - 1);
      assert P(bits) == 2 * P(bits - 1);
    }
  }

  // ----- the accumulator -----

  /** What has been read is what has been written and the bits still held, whatever was shifted out. */
  predicate Holds(read: nat, written: nat, buf: nat, bits: nat) {
    bits <= 12 && read == written * P(bits) + buf % P(bits)
  }

  lemma RemainderIs(x: nat, m: nat, q: int, r: nat)
    requires r < m && x == m * q + r
    ensures x % m == r
  {
    var t := q - x / m;
    assert m * t == x % m - r;
    assert t == 0;
  }

  lemma LowBits(buf: nat, p: nat, digit: nat, b: nat, rest: nat)
    requires p > 0 && digit < b && U32 == p * b * rest
    ensures (buf * b % U32 + digit) % (p * b) == buf % p * b + digit
  {
    var low, high, lost := buf % p, buf / p, buf * b / U32;
    assert buf == p * high + low;
    assert buf * b == (p * b) * high + low * b;
    assert buf * b % U32 == buf * b - (p * b) * (rest * lost);
    assert low * b + digit < p * b by {
      assert (low + 1) * b <= p * b;
    }
    assert (p * b) * high - (p * b) * (rest * lost) == (p * b) * (high - rest * lost);
    RemainderIs(buf * b % U32 + digit, p * b, high - rest * lost, low * b + digit);
  }

  lemma ShiftIn(read: nat, written: nat, buf: nat, bits: nat, digit: nat, b: nat)
    requires IsBase(b) && bits + Width(b) <= 12 && buf < U32 && digit < b && Holds(read, written, buf, bits)
    ensures Holds(read * b + digit, written, buf * b % U32 + digit, bits + Width(b))
    ensures buf * b % U32 + digit < U32
  {
    PowersFit(bits, b);
    NoCarry(buf, digit, b);
    hide P;
    var p := P(bits);
    LowBits(buf, p, digit, b, U32 / (p * b));
    Distribute(written, p, buf % p, b);
  }

  /** One more digit's width, still a power of two the accumulator holds. */
  lemma PowersFit(bits: nat, b: nat)
    requires IsBase(b) && bits + Width(b) <= 12
    ensures P(bits + Width(b)) == P(bits) * b && U32 == P(bits) * b * (U32 / (P(bits) * b))
  {
  }

  lemma NoCarry(buf: nat, digit: nat, b: nat)
    requires IsBase(b) && digit < b
    ensures buf * b % U32 + digit < U32
  {
  }

  lemma Distribute(written: nat, p: nat, low: nat, b: nat)
    ensures (written * p + low) * b == written * (p * b) + low * b
  {
  }

  lemma ShiftOut(read: nat, written: nat, buf: nat, bits: nat, b: nat)
    requires IsBase(b) && Width(b) <= bits <= 12 && Holds(read, written, buf, bits)
    ensures Holds(read, written * b + buf / P(bits - Width(b)) % b, buf, bits - Width(b))
  {
    var kept := bits - Width(b);
    var p := P(kept);
    assert P(bits) == p * b;
    hide P;
    HighBits(buf, p, b);
    Regroup(written, p, buf / p % b, b);
  }

  lemma Regroup(written: nat, p: nat, digit: nat, b: nat)
    ensures (written * b + digit) * p == written * (p * b) + digit * p
  {
  }

  lemma HighBits(buf: nat, p: nat, b: nat)
    requires p > 0 && b > 0
    ensures buf % (p * b) == buf / p % b * p + buf % p
  {
    var t, l := buf / p, buf % p;
    var u, v := t / b, t % b;
    assert buf == p * t + l && t == b * u + v;
    assert p * (b * u + v) == (p * b) * u + v * p;
    assert v * p + l < p * b by {
      assert (v + 1) * p <= b * p;
    }
    RemainderIs(buf, p * b, u, v * p + l);
  }

  lemma NothingHeld()
    ensures Holds(0, 0, 0, 0)
  {
    assert P(0) == 1;
    hide P;
  }

  lemma NothingYet(b: nat)
    ensures Number([], b) == 0
  {
  }

  lemma NoText()
    ensures Values([]) == Fine([]) && Spell([]) == []
  {
    hide ValueOf, Letter;
  }

  lemma SpellPush(digits: seq<nat>, d: nat)
    requires AreDigits(digits, 32) && d < 32
    ensures Spell(digits + [d]) == Spell(digits) + [Letter(d)]
  {
    assert (digits + [d])[..|digits|] == digits;
  }

  lemma ByteIn(data: seq<Byte>, k: nat, written: nat, buf: nat, bits: nat)
    requires k < |data| && bits < 5 && buf < U32 && Holds(Number(data[..k], 256), written, buf, bits)
    ensures Holds(Number(data[..k + 1], 256), written, buf * 256 % U32 + data[k], bits + 8)
    ensures buf * 256 % U32 + data[k] < U32
  {
    NumberPush(data[..k], data[k], 256);
    assert data[..k] + [data[k]] == data[..k + 1];
    ShiftIn(Number(data[..k], 256), written, buf, bits, data[k], 256);
  }

  lemma GroupOut(read: nat, digits: seq<nat>, buf: nat, bits: nat, b: nat)
    requires IsBase(b) && Width(b) <= bits <= 12 && Holds(read, Number(digits, b), buf, bits)
    ensures Holds(read, Number(digits + [buf / P(bits - Width(b)) % b], b), buf, bits - Width(b))
  {
    ShiftOut(read, Number(digits, b), buf, bits, b);
    NumberPush(digits, buf / P(bits - Width(b)) % b, b);
  }

  /** With every octet in, the digits out are those of the padded number. */
  lemma NoneLeft(data: seq<Byte>, digits: seq<nat>, buf: nat)
    requires AreDigits(digits, 32) && 5 * |digits| == 8 * |data| && Holds(Number(data, 256), Number(digits, 32), buf, 0)
    ensures Spell(digits) == Encoded(data)
  {
    hide Digits, Number, Spell, P, TextLength, PadBits, Encoded, Holds, Zeros;
    Groups(|data|, |digits|, 0);
    NothingKept(Number(data, 256), Number(digits, 32), buf);
    DigitsOfNumber(digits, 32);
    EncodedIs(data, digits);
  }

  lemma NothingKept(read: nat, written: nat, buf: nat)
    requires Holds(read, written, buf, 0)
    ensures Zeros(read, 0) == read == written
  {
    assert P(0) == 1;
    hide P;
  }

  lemma EncodedIs(data: seq<Byte>, digits: seq<nat>)
    requires AreDigits(digits, 32)
    requires Digits(Zeros(Number(data, 256), PadBits(|data|)), TextLength(|data|), 32) == digits
    ensures Encoded(data) == Spell(digits)
  {
  }

  lemma LastOut(data: seq<Byte>, digits: seq<nat>, buf: nat, bits: nat, index: nat)
    requires AreDigits(digits, 32) && 0 < bits < 5 && 5 * |digits| + bits == 8 * |data|
    requires Holds(Number(data, 256), Number(digits, 32), buf, bits) && index == buf * P(5 - bits) % U32 % 32
    ensures Spell(digits + [index]) == Encoded(data)
  {
    hide Digits, Number, Spell, P, Holds, TextLength, PadBits, Encoded, Zeros;
    LastGroup(buf, bits);
    Padded(Number(data, 256), Number(digits, 32), buf, bits);
    NumberPush(digits, index, 32);
    Groups(|data|, |digits| + 1, 5 - bits);
    DigitsOfNumber(digits + [index], 32);
    EncodedIs(data, digits + [index]);
  }

  lemma Groups(octets: nat, groups: nat, pad: nat)
    requires pad < 5 && 5 * groups == 8 * octets + pad
    ensures TextLength(octets) == groups && PadBits(octets) == pad
  {
  }

  method Encode(data: seq<Byte>) returns (out: string)
    ensures out == Encoded(data)
  {
    hide P, Number, Spell, Letter, Holds, Encoded;
    out := "";
    var buf: nat, bits: nat := 0, 0;
    ghost var digits: seq<nat> := [];
    NothingHeld();
    NothingYet(32);
    NothingYet(256);
    NoText();
    assert data[..0] == [];
    for k := 0 to |data|
      invariant buf < U32 && bits < 5 && 5 * |digits| + bits == 8 * k
      invariant AreDigits(digits, 32) && out == Spell(digits)
      invariant Holds(Number(data[..k], 256), Number(digits, 32), buf, bits)
    {
      ByteIn(data, k, Number(digits, 32), buf, bits);
      buf := buf * 256 % U32 + data[k];
      bits := bits + 8;
      while bits >= 5
        invariant buf < U32 && bits <= 12 && 5 * |digits| + bits == 8 * (k + 1)
        invariant AreDigits(digits, 32) && out == Spell(digits)
        invariant Holds(Number(data[..k + 1], 256), Number(digits, 32), buf, bits)
      {
        GroupOut(Number(data[..k + 1], 256), digits, buf, bits, 32);
        bits := bits - 5;
        var index := buf / P(bits) % 32;
        SpellPush(digits, index);
        digits := digits + [index];
        out := out + [Letter(index)];
      }
    }
    assert data[..|data|] == data;
    if bits > 0 {
      var index := buf * P(5 - bits) % U32 % 32;
      LastOut(data, digits, buf, bits, index);
      SpellPush(digits, index);
      out := out + [Letter(index)];
    } else {
      NoneLeft(data, digits, buf);
    }
  }

  lemma LastGroup(buf: nat, bits: nat)
    requires 0 < bits < 5
    ensures buf * P(5 - bits) % U32 % 32 == buf % P(bits) * P(5 - bits) < 32
  {
    var p, b := P(bits), P(5 - bits);
    assert p * b == 32;
    hide P;
    LowBits(buf, p, 0, b, U32 / 32);
  }

  lemma Padded(read: nat, written: nat, buf: nat, bits: nat)
    requires 0 < bits < 5 && Holds(read, written, buf, bits)
    ensures Zeros(read, 5 - bits) == written * 32 + buf % P(bits) * P(5 - bits)
  {
    ZerosAre(read, 5 - bits);
    var p, b := P(bits), P(5 - bits);
    assert p * b == 32;
    hide P, Zeros;
    Distribute(written, p, buf % p, b);
  }

  lemma CharIn(text: string, k: nat, values: seq<nat>, written: nat, buf: nat, bits: nat)
    requires k < |text| && bits < 8 && buf < U32 && Values(text[..k]) == Fine(values) && ValueOf(text[k]).Some?
    requires Holds(Number(values, 32), written, buf, bits)
    ensures var value := ValueOf(text[k]).value;
            && Values(text[..k + 1]) == Fine(values + [value])
            && Holds(Number(values + [value], 32), written, buf * 32 % U32 + value, bits + 5)
            && buf * 32 % U32 + value < U32
  {
    hide ValueOf;
    assert text[..k + 1][..k] == text[..k];
    NumberPush(values, ValueOf(text[k]).value, 32);
    ShiftIn(Number(values, 32), written, buf, bits, ValueOf(text[k]).value, 32);
    hide Holds;
  }

  /** With every character in, the octets out are the whole ones of the number. */
  lemma AllRead(text: string, values: seq<nat>, out: seq<nat>, buf: nat, bits: nat)
    requires Values(text) == Fine(values) && AreDigits(out, 256) && bits < 8 && 8 * |out| + bits == 5 * |text|
    requires Holds(Number(values, 32), Number(out, 256), buf, bits)
    ensures Decoded(text) == Fine(out)
  {
    DigitsOfNumber(out, 256);
    WholeIs(Number(values, 32), Number(out, 256), buf, bits);
    WholeOctets(|text|, |out|, bits);
    hide Holds, P, Digits, Number, Values;
  }

  lemma WholeOctets(chars: nat, octets: nat, bits: nat)
    requires bits < 8 && 8 * octets + bits == 5 * chars
    ensures 5 * chars % 8 == bits && 5 * chars / 8 == octets
  {
  }

  lemma WholeIs(read: nat, written: nat, buf: nat, bits: nat)
    requires bits < 8 && Holds(read, written, buf, bits)
    ensures read / P(bits) == written
  {
  }

  method Decode(text: string) returns (r: Outcome<seq<nat>, char>)
    ensures r == Decoded(text)
    ensures r.Fine? ==> AreDigits(r.value, 256)
  {
    hide P, Number, Values, ValueOf, Holds;
    var out: seq<nat> := [];
    var buf: nat, bits: nat := 0, 0;
    ghost var values: seq<nat> := [];
    NothingHeld();
    NothingYet(32);
    NothingYet(256);
    NoText();
    assert text[..0] == [];
    for k := 0 to |text|
      invariant buf < U32 && bits < 8 && 8 * |out| + bits == 5 * k
      invariant Values(text[..k]) == Fine(values) && AreDigits(out, 256)
      invariant Holds(Number(values, 32), Number(out, 256), buf, bits)
    {
      var value := ValueOf(text[k]);
      if value.None? {
        FirstBadStands(text, k);
        return Bad(text[k]);
      }
      CharIn(text, k, values, Number(out, 256), buf, bits);
      values := values + [value.value];
      buf := buf * 32 % U32 + value.value;
      bits := bits + 5;
      if bits >= 8 {
        GroupOut(Number(values, 32), out, buf, bits, 256);
        bits := bits - 8;
        out := out + [buf / P(bits) % 256];
      }
    }
    assert text[..|text|] == text;
    AllRead(text, values, out, buf, bits);
    return Fine(out);
  }

  lemma {:induction false} FirstBadStands(text: string, k: nat)
    requires k < |text| && Values(text[..k]).Fine? && ValueOf(text[k]).None?
    ensures Values(text) == Bad(text[k])
  {
    var so := text[..|text| - 1];
    if k < |so| {
      assert so[..k] == text[..k];
      FirstBadStands(so, k);
    }
  }
}
