/** A string of octets or of five bit groups, read as one number with the first digit highest. */
module Numerals {

  /** The two bases a base32 codec moves between. */
  predicate IsBase(b: nat) {
    b == 32 || b == 256
  }

  predicate AreDigits(d: seq<nat>, b: nat) {
    forall k :: 0 <= k < |d| ==> d[k] < b
  }

  function Number(d: seq<nat>, b: nat): nat {
    if d == [] then 0 else Number(d[..|d| - 1], b) * b + d[|d| - 1]
  }

  /** The lowest `len` digits of n. */
  function Digits(n: nat, len: nat, b: nat): (r: seq<nat>)
    requires IsBase(b)
    ensures |r| == len && AreDigits(r, b)
    decreases len
  {
    if len == 0 then [] else Digits(n / b, len - 1, b) + [n % b]
  }

  function Two(k: nat): nat {
    if k == 0 then 1 else 2 * Two(k - 1)
  }

  /** How many bits one digit is. */
  function Width(b: nat): nat {
    if b == 32 then 5 else 8
  }

  lemma TwoUp(k: nat, b: nat)
    requires IsBase(b)
    ensures Two(k + Width(b)) == b * Two(k)
  {
    assert Two(k + 5) == 32 * Two(k) by {
      assert Two(k + 4) == 2 * Two(k + 3) && Two(k + 3) == 2 * Two(k + 2);
      assert Two(k + 2) == 2 * Two(k + 1) && Two(k + 1) == 2 * Two(k);
    }
    assert Two(k + 8) == 8 * Two(k + 5) by {
      assert Two(k + 8) == 2 * Two(k + 7) && Two(k + 7) == 2 * Two(k + 6);
    }
  }

  lemma NumberPush(d: seq<nat>, x: nat, b: nat)
    ensures Number(d + [x], b) == Number(d, b) * b + x
  {
    assert (d + [x])[..|d|] == d;
  }

  lemma {:induction false} NumberFits(d: seq<nat>, b: nat)
    requires IsBase(b) && AreDigits(d, b)
    ensures Number(d, b) < Two(Width(b) * |d|)
  {
    if d != [] {
      var n := |d| - 1;
      NumberFits(d[..n], b);
      TwoUp(Width(b) * n, b);
      assert Width(b) * |d| == Width(b) * n + Width(b);
    }
  }

  /** Writing a number down and reading it back, both ways round. */
  lemma {:induction false} DigitsOfNumber(d: seq<nat>, b: nat)
    requires IsBase(b) && AreDigits(d, b)
    ensures Digits(Number(d, b), |d|, b) == d
  {
    if d != [] {
      var so, last := d[..|d| - 1], d[|d| - 1];
      DigitsOfNumber(so, b);
      assert (Number(so, b) * b + last) / b == Number(so, b) && (Number(so, b) * b + last) % b == last;
    }
  }

  lemma {:induction false} NumberOfDigits(n: nat, len: nat, b: nat)
    requires IsBase(b) && n < Two(Width(b) * len)
    ensures Number(Digits(n, len, b), b) == n
    decreases len
  {
    if len > 0 {
      TwoUp(Width(b) * (len - 1), b);
      assert Width(b) * len == Width(b) * (len - 1) + Width(b);
      assert n / b < Two(Width(b) * (len - 1)) by { hide Two; }
      NumberOfDigits(n / b, len - 1, b);
      NumberPush(Digits(n / b, len - 1, b), n % b, b);
      assert n / b * b + n % b == n;
    }
  }
}
