/** Small value types every component of the model shares. */
module Common {

  datatype Option<+T> = None | Some(value: T)

  /** One octet, read as a number. */
  type Byte = n: nat | n < 256

  /** One 16 bit group: a port, or a group of an IPv6 address. */
  type Word = n: nat | n < 0x1_0000

  function Min(a: int, b: int): int {
    if a <= b then a else b
  }

  function Max(a: int, b: int): int {
    if a <= b then b else a
  }

  /** Elapsed time as `Instant::duration_since` reports it: zero, never negative. */
  function Since(now: int, earlier: int): nat {
    if earlier <= now then now - earlier else 0
  }

  /** A 16 bit group, high octet first. */
  function WordBytes(w: Word): (r: seq<Byte>)
    ensures |r| == 2
  {
    [w / 256, w % 256]
  }

  /** One more sample of a round trip: the first seeds the estimate, a later one weighs an eighth. */
  function Smoothed(srtt: Option<nat>, sample: nat): nat {
    if srtt.None? then sample else (srtt.value * 7 + sample) / 8
  }

  /** The estimate moves by an eighth of the way to a sample, rounded down to a whole nanosecond. */
  lemma SmoothedMovesAnEighth(srtt: nat, sample: nat)
    ensures var r := Smoothed(Some(srtt), sample); 8 * r <= 7 * srtt + sample < 8 * r + 8
    ensures Smoothed(None, sample) == sample
  {
  }

  function Estimate(samples: seq<nat>): Option<nat> {
    if samples == [] then None else Some(Smoothed(Estimate(samples[..|samples| - 1]), samples[|samples| - 1]))
  }

  /** Whatever the samples, the estimate never leaves their range. */
  lemma {:induction false} EstimateStaysInRange(samples: seq<nat>, least: nat, most: nat)
    requires samples != [] && forall k :: 0 <= k < |samples| ==> least <= samples[k] <= most
    ensures least <= Estimate(samples).value <= most
  {
    if |samples| > 1 {
      EstimateStaysInRange(samples[..|samples| - 1], least, most);
    } else {
      assert Estimate(samples[..0]) == None;
    }
  }
}
