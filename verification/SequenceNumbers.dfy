/** The wrapping 32-bit sequence numbers of the datagram streams (cf. section 3.2 of RFC 1982). */
module SequenceNumbers {
  import opened Basics

  const MODULUS := 0x1_0000_0000
  const HALF := 0x8000_0000

  type Seq32 = n: int | 0 <= n < MODULUS

  /** Wrapping comparison; equal is not newer. */
  predicate IsNewer(number: Seq32, last: Seq32) {
    number != last && (number - last) % MODULUS < HALF
  }

  /** The number the `k`-th frame of a stream carries. */
  function Wire(k: nat): Seq32 {
    k % MODULUS
  }

  /**
   For two frames less than a full cycle apart, the wrapping comparison agrees with the true
   order exactly when they are within half a cycle of each other.
   */
  lemma NewerAgreesWithinHalfCycle(k: nat, h: nat)
    requires Abs(k - h) < MODULUS
    ensures (IsNewer(Wire(k), Wire(h)) <==> k > h) <==> -HALF <= k - h < HALF
  {
    var d := k - h;
    assert (Wire(k) - Wire(h)) % MODULUS == d % MODULUS;
    if d >= 0 {
      assert d % MODULUS == d;
    } else {
      assert d % MODULUS == d + MODULUS;
    }
  }

  /** What the 32-bit receiver decides about each arriving frame number. */
  function Verdicts(last: Seq32, arrivals: seq<nat>): (v: seq<bool>)
    ensures |v| == |arrivals|
    decreases |arrivals|
  {
    if arrivals == [] then []
    else
      var ok := IsNewer(Wire(arrivals[0]), last);
      [ok] + Verdicts(if ok then Wire(arrivals[0]) else last, arrivals[1..])
  }

  /** Every arrival lies within half a cycle of the highest frame seen before it. */
  predicate InWindow(high: nat, arrivals: seq<nat>)
    decreases |arrivals|
  {
    arrivals == [] ||
    (-HALF <= arrivals[0] - high < HALF && InWindow(Max(high, arrivals[0]), arrivals[1..]))
  }

  /** A frame later than every frame before it: what an unbounded counter would accept. */
  predicate IsRecord(high: nat, arrivals: seq<nat>, i: nat)
    requires i < |arrivals|
  {
    arrivals[i] > high && forall j | 0 <= j < i :: arrivals[j] < arrivals[i]
  }

  /**
   Under any loss, duplication and reordering inside the window, and across any number of
   wraps, the receiver accepts exactly the left-to-right maxima of the unbounded numbering.
   */
  lemma {:induction false} VerdictsAreRecords(high: nat, arrivals: seq<nat>)
    requires InWindow(high, arrivals)
    ensures forall i: nat | i < |arrivals| ::
              Verdicts(Wire(high), arrivals)[i] <==> IsRecord(high, arrivals, i)
    decreases |arrivals|
  {
    if arrivals != [] {
      var first, rest := arrivals[0], arrivals[1..];
      NewerAgreesWithinHalfCycle(first, high);
      var top := Max(high, first);
      VerdictsAreRecords(top, rest);
      forall i: nat | i < |arrivals|
        ensures Verdicts(Wire(high), arrivals)[i] <==> IsRecord(high, arrivals, i)
      {
        if i > 0 {
          assert Verdicts(Wire(high), arrivals)[i] == Verdicts(Wire(top), rest)[i - 1];
          assert IsRecord(top, rest, i - 1) <==> IsRecord(high, arrivals, i) by {
            assert rest[i - 1] == arrivals[i];
            assert forall j | 1 <= j < i :: arrivals[j] == rest[j - 1];
          }
        }
      }
    }
  }

  /** A stream shorter than half a cycle never leaves the window, whatever the network does to it. */
  lemma {:induction false} ShortStreamsStayInWindow(high: nat, arrivals: seq<nat>)
    requires high < HALF && forall k <- arrivals :: k < HALF
    ensures InWindow(high, arrivals)
    decreases |arrivals|
  {
    if arrivals != [] {
      assert arrivals[0] in arrivals && forall k <- arrivals[1..] :: k in arrivals;
      ShortStreamsStayInWindow(Max(high, arrivals[0]), arrivals[1..]);
    }
  }

  predicate StrictlyIncreasing(s: seq<nat>) {
    forall i, j | 0 <= i < j < |s| :: s[i] < s[j]
  }

  lemma IncreasingFrom(first: nat, rest: seq<nat>)
    requires StrictlyIncreasing(rest) && forall k <- rest :: first < k
    ensures StrictlyIncreasing([first] + rest)
  {
    assert forall i | 0 <= i < |rest| :: rest[i] in rest;
  }

  /** The next number on the wire. */
  lemma WireNext(k: nat)
    ensures (Wire(k) + 1) % MODULUS == Wire(k + 1)
  {
  }
}
