/** Numbers and their bits, most significant first. */
module Bits {

  function Pow2(k: nat): (p: nat)
    ensures p > 0
  {
    if k == 0 then 1 else 2 * Pow2(k - 1)
  }

  lemma {:induction false} PowerOfSum(a: nat, b: nat)
    ensures Pow2(a + b) == Pow2(a) * Pow2(b)
  {
    if a > 0 {
      PowerOfSum(a - 1, b);
    }
  }

  function Bit(b: bool): (n: nat) {
    if b then 1 else 0
  }

  function BitsOf(n: nat, width: nat): (bits: seq<bool>)
    ensures |bits| == width
  {
    if width == 0 then [] else BitsOf(n / 2, width - 1) + [n % 2 == 1]
  }

  function NumberOf(bits: seq<bool>): nat {
    if bits == [] then 0 else 2 * NumberOf(bits[..|bits| - 1]) + Bit(bits[|bits| - 1])
  }

  lemma NumberOfAppended(bits: seq<bool>, b: bool)
    ensures NumberOf(bits + [b]) == 2 * NumberOf(bits) + Bit(b)
  {
    assert (bits + [b])[..|bits|] == bits;
  }

  lemma {:induction false} NumberOfBits(n: nat, width: nat)
    requires n < Pow2(width)
    ensures NumberOf(BitsOf(n, width)) == n
  {
    hide NumberOf;
    if width > 0 {
      assert Pow2(width) == 2 * Pow2(width - 1);
      NumberOfBits(n / 2, width - 1);
      NumberOfAppended(BitsOf(n / 2, width - 1), n % 2 == 1);
    } else {
      NumberOfNone();
    }
  }

  lemma NumberOfNone()
    ensures NumberOf([]) == 0 && Pow2(0) == 1
  {
  }

  lemma {:induction false} BitsOfNumber(bits: seq<bool>)
    ensures NumberOf(bits) < Pow2(|bits|) && BitsOf(NumberOf(bits), |bits|) == bits
  {
    if bits != [] {
      var front := bits[..|bits| - 1];
      BitsOfNumber(front);
      assert NumberOf(bits) / 2 == NumberOf(front);
      assert bits == front + [bits[|bits| - 1]];
    }
  }
}
