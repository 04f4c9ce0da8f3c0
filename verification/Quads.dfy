/** Groups of four bits, written as hexadecimal digits: concrete values that are bits and nothing else. */
module Quads {
  import opened Bits

  datatype Quad = Quad(a: bool, b: bool, c: bool, d: bool)

  const x0 := Quad(false, false, false, false)
  const x1 := Quad(false, false, false, true)
  const x2 := Quad(false, false, true, false)
  const x3 := Quad(false, false, true, true)
  const x4 := Quad(false, true, false, false)
  const x5 := Quad(false, true, false, true)
  const x6 := Quad(false, true, true, false)
  const x7 := Quad(false, true, true, true)
  const x8 := Quad(true, false, false, false)
  const x9 := Quad(true, false, false, true)
  const xA := Quad(true, false, true, false)
  const xB := Quad(true, false, true, true)
  const xC := Quad(true, true, false, false)
  const xD := Quad(true, true, false, true)
  const xE := Quad(true, true, true, false)
  const xF := Quad(true, true, true, true)

  function QuadXor(p: Quad, q: Quad): Quad {
    Quad(p.a != q.a, p.b != q.b, p.c != q.c, p.d != q.d)
  }

  function BitOf(q: Quad, j: nat): bool {
    if j == 0 then q.a else if j == 1 then q.b else if j == 2 then q.c else q.d
  }

  function QuadOf(v: nat): Quad {
    Quad(v / 8 % 2 == 1, v / 4 % 2 == 1, v / 2 % 2 == 1, v % 2 == 1)
  }

  function DigitOf(q: Quad): (v: nat)
    ensures v < 16 && QuadOf(v) == q
  {
    8 * Bit(q.a) + 4 * Bit(q.b) + 2 * Bit(q.c) + Bit(q.d)
  }

  // ---- Digits side by side ----------------------------------------------------------------------------------------

  /** The bits of all digits, most significant first. */
  function Spread(w: seq<Quad>): (bits: seq<bool>)
    ensures |bits| == 4 * |w|
  {
    seq(4 * |w|, i requires 0 <= i < 4 * |w| => BitOf(w[i / 4], i % 4))
  }

  /** The number the first `k` digits make. */
  function Value(w: seq<Quad>, k: nat): nat
    requires k <= |w|
  {
    if k == 0 then 0 else 16 * Value(w, k - 1) + DigitOf(w[k - 1])
  }

  lemma NumberOfFour(bits: seq<bool>, q: Quad)
    ensures NumberOf(bits + [q.a, q.b, q.c, q.d]) == 16 * NumberOf(bits) + DigitOf(q)
  {
    hide NumberOf;
    NumberOfAppended(bits, q.a);
    NumberOfAppended(bits + [q.a], q.b);
    NumberOfAppended(bits + [q.a] + [q.b], q.c);
    NumberOfAppended(bits + [q.a] + [q.b] + [q.c], q.d);
    assert bits + [q.a, q.b, q.c, q.d] == bits + [q.a] + [q.b] + [q.c] + [q.d];
  }

  lemma {:induction false} SpreadIsValue(w: seq<Quad>, k: nat)
    requires k <= |w|
    ensures NumberOf(Spread(w)[..4 * k]) == Value(w, k)
  {
    hide NumberOf;
    if k > 0 {
      var q := w[k - 1];
      SpreadIsValue(w, k - 1);
      LastFour(w, k);
      NumberOfFour(Spread(w)[..4 * (k - 1)], q);
    } else {
      NumberOfNone();
      assert Spread(w)[..0] == [];
    }
  }

  lemma LastFour(w: seq<Quad>, k: nat)
    requires 0 < k <= |w|
    ensures var q := w[k - 1]; Spread(w)[..4 * k] == Spread(w)[..4 * (k - 1)] + [q.a, q.b, q.c, q.d]
  {
    var q := w[k - 1];
    forall j | 0 <= j < 4 ensures Spread(w)[4 * (k - 1) + j] == BitOf(q, j) {
      assert (4 * (k - 1) + j) / 4 == k - 1 && (4 * (k - 1) + j) % 4 == j;
    }
  }

  /** Four digits at once. */
  function Four(w: seq<Quad>, k: nat): nat
    requires k + 4 <= |w|
  {
    4096 * DigitOf(w[k]) + 256 * DigitOf(w[k + 1]) + 16 * DigitOf(w[k + 2]) + DigitOf(w[k + 3])
  }

  lemma FourMore(w: seq<Quad>, k: nat)
    requires k + 4 <= |w|
    ensures Value(w, k + 4) == 65536 * Value(w, k) + Four(w, k)
  {
    assert Value(w, k + 4) == 16 * Value(w, k + 3) + DigitOf(w[k + 3]);
    assert Value(w, k + 3) == 16 * Value(w, k + 2) + DigitOf(w[k + 2]);
    assert Value(w, k + 2) == 16 * Value(w, k + 1) + DigitOf(w[k + 1]);
    assert Value(w, k + 1) == 16 * Value(w, k) + DigitOf(w[k]);
  }

  lemma NoDigits(w: seq<Quad>)
    ensures Value(w, 0) == 0
  {
  }

  lemma FourOf(w: seq<Quad>, k: nat, part: seq<Quad>)
    requires k + 4 <= |w| && |part| == 4 && w[k..k + 4] == part
    ensures Four(w, k) == Four(part, 0)
  {
    hide DigitOf;
    assert w[k] == w[k..k + 4][0] && w[k + 1] == w[k..k + 4][1] && w[k + 2] == w[k..k + 4][2]
           && w[k + 3] == w[k..k + 4][3];
  }

  lemma Parts(a: seq<Quad>, b: seq<Quad>, c: seq<Quad>, d: seq<Quad>)
    requires |a| == |b| == |c| == |d| == 4
    ensures var w := a + b + c + d; w[0..4] == a && w[4..8] == b && w[8..12] == c && w[12..16] == d
  {
  }

  lemma FourFours(w: seq<Quad>)
    requires |w| == 16
    ensures Value(w, 16)
         == 0x1_0000_0000_0000 * Four(w, 0) + 0x1_0000_0000 * Four(w, 4) + 0x1_0000 * Four(w, 8) + Four(w, 12)
  {
    hide Four, Value;
    FourMore(w, 0);
    FourMore(w, 4);
    FourMore(w, 8);
    FourMore(w, 12);
    NoDigits(w);
  }

  /** Sixteen digits, four at a time. */
  lemma Sixteen(a: seq<Quad>, b: seq<Quad>, c: seq<Quad>, d: seq<Quad>)
    requires |a| == |b| == |c| == |d| == 4
    ensures Value(a + b + c + d, 16)
         == 0x1_0000_0000_0000 * Four(a, 0) + 0x1_0000_0000 * Four(b, 0) + 0x1_0000 * Four(c, 0) + Four(d, 0)
  {
    hide Four, Value;
    var w := a + b + c + d;
    Parts(a, b, c, d);
    FourOf(w, 0, a);
    FourOf(w, 4, b);
    FourOf(w, 8, c);
    FourOf(w, 12, d);
    FourFours(w);
  }

  lemma DigitsAre()
    ensures DigitOf(x0) == 0 && DigitOf(x1) == 1 && DigitOf(x2) == 2 && DigitOf(x3) == 3
    ensures DigitOf(x4) == 4 && DigitOf(x5) == 5 && DigitOf(x6) == 6 && DigitOf(x7) == 7
    ensures DigitOf(x8) == 8 && DigitOf(x9) == 9 && DigitOf(xA) == 10 && DigitOf(xB) == 11
    ensures DigitOf(xC) == 12 && DigitOf(xD) == 13 && DigitOf(xE) == 14 && DigitOf(xF) == 15
  {
  }
}
