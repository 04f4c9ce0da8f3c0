/** The random numbers of the game logic: a counter mixed by SplitMix64's finalizer, so that numbers do not repeat. */
module Random {
  import opened Bits
  import opened Quads

  const WRAP := 0x1_0000_0000_0000_0000

  type Word = n: nat | n < WRAP

  lemma SixtyFourBits()
    ensures Pow2(64) == WRAP
  {
    assert Pow2(8) == 256;
    PowerOfSum(8, 8);
    PowerOfSum(16, 16);
    PowerOfSum(32, 32);
  }

  /** The bits exclusive-or'ed with themselves shifted right. */
  function Mixed(bits: seq<bool>, distance: nat): (out: seq<bool>)
    ensures |out| == |bits|
  {
    seq(|bits|, i requires 0 <= i < |bits| => bits[i] != (i >= distance && bits[i - distance]))
  }

  /** Exclusive or with the bits shifted once and twice as far. */
  function Unmixed(bits: seq<bool>, distance: nat): (out: seq<bool>)
    ensures |out| == |bits|
  {
    seq(|bits|, i requires 0 <= i < |bits| =>
        (bits[i] != (i >= distance && bits[i - distance])) != (i >= 2 * distance && bits[i - 2 * distance]))
  }

  lemma MixedUndone(bits: seq<bool>, distance: nat)
    requires 3 * distance >= |bits| > distance
    ensures Unmixed(Mixed(bits, distance), distance) == bits && Mixed(Unmixed(bits, distance), distance) == bits
  {
  }

  /** x ^ (x >> distance) */
  function Shift(x: Word, distance: nat): Word {
    SixtyFourBits();
    BitsOfNumber(Mixed(BitsOf(x, 64), distance));
    NumberOf(Mixed(BitsOf(x, 64), distance))
  }

  function Unshift(x: Word, distance: nat): Word {
    SixtyFourBits();
    BitsOfNumber(Unmixed(BitsOf(x, 64), distance));
    NumberOf(Unmixed(BitsOf(x, 64), distance))
  }

  lemma ShiftUndone(x: Word, distance: nat)
    requires 22 <= distance < 64
    ensures Unshift(Shift(x, distance), distance) == x && Shift(Unshift(x, distance), distance) == x
  {
    hide BitsOf, NumberOf, Mixed, Unmixed;
    SixtyFourBits();
    var bits := BitsOf(x, 64);
    BitsOfNumber(Mixed(bits, distance));
    BitsOfNumber(Unmixed(bits, distance));
    MixedUndone(bits, distance);
    NumberOfBits(x, 64);
  }

  const FACTOR1 := 0xBF58476D1CE4E5B9
  const FACTOR2 := 0x94D049BB133111EB
  const INVERSE1 := 0x96DE1B173F119089
  const INVERSE2 := 0x319642B2D24D8EC3
  const STEP := 0x9E3779B97F4A7C15

  function Times(x: Word, factor: nat): Word {
    x * factor % WRAP
  }

  lemma Residue(x: Word, y: int, q: int)
    requires y == x + WRAP * q
    ensures y % WRAP == x
  {
  }

  lemma TimesUndone(x: Word)
    ensures Times(Times(x, FACTOR1), INVERSE1) == x && Times(Times(x, INVERSE1), FACTOR1) == x
    ensures Times(Times(x, FACTOR2), INVERSE2) == x && Times(Times(x, INVERSE2), FACTOR2) == x
  {
    Residue(x, Times(x, FACTOR1) * INVERSE1, 8125545580553827436 * x - x * FACTOR1 / WRAP * INVERSE1);
    Residue(x, Times(x, INVERSE1) * FACTOR1, 8125545580553827436 * x - x * INVERSE1 / WRAP * FACTOR1);
    Residue(x, Times(x, FACTOR2) * INVERSE2, 2077064247507883091 * x - x * FACTOR2 / WRAP * INVERSE2);
    Residue(x, Times(x, INVERSE2) * FACTOR2, 2077064247507883091 * x - x * INVERSE2 / WRAP * FACTOR2);
  }

  function Mix(seed: Word): Word {
    var a := (seed + STEP) % WRAP;
    var b := Times(Shift(a, 30), FACTOR1);
    var c := Times(Shift(b, 27), FACTOR2);
    Shift(c, 31)
  }

  /** The last 4 - `r` bits of one digit and the first `r` of the next. */
  function Straddling(p: Quad, q: Quad, r: nat): Quad {
    if r == 1 then Quad(p.b, p.c, p.d, q.a) else Quad(p.c, p.d, q.a, q.b)
  }

  function QuadBefore(w: seq<Quad>, k: int): Quad {
    if 0 <= k < |w| then w[k] else x0
  }

  /** A word in digits exclusive-or'ed with itself shifted right by 4 * `n` - `r` bits. */
  function MixedQuads(w: seq<Quad>, n: nat, r: nat): (out: seq<Quad>)
    ensures |out| == |w|
  {
    seq(|w|, k requires 0 <= k < |w| => QuadXor(w[k], Straddling(QuadBefore(w, k - n), QuadBefore(w, k - n + 1), r)))
  }

  lemma MixedSpread(w: seq<Quad>, n: nat, r: nat)
    requires 1 <= r <= 2 && 0 < n
    ensures Mixed(Spread(w), 4 * n - r) == Spread(MixedQuads(w, n, r))
  {
    hide Mixed, MixedQuads, BitOf;
    forall i | 0 <= i < 4 * |w| ensures Mixed(Spread(w), 4 * n - r)[i] == Spread(MixedQuads(w, n, r))[i] {
      MixedSpreadAt(w, n, r, i / 4, i % 4);
      assert i == 4 * (i / 4) + i % 4;
    }
  }

  lemma MixedSpreadAt(w: seq<Quad>, n: nat, r: nat, k: nat, j: nat)
    requires 1 <= r <= 2 && 0 < n && k < |w| && j < 4
    ensures Mixed(Spread(w), 4 * n - r)[4 * k + j] == BitOf(MixedQuads(w, n, r)[k], j)
  {
    hide BitOf;
    var i := 4 * k + j - (4 * n - r);
    assert (4 * k + j) / 4 == k && (4 * k + j) % 4 == j;
    if 0 <= i {
      if j + r < 4 {
        assert i == 4 * (k - n) + (j + r) && i / 4 == k - n && i % 4 == j + r;
      } else {
        assert i == 4 * (k - n + 1) + (j + r - 4) && i / 4 == k - n + 1 && i % 4 == j + r - 4;
      }
    }
    StraddlingBit(QuadBefore(w, k - n), QuadBefore(w, k - n + 1), r, j);
    XorBit(w[k], Straddling(QuadBefore(w, k - n), QuadBefore(w, k - n + 1), r), j);
  }

  lemma StraddlingBit(p: Quad, q: Quad, r: nat, j: nat)
    requires 1 <= r <= 2 && j < 4
    ensures BitOf(Straddling(p, q, r), j) == if j + r < 4 then BitOf(p, j + r) else BitOf(q, j + r - 4)
    ensures !BitOf(x0, j) && (j + r < 4 ==> !BitOf(x0, j + r)) && (j + r >= 4 ==> !BitOf(x0, j + r - 4))
  {
  }

  lemma XorBit(p: Quad, q: Quad, j: nat)
    requires j < 4
    ensures BitOf(QuadXor(p, q), j) == (BitOf(p, j) != BitOf(q, j))
  {
  }

  /** A shift worked out in digits. */
  lemma ShiftIs(w: seq<Quad>, out: seq<Quad>, n: nat, r: nat)
    requires |w| == |out| == 16 && 1 <= r <= 2 && 6 <= n <= 16 && MixedQuads(w, n, r) == out
    ensures Value(w, 16) < WRAP && Shift(Value(w, 16), 4 * n - r) == Value(out, 16)
  {
    hide NumberOf, BitsOf, Mixed, Value, MixedQuads, Spread;
    SixtyFourBits();
    SpreadIsValue(w, 16);
    SpreadIsValue(out, 16);
    assert Spread(w)[..64] == Spread(w) && Spread(out)[..64] == Spread(out);
    BitsOfNumber(Spread(w));
    MixedSpread(w, n, r);
  }

  lemma FirstShiftOf0()
    ensures Shift(0x9e3779b97f4a7c15, 30) == 0x9e3779bb07979af0
  {
    hide Shift, Value, DigitOf, QuadOf;
    DigitsAre();
    var a, b, c, d := [x9, xE, x3, x7], [x7, x9, xB, x9], [x7, xF, x4, xA], [x7, xC, x1, x5];
    var e, f, g, h := [x9, xE, x3, x7], [x7, x9, xB, xB], [x0, x7, x9, x7], [x9, xA, xF, x0];
    Sixteen(a, b, c, d);
    Sixteen(e, f, g, h);
    ShiftIs(a + b + c + d, e + f + g + h, 8, 2);
  }

  lemma SecondShiftOf0()
    ensures Shift(0x6f68261b57e7a770, 27) == 0x6f682616bae3641a
  {
    hide Shift, Value, DigitOf, QuadOf;
    DigitsAre();
    var a, b, c, d := [x6, xF, x6, x8], [x2, x6, x1, xB], [x5, x7, xE, x7], [xA, x7, x7, x0];
    var e, f, g, h := [x6, xF, x6, x8], [x2, x6, x1, x6], [xB, xA, xE, x3], [x6, x4, x1, xA];
    Sixteen(a, b, c, d);
    Sixteen(e, f, g, h);
    ShiftIs(a + b + c + d, e + f + g + h, 7, 1);
  }

  lemma ThirdShiftOf0()
    ensures Shift(0xe220a838bf5c9dde, 31) == 0xe220a8397b1dcdaf
  {
    hide Shift, Value, DigitOf, QuadOf;
    DigitsAre();
    var a, b, c, d := [xE, x2, x2, x0], [xA, x8, x3, x8], [xB, xF, x5, xC], [x9, xD, xD, xE];
    var e, f, g, h := [xE, x2, x2, x0], [xA, x8, x3, x9], [x7, xB, x1, xD], [xC, xD, xA, xF];
    Sixteen(a, b, c, d);
    Sixteen(e, f, g, h);
    ShiftIs(a + b + c + d, e + f + g + h, 8, 1);
  }

  lemma FirstShiftOf1()
    ensures Shift(0x9e3779b97f4a7c16, 30) == 0x9e3779bb07979af3
  {
    hide Shift, Value, DigitOf, QuadOf;
    DigitsAre();
    var a, b, c, d := [x9, xE, x3, x7], [x7, x9, xB, x9], [x7, xF, x4, xA], [x7, xC, x1, x6];
    var e, f, g, h := [x9, xE, x3, x7], [x7, x9, xB, xB], [x0, x7, x9, x7], [x9, xA, xF, x3];
    Sixteen(a, b, c, d);
    Sixteen(e, f, g, h);
    ShiftIs(a + b + c + d, e + f + g + h, 8, 2);
  }

  lemma SecondShiftOf1()
    ensures Shift(0xad70fc62ae96589b, 27) == 0xad70fc770089d4ce
  {
    hide Shift, Value, DigitOf, QuadOf;
    DigitsAre();
    var a, b, c, d := [xA, xD, x7, x0], [xF, xC, x6, x2], [xA, xE, x9, x6], [x5, x8, x9, xB];
    var e, f, g, h := [xA, xD, x7, x0], [xF, xC, x7, x7], [x0, x0, x8, x9], [xD, x4, xC, xE];
    Sixteen(a, b, c, d);
    Sixteen(e, f, g, h);
    ShiftIs(a + b + c + d, e + f + g + h, 7, 1);
  }

  lemma ThirdShiftOf1()
    ensures Shift(0x910a2dedab16071a, 31) == 0x910a2dec89025cc1
  {
    hide Shift, Value, DigitOf, QuadOf;
    DigitsAre();
    var a, b, c, d := [x9, x1, x0, xA], [x2, xD, xE, xD], [xA, xB, x1, x6], [x0, x7, x1, xA];
    var e, f, g, h := [x9, x1, x0, xA], [x2, xD, xE, xC], [x8, x9, x0, x2], [x5, xC, xC, x1];
    Sixteen(a, b, c, d);
    Sixteen(e, f, g, h);
    ShiftIs(a + b + c + d, e + f + g + h, 8, 1);
  }

  lemma Products()
    ensures Times(0x9e3779bb07979af0, FACTOR1) == 0x6f68261b57e7a770
            && Times(0x6f682616bae3641a, FACTOR2) == 0xe220a838bf5c9dde
    ensures Times(0x9e3779bb07979af3, FACTOR1) == 0xad70fc62ae96589b
            && Times(0xad70fc770089d4ce, FACTOR2) == 0x910a2dedab16071a
  {
  }

  /** The first two numbers published for SplitMix64's sequence from zero. */
  lemma PublishedNumbers()
    ensures Mix(0) == 0xE220A8397B1DCDAF && Mix(1) == 0x910A2DEC89025CC1
  {
    hide Shift, Times;
    Products();
    FirstShiftOf0();
    SecondShiftOf0();
    ThirdShiftOf0();
    FirstShiftOf1();
    SecondShiftOf1();
    ThirdShiftOf1();
  }

  /** Each step taken back: the shifts by repeating them, the products by the inverse of an odd number. */
  function Unmix(mixed: Word): Word {
    var c := Unshift(mixed, 31);
    var b := Unshift(Times(c, INVERSE2), 27);
    var a := Unshift(Times(b, INVERSE1), 30);
    (a + WRAP - STEP) % WRAP
  }

  /** Mix is a bijection on sixty-four bits. */
  lemma MixIsBijection(x: Word)
    ensures Unmix(Mix(x)) == x && Mix(Unmix(x)) == x
  {
    hide Shift, Unshift, Times;
    var a := (x + STEP) % WRAP;
    var b := Times(Shift(a, 30), FACTOR1);
    var c := Times(Shift(b, 27), FACTOR2);
    ShiftUndone(a, 30);
    TimesUndone(Shift(a, 30));
    ShiftUndone(b, 27);
    TimesUndone(Shift(b, 27));
    ShiftUndone(c, 31);
    var p := Unshift(x, 31);
    var q := Unshift(Times(p, INVERSE2), 27);
    ShiftUndone(x, 31);
    TimesUndone(p);
    ShiftUndone(Times(p, INVERSE2), 27);
    TimesUndone(q);
    ShiftUndone(Times(q, INVERSE1), 30);
  }

  // ---- The counter ----------------------------------------------------------------------------------------------

  /** The counter after a number of calls. */
  function After(counter: Word, calls: nat): Word {
    (counter + calls) % WRAP
  }

  lemma AfterOneMore(counter: Word, calls: nat)
    ensures After(After(counter, 1), calls) == After(counter, calls + 1)
    ensures After(After(counter, calls), 1) == After(counter, calls + 1) && After(counter, 0) == counter
  {
    WrapsOnce(counter + 1, calls);
    WrapsOnce(counter + calls, 1);
  }

  lemma WrapsOnce(n: nat, more: nat)
    ensures (n % WRAP + more) % WRAP == (n + more) % WRAP
  {
  }

  /** The numbers successive calls return. */
  function Outputs(counter: Word, calls: nat): (out: seq<Word>)
    ensures |out| == calls
    decreases calls
  {
    if calls == 0 then [] else [Mix(counter)] + Outputs(After(counter, 1), calls - 1)
  }

  lemma {:induction false} OutputsGrow(counter: Word, calls: nat)
    ensures Outputs(counter, calls + 1) == Outputs(counter, calls) + [Mix(After(counter, calls))]
    decreases calls
  {
    hide Mix, After;
    var next := After(counter, 1);
    if calls > 0 {
      AfterOneMore(counter, calls - 1);
      OutputsGrow(next, calls - 1);
      assert Outputs(counter, calls + 1) == [Mix(counter)] + Outputs(next, calls);
    } else {
      AfterOneMore(counter, 0);
      assert Outputs(next, 0) == [];
    }
  }

  lemma {:induction false} OutputAt(counter: Word, calls: nat, i: nat)
    requires i < calls
    ensures Outputs(counter, calls)[i] == Mix(After(counter, i))
    decreases i
  {
    hide Mix, After;
    AfterOneMore(counter, if i > 0 then i - 1 else 0);
    if i > 0 {
      OutputAt(After(counter, 1), calls - 1, i - 1);
    }
  }

  /** The numbers of a run are pairwise distinct exactly when the run is no longer than the counter's period. */
  lemma OutputsDistinctIffWithinPeriod(counter: Word, calls: nat)
    ensures calls <= WRAP
       <==> forall i, j | 0 <= i < j < calls :: Outputs(counter, calls)[i] != Outputs(counter, calls)[j]
  {
    hide Mix, Unmix, Outputs;
    if calls <= WRAP {
      forall i, j | 0 <= i < j < calls ensures Outputs(counter, calls)[i] != Outputs(counter, calls)[j] {
        OutputAt(counter, calls, i);
        OutputAt(counter, calls, j);
        MixIsBijection(After(counter, i));
        MixIsBijection(After(counter, j));
      }
    } else {
      OutputAt(counter, calls, 0);
      OutputAt(counter, calls, WRAP);
      assert Outputs(counter, calls)[0] == Outputs(counter, calls)[WRAP];
    }
  }

  class Generator {
    var counter: Word
    /** Everything drawn so far. */
    ghost var drawn: seq<Word>

    /** The numbers drawn are the generator's one sequence from zero. */
    ghost predicate Valid()
      reads this
    {
      counter == After(0, |drawn|) && drawn == Outputs(0, |drawn|)
    }

    constructor ()
      ensures Valid() && drawn == []
    {
      counter, drawn := 0, [];
    }

    method Next() returns (r: Word)
      requires Valid()
      modifies this
      ensures Valid() && drawn == old(drawn) + [r]
      ensures r == Mix(old(counter)) && counter == After(old(counter), 1)
    {
      hide Mix, Outputs, After;
      r := Mix(counter);
      OutputsGrow(0, |drawn|);
      AfterOneMore(0, |drawn|);
      counter, drawn := After(counter, 1), drawn + [r];
    }

    /** A roll below the bound, from the next number; an empty range draws nothing. */
    method Below(bound: nat) returns (r: nat)
      requires Valid()
      modifies this
      ensures Valid() && (bound == 0 ==> r == 0 && drawn == old(drawn))
      ensures bound > 0 ==> r < bound && |drawn| == |old(drawn)| + 1 && drawn[..|old(drawn)|] == old(drawn)
                            && r == drawn[|old(drawn)|] % bound
    {
      if bound == 0 {
        return 0;
      }
      var n := Next();
      r := n % bound;
    }
  }
}
