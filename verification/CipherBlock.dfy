/** One block of the login server's cipher, worked out with boxes and keys that are simple enough for it: the round
    function again, written out over eight groups of four bits. */
module CipherBlock {
  import opened Bits
  import opened Quads
  import opened Cipher

  datatype Eight = Eight(q1: Quad, q2: Quad, q3: Quad, q4: Quad, q5: Quad, q6: Quad, q7: Quad, q8: Quad)

  function EightXor(e: Eight, f: Eight): Eight {
    Eight(QuadXor(e.q1, f.q1), QuadXor(e.q2, f.q2), QuadXor(e.q3, f.q3), QuadXor(e.q4, f.q4),
          QuadXor(e.q5, f.q5), QuadXor(e.q6, f.q6), QuadXor(e.q7, f.q7), QuadXor(e.q8, f.q8))
  }

  // ---- Boxes and keys that can be worked out ----------------------------------------------------------------------

  /** What a box makes of the bit before its group, the group and the bit after it: no two of the six bits play the same
      part, and odd boxes differ from even ones. */
  function Boxed(odd: bool, before: bool, own: Quad, after: bool): Quad {
    Quad(own.c != (before && own.b), (own.d != (own.a || after)) != odd, before != (own.b && own.c),
         own.a != (after && own.d))
  }

  datatype Six = Six(before: bool, own: Quad, after: bool)

  /** The key of one group in one round: no two of the seven bits that name them play the same part. */
  function GroupKey(round: Quad, group: Quad): Six {
    Six(round.a != group.b,
        Quad(round.b != (group.c && group.d), (round.c != (group.d || group.b)) != (round.a && round.d),
             round.d != group.c, (round.a != round.b) != group.d),
        round.c != (round.d && group.b))
  }

  /** Group `group`, mixed with its key and substituted. */
  function Grouped(group: Quad, before: bool, own: Quad, after: bool, round: Quad): Quad {
    var key := GroupKey(round, group);
    Boxed(group.d, before != key.before, QuadXor(own, key.own), after != key.after)
  }

  function Permuted(s: Eight): Eight {
    Eight(Quad(s.q4.d, s.q2.c, s.q5.d, s.q6.a),
          Quad(s.q8.a, s.q3.d, s.q7.d, s.q5.a),
          Quad(s.q1.a, s.q4.c, s.q6.c, s.q7.b),
          Quad(s.q2.a, s.q5.b, s.q8.c, s.q3.b),
          Quad(s.q1.b, s.q2.d, s.q6.d, s.q4.b),
          Quad(s.q8.d, s.q7.c, s.q1.c, s.q3.a),
          Quad(s.q5.c, s.q4.a, s.q8.b, s.q2.b),
          Quad(s.q6.b, s.q3.c, s.q1.d, s.q7.a))
  }

  /** The groups overlap by a bit on either side and wrap around. */
  function Substituted(e: Eight, round: Quad): Eight {
    Eight(Grouped(x0, e.q8.d, e.q1, e.q2.a, round), Grouped(x1, e.q1.d, e.q2, e.q3.a, round),
          Grouped(x2, e.q2.d, e.q3, e.q4.a, round), Grouped(x3, e.q3.d, e.q4, e.q5.a, round),
          Grouped(x4, e.q4.d, e.q5, e.q6.a, round), Grouped(x5, e.q5.d, e.q6, e.q7.a, round),
          Grouped(x6, e.q6.d, e.q7, e.q8.a, round), Grouped(x7, e.q7.d, e.q8, e.q1.a, round))
  }

  function RoundOf(e: Eight, round: Quad): Eight {
    Permuted(Substituted(e, round))
  }

  // ---- The same as the cipher's round function --------------------------------------------------------------------

  function QuadAt(e: Eight, g: nat): Quad {
    if g == 0 then e.q1 else if g == 1 then e.q2 else if g == 2 then e.q3 else if g == 3 then e.q4
    else if g == 4 then e.q5 else if g == 5 then e.q6 else if g == 6 then e.q7 else e.q8
  }

  /** The half's bits, most significant first. */
  function Flat(e: Eight): Half {
    seq(32, k requires 0 <= k < 32 => BitOf(QuadAt(e, k / 4), k % 4))
  }

  function BoxEntry(i: nat): Nibble {
    DigitOf(Boxed(i / 64 % 2 == 1, i / 32 % 2 == 1, QuadOf(i % 16), i / 16 % 2 == 1))
  }

  function SixBit(s: Six, j: nat): bool {
    if j == 0 then s.before else if j < 5 then BitOf(s.own, j - 1) else s.after
  }

  function KeyBit(i: nat): bool {
    SixBit(GroupKey(QuadOf(i / 48), QuadOf(i % 48 / 6)), i % 6)
  }

  /** The cipher has these boxes and keys. */
  predicate Worked(cipher: DESCipher) {
    cipher.Valid()
    && (forall i | 0 <= i < 512 :: cipher.boxes[i] == BoxEntry(i))
    && (forall i | 0 <= i < 768 :: cipher.keys[i] == KeyBit(i))
  }

  lemma WorkedIsValid(cipher: DESCipher)
    requires Worked(cipher)
    ensures cipher.Valid()
  {
  }

  lemma SixteensApart(m: nat, v: nat)
    requires v < 16
    ensures (16 * m + v) / 16 == m && (16 * m + v) % 16 == v
    ensures (16 * m + v) / 32 == m / 2 && (16 * m + v) / 64 == m / 4
  {
  }

  lemma EntryParts(g: nat, before: nat, after: nat, v: nat)
    requires before < 2 && after < 2 && v < 16
    ensures var n := 64 * g + 16 * (2 * before + after) + v;
            n / 64 == g && n / 32 % 2 == before && n / 16 % 2 == after && n % 16 == v
  {
    var m := 4 * g + 2 * before + after;
    SixteensApart(m, v);
    assert 64 * g + 16 * (2 * before + after) + v == 16 * m + v;
    assert m / 4 == g && m / 2 == 2 * g + before;
  }

  lemma KeyParts(round: nat, g: nat, j: nat)
    requires g < 8 && j < 6
    ensures var i := 48 * round + 6 * g + j; i / 48 == round && i % 48 / 6 == g && i % 6 == j
  {
  }

  lemma EntryOf(g: nat, before: bool, own: Quad, after: bool)
    requires g < 8
    ensures var n := 64 * g + 16 * (2 * Bit(before) + Bit(after)) + DigitOf(own);
            n < 512 && BoxEntry(n) == DigitOf(Boxed(g % 2 == 1, before, own, after))
  {
    hide Boxed, QuadOf;
    EntryParts(g, Bit(before), Bit(after), DigitOf(own));
  }

  lemma BoxIsBoxed(cipher: DESCipher, g: nat, before: bool, own: Quad, after: bool)
    requires Worked(cipher) && g < 8
    ensures var q := Boxed(g % 2 == 1, before, own, after);
            cipher.Box(g, [before, own.a, own.b, own.c, own.d, after]) == [q.a, q.b, q.c, q.d]
  {
    hide Boxed, QuadOf, BoxEntry;
    EntryOf(g, before, own, after);
    DigitBits(Boxed(g % 2 == 1, before, own, after));
  }

  lemma DigitBits(q: Quad)
    ensures var v := DigitOf(q); [v / 8 % 2 == 1, v / 4 % 2 == 1, v / 2 % 2 == 1, v % 2 == 1] == [q.a, q.b, q.c, q.d]
  {
    assert QuadOf(DigitOf(q)) == q;
  }

  lemma SourceParts(g: nat, j: nat)
    requires g < 8
    ensures (4 * g + 31) % 32 / 4 == (g + 7) % 8 && (4 * g + 31) % 32 % 4 == 3
    ensures (4 * g + 36) % 32 / 4 == (g + 1) % 8 && (4 * g + 36) % 32 % 4 == 0
    ensures 1 <= j < 5 ==> (4 * g + j + 31) % 32 == 4 * g + (j - 1)
  {
  }

  lemma FlatBit(e: Eight, g: nat, j: nat)
    requires g < 8 && j < 4
    ensures Flat(e)[4 * g + j] == BitOf(QuadAt(e, g), j)
  {
    assert (4 * g + j) / 4 == g && (4 * g + j) % 4 == j;
  }

  /** Input `j` of box `g`, before the key. */
  function InputBit(e: Eight, g: nat, j: nat): bool {
    if j == 0 then QuadAt(e, (g + 7) % 8).d else if j < 5 then BitOf(QuadAt(e, g), j - 1) else QuadAt(e, (g + 1) % 8).a
  }

  lemma InputIsExpanded(e: Eight, g: nat, j: nat)
    requires g < 8 && j < 6
    ensures |E| == 6 && Selects(E, 32) && Select(E, Flat(e))[6 * g + j] == InputBit(e, g, j)
  {
    hide E, Select, Flat, QuadAt;
    ExpandedBit(Flat(e), g, j);
    SourceParts(g, j);
    if j == 0 {
      FlatBit(e, (g + 7) % 8, 3);
      assert (4 * g + 31) % 32 == 4 * ((g + 7) % 8) + 3;
    } else if j < 5 {
      FlatBit(e, g, j - 1);
    } else {
      FlatBit(e, (g + 1) % 8, 0);
      assert (4 * g + 36) % 32 == 4 * ((g + 1) % 8);
    }
  }

  lemma SliceAt(keys: seq<bool>, round: nat, k: nat)
    requires |keys| == 768 && round < 16 && k < 48
    ensures keys[48 * round..48 * round + 48][k] == keys[48 * round + k]
  {
  }

  lemma GroupInput(cipher: DESCipher, e: Eight, round: nat, g: nat, j: nat)
    requires Worked(cipher) && round < 16 && g < 8 && j < 6 && |E| == 6 && Selects(E, 32)
    ensures Xor(Select(E, Flat(e)), cipher.keys[48 * round..48 * round + 48])[6 * g..6 * g + 6][j]
         == (InputBit(e, g, j) != SixBit(GroupKey(QuadOf(round), QuadOf(g)), j))
  {
    hide E, Select, Flat, GroupKey, QuadOf, InputBit, SixBit;
    InputIsExpanded(e, g, j);
    KeyParts(round, g, j);
    SliceAt(cipher.keys, round, 6 * g + j);
    var at := 48 * round + (6 * g + j);
    assert cipher.keys[at] == KeyBit(at);
  }

  /** The six bits that reach a box. */
  lemma GroupInputs(cipher: DESCipher, e: Eight, round: nat, g: nat)
    requires Worked(cipher) && round < 16 && g < 8 && |E| == 6 && Selects(E, 32)
    ensures var expanded := Xor(Select(E, Flat(e)), cipher.keys[48 * round..48 * round + 48]);
            var key := GroupKey(QuadOf(round), QuadOf(g));
            expanded[6 * g..6 * g + 6]
            == [InputBit(e, g, 0) != SixBit(key, 0), InputBit(e, g, 1) != SixBit(key, 1),
                InputBit(e, g, 2) != SixBit(key, 2), InputBit(e, g, 3) != SixBit(key, 3),
                InputBit(e, g, 4) != SixBit(key, 4), InputBit(e, g, 5) != SixBit(key, 5)]
  {
    hide E, Select, Flat, GroupKey, QuadOf, InputBit, SixBit, Xor;
    GroupInput(cipher, e, round, g, 0);
    GroupInput(cipher, e, round, g, 1);
    GroupInput(cipher, e, round, g, 2);
    GroupInput(cipher, e, round, g, 3);
    GroupInput(cipher, e, round, g, 4);
    GroupInput(cipher, e, round, g, 5);
  }

  lemma LowGroup(e: Eight, round: Quad, g: nat)
    requires g < 4
    ensures QuadAt(Substituted(e, round), g)
         == Grouped(QuadOf(g), QuadAt(e, (g + 7) % 8).d, QuadAt(e, g), QuadAt(e, (g + 1) % 8).a, round)
  {
    hide Grouped, QuadOf;
    GroupNumbers();
  }

  lemma HighGroup(e: Eight, round: Quad, g: nat)
    requires 4 <= g < 8
    ensures QuadAt(Substituted(e, round), g)
         == Grouped(QuadOf(g), QuadAt(e, (g + 7) % 8).d, QuadAt(e, g), QuadAt(e, (g + 1) % 8).a, round)
  {
    hide Grouped, QuadOf;
    GroupNumbers();
  }

  lemma GroupOfNumber(e: Eight, round: Quad, g: nat)
    requires g < 8
    ensures QuadAt(Substituted(e, round), g)
         == Grouped(QuadOf(g), QuadAt(e, (g + 7) % 8).d, QuadAt(e, g), QuadAt(e, (g + 1) % 8).a, round)
  {
    hide Grouped, QuadOf, QuadAt, Substituted;
    if g < 4 {
      LowGroup(e, round, g);
    } else {
      HighGroup(e, round, g);
    }
  }

  lemma GroupNumbers()
    ensures QuadOf(0) == x0 && QuadOf(1) == x1 && QuadOf(2) == x2 && QuadOf(3) == x3
    ensures QuadOf(4) == x4 && QuadOf(5) == x5 && QuadOf(6) == x6 && QuadOf(7) == x7
  {
  }

  /** What `Grouped` does, as the box sees it. */
  lemma GroupedIsBoxed(e: Eight, round: Quad, g: nat)
    requires g < 8
    ensures var key := GroupKey(round, QuadOf(g));
            var mixed := Quad(InputBit(e, g, 1) != SixBit(key, 1), InputBit(e, g, 2) != SixBit(key, 2),
                              InputBit(e, g, 3) != SixBit(key, 3), InputBit(e, g, 4) != SixBit(key, 4));
            QuadAt(Substituted(e, round), g)
            == Boxed(g % 2 == 1, InputBit(e, g, 0) != SixBit(key, 0), mixed, InputBit(e, g, 5) != SixBit(key, 5))
  {
    hide Substituted, GroupKey, Boxed, QuadAt;
    GroupOfNumber(e, round, g);
    assert QuadOf(g).d == (g % 2 == 1);
  }

  lemma GroupIsBoxed(cipher: DESCipher, e: Eight, round: nat, g: nat)
    requires Worked(cipher) && round < 16 && g < 8 && |E| == 6 && Selects(E, 32)
    ensures var expanded := Xor(Select(E, Flat(e)), cipher.keys[48 * round..48 * round + 48]);
            var q := QuadAt(Substituted(e, QuadOf(round)), g);
            cipher.Box(g, expanded[6 * g..6 * g + 6]) == [q.a, q.b, q.c, q.d]
  {
    hide E, Select, Flat, GroupKey, Boxed, Substituted, InputBit, SixBit, QuadOf, QuadAt, Xor, DESCipher.Box, Worked;
    WorkedIsValid(cipher);
    var key := GroupKey(QuadOf(round), QuadOf(g));
    GroupInputs(cipher, e, round, g);
    GroupedIsBoxed(e, QuadOf(round), g);
    var mixed := Quad(InputBit(e, g, 1) != SixBit(key, 1), InputBit(e, g, 2) != SixBit(key, 2),
                      InputBit(e, g, 3) != SixBit(key, 3), InputBit(e, g, 4) != SixBit(key, 4));
    BoxIsBoxed(cipher, g, InputBit(e, g, 0) != SixBit(key, 0), mixed, InputBit(e, g, 5) != SixBit(key, 5));
  }

  lemma PermutedRow(s: Eight, i: nat, j: nat)
    requires i < 4 && j < 8
    ensures |P| == 4 && Selects(P, 32)
    ensures Flat(s)[P[i][j] - 1] == Flat(Permuted(s))[8 * i + j]
  {
    TablesSelect();
    if i == 0 {
    } else if i == 1 {
    } else if i == 2 {
    } else {
    }
  }

  lemma BitIn(q: Quad, j: nat)
    requires j < 4
    ensures [q.a, q.b, q.c, q.d][j] == BitOf(q, j)
  {
  }

  lemma PermutedFlat(s: Eight)
    ensures |P| == 4 && Selects(P, 32) && Select(P, Flat(s)) == Flat(Permuted(s))
  {
    TablesSelect();
    hide P, Flat, Permuted;
    forall k | 0 <= k < 32 ensures Select(P, Flat(s))[k] == Flat(Permuted(s))[k] {
      PermutedRow(s, k / 8, k % 8);
    }
  }

  /** For these boxes and keys the round function is the one written out. */
  lemma RoundIsFeistel(cipher: DESCipher, e: Eight, round: nat)
    requires Worked(cipher) && round < 16
    ensures cipher.Feistel(Flat(e), round) == Flat(RoundOf(e, QuadOf(round)))
  {
    TablesSelect();
    hide E, P, Select, Flat, Substituted, Permuted, QuadOf, Xor, DESCipher.Box, BoxEntry, KeyBit, BitOf, QuadAt;
    var expanded := Xor(Select(E, Flat(e)), cipher.keys[48 * round..48 * round + 48]);
    var s := Substituted(e, QuadOf(round));
    forall i | 0 <= i < 32 ensures cipher.Boxes(expanded)[i] == Flat(s)[i] {
      GroupIsBoxed(cipher, e, round, i / 4);
      FlatBit(s, i / 4, i % 4);
      BitIn(QuadAt(s, i / 4), i % 4);
    }
    assert cipher.Boxes(expanded) == Flat(s);
    PermutedFlat(s);
  }

  lemma XorFlat(e: Eight, f: Eight)
    ensures Xor(Flat(e), Flat(f)) == Flat(EightXor(e, f))
  {
    forall k | 0 <= k < 32 ensures Xor(Flat(e), Flat(f))[k] == Flat(EightXor(e, f))[k] {
      XorQuads(e, f, k / 4, k % 4);
    }
    hide EightXor, QuadAt, BitOf;
  }

  lemma XorQuads(e: Eight, f: Eight, g: nat, j: nat)
    requires g < 8 && j < 4
    ensures BitOf(QuadAt(EightXor(e, f), g), j) == (BitOf(QuadAt(e, g), j) != BitOf(QuadAt(f, g), j))
  {
  }

  /** One round taken: the round key's number is `n`, in digits `round`. */
  lemma RoundTaken(cipher: DESCipher, n: nat, round: Quad, a: Eight, b: Eight, c: Eight)
    requires Worked(cipher) && n < 16 && QuadOf(n) == round && EightXor(a, RoundOf(b, round)) == c
    ensures cipher.EncryptRounds(Halves(Flat(b), Flat(a)), n + 1) == cipher.EncryptRounds(Halves(Flat(c), Flat(b)), n)
  {
    hide Flat, EightXor, RoundOf, QuadOf, Xor, Worked;
    assert cipher.Valid() by {
      WorkedIsValid(cipher);
    }
    RoundIsFeistel(cipher, b, n);
    XorFlat(a, RoundOf(b, round));
  }

  const H0 := Eight(x0, x0, x0, x0, x0, x0, x0, x0)
  const H1 := Eight(x0, x0, x0, x0, x0, x0, x0, x0)
  const H2 := Eight(xB, x7, xF, x5, xB, x2, xD, xE)
  const H3 := Eight(x7, xD, x7, xA, x7, xC, xE, xB)
  const H4 := Eight(x5, xF, xF, xD, xA, xF, x8, xF)
  const H5 := Eight(xE, x9, x6, x6, x7, x4, xA, xB)
  const H6 := Eight(xC, x3, x9, xF, xA, x2, xF, x8)
  const H7 := Eight(xB, x6, x7, xD, x7, x7, x0, x7)
  const H8 := Eight(xD, x8, xB, x8, x0, xF, x4, x6)
  const H9 := Eight(x8, x2, xA, xC, x8, x9, x4, x8)
  const H10 := Eight(x6, x9, x1, xB, x4, x4, xC, x0)
  const H11 := Eight(x9, xC, x4, xF, xF, x9, x5, xA)
  const H12 := Eight(x3, x3, xA, x1, xF, xC, x9, x8)
  const H13 := Eight(x1, x5, x9, x8, x6, x1, x0, xC)
  const H14 := Eight(xA, xE, x5, x3, xE, xF, x0, x6)
  const H15 := Eight(xF, x8, x4, x6, xC, xA, xB, xF)
  const H16 := Eight(x9, x5, xF, x7, x9, xD, xF, xE)
  const H17 := Eight(x3, xC, x0, x6, xE, x3, x9, x9)

  // ---- The block -------------------------------------------------------------------------------------------------

  lemma Rounds15To12(cipher: DESCipher)
    requires Worked(cipher)
    ensures cipher.EncryptRounds(Halves(Flat(H1), Flat(H0)), 16)
         == cipher.EncryptRounds(Halves(Flat(H5), Flat(H4)), 12)
  {
    hide Flat, Worked;
    WorkedIsValid(cipher);
    RoundTaken(cipher, 15, xF, H0, H1, H2);
    RoundTaken(cipher, 14, xE, H1, H2, H3);
    RoundTaken(cipher, 13, xD, H2, H3, H4);
    RoundTaken(cipher, 12, xC, H3, H4, H5);
  }

  lemma Rounds11To8(cipher: DESCipher)
    requires Worked(cipher)
    ensures cipher.EncryptRounds(Halves(Flat(H5), Flat(H4)), 12)
         == cipher.EncryptRounds(Halves(Flat(H9), Flat(H8)), 8)
  {
    hide Flat, Worked;
    WorkedIsValid(cipher);
    RoundTaken(cipher, 11, xB, H4, H5, H6);
    RoundTaken(cipher, 10, xA, H5, H6, H7);
    RoundTaken(cipher, 9, x9, H6, H7, H8);
    RoundTaken(cipher, 8, x8, H7, H8, H9);
  }

  lemma Rounds7To4(cipher: DESCipher)
    requires Worked(cipher)
    ensures cipher.EncryptRounds(Halves(Flat(H9), Flat(H8)), 8)
         == cipher.EncryptRounds(Halves(Flat(H13), Flat(H12)), 4)
  {
    hide Flat, Worked;
    WorkedIsValid(cipher);
    RoundTaken(cipher, 7, x7, H8, H9, H10);
    RoundTaken(cipher, 6, x6, H9, H10, H11);
    RoundTaken(cipher, 5, x5, H10, H11, H12);
    RoundTaken(cipher, 4, x4, H11, H12, H13);
  }

  lemma Rounds3To0(cipher: DESCipher)
    requires Worked(cipher)
    ensures cipher.EncryptRounds(Halves(Flat(H13), Flat(H12)), 4)
         == cipher.EncryptRounds(Halves(Flat(H17), Flat(H16)), 0)
  {
    hide Flat, Worked;
    WorkedIsValid(cipher);
    RoundTaken(cipher, 3, x3, H12, H13, H14);
    RoundTaken(cipher, 2, x2, H13, H14, H15);
    RoundTaken(cipher, 1, x1, H14, H15, H16);
    RoundTaken(cipher, 0, x0, H15, H16, H17);
  }

  lemma FinalBit(cipher: DESCipher, e: Half, f: Half, i: nat, j: nat)
    requires i < 8 && j < 8
    ensures cipher.Final(e + f)[8 * i + j] == if j % 2 == 0 then f[7 - i + 4 * j] else e[3 - i + 4 * j]
  {
    PermutationsSelect();
    hide FP;
    RowAndColumn(i, j);
    FinalAt(i, j);
  }

  function ByteOf(p: Quad, q: Quad): Byte {
    [p.a, p.b, p.c, p.d, q.a, q.b, q.c, q.d]
  }

  function ZeroWord(): Word {
    seq(64, i requires 0 <= i < 64 => false)
  }

  lemma ZeroStart(cipher: DESCipher)
    ensures cipher.Split(cipher.Initial(ZeroWord())) == Halves(Flat(H1), Flat(H0))
  {
    PermutationsSelect();
    hide IP;
    forall k | 0 <= k < 32 ensures Flat(H0)[k] == false && Flat(H1)[k] == false {
    }
    assert cipher.Initial(ZeroWord()) == ZeroWord();
  }

  /** Sixteen rounds from nothing. */
  lemma ZeroWordEnciphered(cipher: DESCipher)
    requires Worked(cipher)
    ensures cipher.Valid() && cipher.EncryptWord(ZeroWord()) == cipher.Final(Flat(H16) + Flat(H17))
  {
    hide Flat, Worked;
    WorkedIsValid(cipher);
    ZeroStart(cipher);
    Rounds15To12(cipher);
    Rounds11To8(cipher);
    Rounds7To4(cipher);
    Rounds3To0(cipher);
  }

  /** A byte of the enciphered word is `b` when each of its bits is the right one of a half. */
  lemma ByteIs(cipher: DESCipher, e: Half, f: Half, i: nat, b: Byte)
    requires i < 8
    requires b[0] == f[7 - i] && b[2] == f[15 - i] && b[4] == f[23 - i] && b[6] == f[31 - i]
    requires b[1] == e[7 - i] && b[3] == e[15 - i] && b[5] == e[23 - i] && b[7] == e[31 - i]
    ensures cipher.Bytes(cipher.Final(e + f))[i] == b
  {
    hide DESCipher.Final;
    forall j | 0 <= j < 8 ensures cipher.Final(e + f)[8 * i + j] == b[j] {
      FinalBit(cipher, e, f, i, j);
    }
  }

  lemma Bytes0To3(cipher: DESCipher)
    ensures var bytes := cipher.Bytes(cipher.Final(Flat(H16) + Flat(H17)));
            bytes[0..4] == [ByteOf(x5, xE), ByteOf(x3, x9), ByteOf(xF, x5), ByteOf(x8, x7)]
  {
    var first, second := Flat(H16), Flat(H17);
    ByteIs(cipher, first, second, 0, ByteOf(x5, xE));
    ByteIs(cipher, first, second, 1, ByteOf(x3, x9));
    ByteIs(cipher, first, second, 2, ByteOf(xF, x5));
    ByteIs(cipher, first, second, 3, ByteOf(x8, x7));
    hide Flat, DESCipher.Final, DESCipher.Bytes;
  }

  lemma Bytes4To7(cipher: DESCipher)
    ensures var bytes := cipher.Bytes(cipher.Final(Flat(H16) + Flat(H17)));
            bytes[4..8] == [ByteOf(xD, x7), ByteOf(x9, x9), ByteOf(x1, x9), ByteOf(x5, xF)]
  {
    var first, second := Flat(H16), Flat(H17);
    ByteIs(cipher, first, second, 4, ByteOf(xD, x7));
    ByteIs(cipher, first, second, 5, ByteOf(x9, x9));
    ByteIs(cipher, first, second, 6, ByteOf(x1, x9));
    ByteIs(cipher, first, second, 7, ByteOf(x5, xF));
    hide Flat, DESCipher.Final, DESCipher.Bytes;
  }

  function ZeroBlock(): seq<Byte> {
    var zero := ByteOf(x0, x0);
    [zero, zero, zero, zero, zero, zero, zero, zero]
  }

  lemma ZeroBlockBits(cipher: DESCipher)
    ensures cipher.Bits(ZeroBlock()) == ZeroWord()
  {
    var block := ZeroBlock();
    forall k | 0 <= k < 64 ensures cipher.Bits(block)[k] == false {
      assert block[k / 8] == ByteOf(x0, x0) && ByteOf(x0, x0)[k % 8] == false;
    }
  }

  /** Eight zero bytes become these. */
  lemma ZeroBlockEnciphered(cipher: DESCipher)
    requires Worked(cipher)
    ensures cipher.Valid()
    ensures cipher.EncryptedBlock(ZeroBlock())
         == [ByteOf(x5, xE), ByteOf(x3, x9), ByteOf(xF, x5), ByteOf(x8, x7),
             ByteOf(xD, x7), ByteOf(x9, x9), ByteOf(x1, x9), ByteOf(x5, xF)]
  {
    hide Flat, Worked, DESCipher.EncryptWord, DESCipher.Final, DESCipher.Bytes, DESCipher.Bits;
    WorkedIsValid(cipher);
    ZeroBlockBits(cipher);
    ZeroWordEnciphered(cipher);
    Bytes0To3(cipher);
    Bytes4To7(cipher);
    var bytes := cipher.Bytes(cipher.Final(Flat(H16) + Flat(H17)));
    assert bytes == bytes[0..4] + bytes[4..8];
  }
}
