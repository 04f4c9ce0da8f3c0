/**
 * The login server's block cipher. A word is its bits, most significant first, so position k of a table, counted from
 * one, is bit k - 1. The substitution boxes and round keys are fields: what is proved holds whatever they contain.
 */
module Cipher {
  import opened Bits

  type Byte = b: seq<bool> | |b| == 8 witness seq(8, _ => false)
  type Half = h: seq<bool> | |h| == 32 witness seq(32, _ => false)
  type Word = w: seq<bool> | |w| == 64 witness seq(64, _ => false)
  type Nibble = n: nat | n < 16

  type Table = t: seq<seq<nat>> | forall i | 0 <= i < |t| :: |t[i]| == 8

  const E: Table := [
    [32, 1, 2, 3, 4, 5, 4, 5], [6, 7, 8, 9, 8, 9, 10, 11], [12, 13, 12, 13, 14, 15, 16, 17],
    [16, 17, 18, 19, 20, 21, 20, 21], [22, 23, 24, 25, 24, 25, 26, 27], [28, 29, 28, 29, 30, 31, 32, 1]]

  const P: Table := [
    [16, 7, 20, 21, 29, 12, 28, 17], [1, 15, 23, 26, 5, 18, 31, 10],
    [2, 8, 24, 14, 32, 27, 3, 9], [19, 13, 30, 6, 22, 11, 4, 25]]

  const IP: Table := [
    [58, 50, 42, 34, 26, 18, 10, 2], [60, 52, 44, 36, 28, 20, 12, 4],
    [62, 54, 46, 38, 30, 22, 14, 6], [64, 56, 48, 40, 32, 24, 16, 8],
    [57, 49, 41, 33, 25, 17, 9, 1], [59, 51, 43, 35, 27, 19, 11, 3],
    [61, 53, 45, 37, 29, 21, 13, 5], [63, 55, 47, 39, 31, 23, 15, 7]]

  const FP: Table := [
    [40, 8, 48, 16, 56, 24, 64, 32], [39, 7, 47, 15, 55, 23, 63, 31],
    [38, 6, 46, 14, 54, 22, 62, 30], [37, 5, 45, 13, 53, 21, 61, 29],
    [36, 4, 44, 12, 52, 20, 60, 28], [35, 3, 43, 11, 51, 19, 59, 27],
    [34, 2, 42, 10, 50, 18, 58, 26], [33, 1, 41, 9, 49, 17, 57, 25]]

  /** Every entry of the table names one of `width` bits. */
  predicate Selects(t: Table, width: nat) {
    forall i | 0 <= i < |t| :: forall j | 0 <= j < 8 :: 1 <= t[i][j] <= width
  }

  lemma TablesSelect()
    ensures |E| == 6 && Selects(E, 32) && |P| == 4 && Selects(P, 32)
  {
  }

  lemma PermutationsSelect()
    ensures |IP| == |FP| == 8 && Selects(IP, 64) && Selects(FP, 64)
  {
  }

  /** Output bit i is input bit t[i]. */
  function Select(t: Table, bits: seq<bool>): (out: seq<bool>)
    requires Selects(t, |bits|)
    ensures |out| == 8 * |t|
  {
    seq(8 * |t|, i requires 0 <= i < 8 * |t| => bits[t[i / 8][i % 8] - 1])
  }

  lemma InitialAt(i: nat, j: nat)
    requires i < 8 && j < 8
    ensures |IP| == 8 && IP[i][j] == (if i < 4 then 58 + 2 * i else 49 + 2 * i) - 8 * j
  {
  }

  lemma FinalAt(i: nat, j: nat)
    requires i < 8 && j < 8
    ensures |FP| == 8 && FP[i][j] == (if j % 2 == 0 then 40 + 4 * j else 4 + 4 * j) - i
  {
  }

  lemma RowAndColumn(q: nat, r: nat)
    requires r < 8
    ensures (8 * q + r) / 8 == q && (8 * q + r) % 8 == r
  {
  }

  lemma FinalThenInitial(k: nat)
    requires k < 64
    ensures |IP| == |FP| == 8 && var from := FP[k / 8][k % 8] - 1; 0 <= from < 64 && IP[from / 8][from % 8] == k + 1
  {
    hide IP;
    hide FP;
    var i, j := k / 8, k % 8;
    FinalAt(i, j);
    var row := if j % 2 == 0 then 4 + j / 2 else j / 2;
    RowAndColumn(row, 7 - i);
    InitialAt(row, 7 - i);
  }

  lemma InitialThenFinal(k: nat)
    requires k < 64
    ensures |IP| == |FP| == 8 && var from := IP[k / 8][k % 8] - 1; 0 <= from < 64 && FP[from / 8][from % 8] == k + 1
  {
    hide IP;
    hide FP;
    var i, j := k / 8, k % 8;
    InitialAt(i, j);
    var column := if i < 4 then 2 * i + 1 else 2 * (i - 4);
    RowAndColumn(7 - j, column);
    FinalAt(7 - j, column);
  }

  lemma SelectTwice(t: Table, u: Table, w: Word)
    requires |t| == |u| == 8 && Selects(t, 64) && Selects(u, 64)
    requires forall k | 0 <= k < 64 :: var from := u[k / 8][k % 8] - 1; t[from / 8][from % 8] == k + 1
    ensures Select(u, Select(t, w)) == w
  {
    forall k | 0 <= k < 64 ensures Select(u, Select(t, w))[k] == w[k] {
      var from := u[k / 8][k % 8] - 1;
      assert t[from / 8][from % 8] == k + 1;
    }
  }

  /** FP inverts IP and IP inverts FP. */
  lemma PermutationsInverse(w: Word)
    ensures Selects(IP, 64) && |IP| == 8 && Selects(FP, 64) && |FP| == 8
    ensures Select(FP, Select(IP, w)) == w && Select(IP, Select(FP, w)) == w
  {
    hide IP;
    hide FP;
    PermutationsSelect();
    forall k | 0 <= k < 64 ensures var from := FP[k / 8][k % 8] - 1; IP[from / 8][from % 8] == k + 1 {
      FinalThenInitial(k);
    }
    forall k | 0 <= k < 64 ensures var from := IP[k / 8][k % 8] - 1; FP[from / 8][from % 8] == k + 1 {
      InitialThenFinal(k);
    }
    SelectTwice(IP, FP, w);
    SelectTwice(FP, IP, w);
  }

  lemma BitsStep(n: nat, width: nat)
    requires width > 0
    ensures BitsOf(n, width) == BitsOf(n / 2, width - 1) + [n % 2 == 1]
  {
  }

  lemma SixBits(n: nat)
    ensures BitsOf(n, 6)
         == [n / 32 % 2 == 1, n / 16 % 2 == 1, n / 8 % 2 == 1, n / 4 % 2 == 1, n / 2 % 2 == 1, n % 2 == 1]
  {
    hide BitsOf;
    assert n / 2 / 2 == n / 4 && n / 4 / 2 == n / 8 && n / 8 / 2 == n / 16;
    assert n / 16 / 2 == n / 32 && n / 32 / 2 == n / 64;
    BitsStep(n, 6);
    BitsStep(n / 2, 5);
    BitsStep(n / 4, 4);
    BitsStep(n / 8, 3);
    BitsStep(n / 16, 2);
    BitsStep(n / 32, 1);
    assert BitsOf(n / 64, 0) == [];
  }

  lemma LowFour(h: nat)
    requires h < 32
    ensures h % 16 == 8 * Bit(h / 8 % 2 == 1) + 4 * Bit(h / 4 % 2 == 1) + 2 * Bit(h / 2 % 2 == 1) + Bit(h % 2 == 1)
  {
    assert h == 16 * (h / 16) + 8 * (h / 8 % 2) + 4 * (h / 4 % 2) + 2 * (h / 2 % 2) + h % 2;
  }

  lemma SixSplit(n: nat)
    requires n < 64
    ensures n / 32 < 2 && n / 32 == Bit(n / 32 % 2 == 1) && n % 2 == Bit(n % 2 == 1)
    ensures n / 2 % 16
         == 8 * Bit(n / 16 % 2 == 1) + 4 * Bit(n / 8 % 2 == 1) + 2 * Bit(n / 4 % 2 == 1) + Bit(n / 2 % 2 == 1)
  {
    LowFour(n / 2);
    assert n / 4 == n / 2 / 2 && n / 8 == n / 2 / 4 && n / 16 == n / 2 / 8;
  }

  lemma FourBits(v: Nibble)
    ensures NumberOf([v / 8 % 2 == 1, v / 4 % 2 == 1, v / 2 % 2 == 1, v % 2 == 1]) == v
  {
    FourBitsOf(v / 8 % 2 == 1, v / 4 % 2 == 1, v / 2 % 2 == 1, v % 2 == 1);
    assert v == 8 * (v / 8) + 4 * (v / 4 % 2) + 2 * (v / 2 % 2) + v % 2;
    hide NumberOf;
  }

  lemma FourBitsOf(a: bool, b: bool, c: bool, d: bool)
    ensures NumberOf([a, b, c, d]) == 8 * Bit(a) + 4 * Bit(b) + 2 * Bit(c) + Bit(d)
  {
    NumberOfAppended([], a);
    NumberOfAppended([a], b);
    NumberOfAppended([a, b], c);
    NumberOfAppended([a, b, c], d);
    assert [] + [a] == [a] && [a] + [b] == [a, b] && [a, b] + [c] == [a, b, c] && [a, b, c] + [d] == [a, b, c, d];
    assert NumberOf([]) == 0;
    hide NumberOf;
  }

  /** Groups of six that overlap by two and wrap around. */
  function ExpansionSource(k: nat): nat {
    (4 * (k / 6) + k % 6 + 31) % 32 + 1
  }

  lemma ExpansionStart(i: nat, j: nat)
    requires 0 <= i < 2 && j < 8
    ensures |E| == 6 && E[i][j] == ExpansionSource(8 * i + j)
  {
    if i == 0 {
    } else {
    }
  }

  lemma ExpansionMiddle(i: nat, j: nat)
    requires 2 <= i < 4 && j < 8
    ensures |E| == 6 && E[i][j] == ExpansionSource(8 * i + j)
  {
    if i == 2 {
    } else {
    }
  }

  lemma ExpansionEnd(i: nat, j: nat)
    requires 4 <= i < 6 && j < 8
    ensures |E| == 6 && E[i][j] == ExpansionSource(8 * i + j)
  {
    if i == 4 {
    } else {
    }
  }

  lemma ExpansionAt(k: nat)
    requires k < 48
    ensures |E| == 6 && E[k / 8][k % 8] == ExpansionSource(k)
  {
    hide E, ExpansionSource;
    if k < 16 {
      ExpansionStart(k / 8, k % 8);
    } else if k < 32 {
      ExpansionMiddle(k / 8, k % 8);
    } else {
      ExpansionEnd(k / 8, k % 8);
    }
  }

  lemma SourceOf(g: nat, j: nat)
    requires g < 8 && j < 6
    ensures ExpansionSource(6 * g + j) == (4 * g + j + 31) % 32 + 1
  {
    SixesApart(g, j);
  }

  lemma SixesApart(g: nat, j: nat)
    requires j < 6
    ensures (6 * g + j) / 6 == g && (6 * g + j) % 6 == j
  {
  }

  lemma ExpandedBit(half: Half, g: nat, j: nat)
    requires g < 8 && j < 6
    ensures |E| == 6 && Selects(E, 32) && Select(E, half)[6 * g + j] == half[(4 * g + j + 31) % 32]
  {
    TablesSelect();
    hide E, ExpansionSource;
    ExpansionAt(6 * g + j);
    SourceOf(g, j);
  }

  lemma AroundBit(half: Half, k: nat)
    requires k < 34
    ensures ([half[31]] + half + [half[0]])[k] == half[(k + 31) % 32]
  {
  }

  /** The expansion, group by group: the four bits and one on either side, around the half. */
  lemma ExpansionOverlaps(half: Half, g: nat)
    requires g < 8
    ensures |E| == 6 && Selects(E, 32)
    ensures Select(E, half)[6 * g..6 * g + 6] == ([half[31]] + half + [half[0]])[4 * g..4 * g + 6]
  {
    TablesSelect();
    hide E, Select;
    var group, around := Select(E, half)[6 * g..6 * g + 6], ([half[31]] + half + [half[0]])[4 * g..4 * g + 6];
    forall j | 0 <= j < 6 ensures group[j] == around[j] {
      ExpandedBit(half, g, j);
      AroundBit(half, 4 * g + j);
    }
  }

  const P_INVERSE: Table := [
    [9, 17, 23, 31, 13, 28, 2, 18], [24, 16, 30, 6, 26, 20, 10, 1],
    [8, 14, 25, 3, 4, 29, 11, 19], [32, 12, 22, 7, 5, 27, 15, 21]]

  lemma RoundPermutationAt(k: nat)
    requires k < 32
    ensures |P| == |P_INVERSE| == 4 && Selects(P, 32) && Selects(P_INVERSE, 32)
    ensures var from := P_INVERSE[k / 8][k % 8] - 1; P[from / 8][from % 8] == k + 1
  {
  }

  /** P loses no bit. */
  lemma RoundPermutationInverts(half: Half)
    ensures |P| == |P_INVERSE| == 4 && Selects(P, 32) && Selects(P_INVERSE, 32)
    ensures Select(P_INVERSE, Select(P, half)) == half
  {
    RoundPermutationAt(0);
    hide P, P_INVERSE;
    forall k | 0 <= k < 32 ensures Select(P_INVERSE, Select(P, half))[k] == half[k] {
      RoundPermutationAt(k);
    }
  }

  /** The loop the cipher runs for each of its permutations. */
  method Permute(t: Table, bits: seq<bool>) returns (out: seq<bool>)
    requires Selects(t, |bits|)
    ensures out == Select(t, bits)
  {
    out := [];
    for i := 0 to 8 * |t|
      invariant |out| == i && forall k | 0 <= k < i :: out[k] == bits[t[k / 8][k % 8] - 1]
    {
      out := out + [bits[t[i / 8][i % 8] - 1]];
    }
  }

  function Xor(a: seq<bool>, b: seq<bool>): (c: seq<bool>)
    requires |a| == |b|
    ensures |c| == |a|
  {
    seq(|a|, i requires 0 <= i < |a| => a[i] != b[i])
  }

  lemma XorTwice(a: seq<bool>, b: seq<bool>)
    requires |a| == |b|
    ensures Xor(Xor(a, b), b) == a
  {
  }

  datatype Halves = Halves(left: Half, right: Half)

  class DESCipher {
    const boxes: seq<Nibble>
    const keys: seq<bool>

    predicate Valid() {
      |boxes| == 512 && |keys| == 768
    }

    constructor (boxes: seq<Nibble>, keys: seq<bool>)
      requires |boxes| == 512 && |keys| == 768
      ensures Valid() && this.boxes == boxes && this.keys == keys
    {
      this.boxes, this.keys := boxes, keys;
    }

    /** The four output bits of box g for its six input bits. */
    function Box(g: nat, chunk: seq<bool>): (out: seq<bool>)
      requires Valid() && g < 8 && |chunk| == 6
      ensures |out| == 4
    {
      var row := 2 * Bit(chunk[0]) + Bit(chunk[5]);
      var col := 8 * Bit(chunk[1]) + 4 * Bit(chunk[2]) + 2 * Bit(chunk[3]) + Bit(chunk[4]);
      var v := boxes[64 * g + 16 * row + col];
      [v / 8 % 2 == 1, v / 4 % 2 == 1, v / 2 % 2 == 1, v % 2 == 1]
    }

    /** The substitution rule: the outer two bits name one of the box's four rows, the inner four its column. */
    lemma BoxRule(g: nat, n: nat)
      requires Valid() && g < 8 && n < 64
      ensures var entry := 64 * g + 16 * (2 * (n / 32) + n % 2) + n / 2 % 16;
              entry < 512 && NumberOf(Box(g, BitsOf(n, 6))) == boxes[entry]
    {
      hide NumberOf, BitsOf;
      SixBits(n);
      SixSplit(n);
      FourBits(boxes[64 * g + 16 * (2 * (n / 32) + n % 2) + n / 2 % 16]);
    }

    function Boxes(expanded: seq<bool>): (out: seq<bool>)
      requires Valid() && |expanded| == 48
      ensures |out| == 32
    {
      seq(32, i requires 0 <= i < 32 => Box(i / 4, expanded[6 * (i / 4)..6 * (i / 4) + 6])[i % 4])
    }

    function Feistel(half: Half, round: nat): Half
      requires Valid() && round < 16
    {
      TablesSelect();
      var expanded := Xor(Select(E, half), keys[48 * round..48 * round + 48]);
      Select(P, Boxes(expanded))
    }

    /** The half expanded to forty-eight bits and mixed with the round's key, bit by bit. */
    method Expand(half: Half, round: nat) returns (expanded: seq<bool>)
      requires Valid() && round < 16 && |E| == 6 && Selects(E, 32)
      ensures expanded == Xor(Select(E, half), keys[48 * round..48 * round + 48])
    {
      hide E;
      expanded := [];
      for i := 0 to 48
        invariant |expanded| == i
        invariant forall k | 0 <= k < i :: expanded[k] == (half[E[k / 8][k % 8] - 1] != keys[48 * round + k])
      {
        var bit := half[E[i / 8][i % 8] - 1];
        expanded := expanded + [bit != keys[48 * round + i]];
      }
    }

    method Substitute(expanded: seq<bool>) returns (substituted: seq<bool>)
      requires Valid() && |expanded| == 48
      ensures substituted == Boxes(expanded)
    {
      hide Box;
      substituted := [];
      for g := 0 to 8
        invariant |substituted| == 4 * g
        invariant forall k | 0 <= k < 4 * g ::
                  substituted[k] == Box(k / 4, expanded[6 * (k / 4)..6 * (k / 4) + 6])[k % 4]
      {
        substituted := substituted + Box(g, expanded[6 * g..6 * g + 6]);
      }
    }

    method ComputeFeistel(half: Half, round: nat) returns (out: Half)
      requires Valid() && round < 16
      ensures out == Feistel(half, round)
    {
      TablesSelect();
      hide E, P, Boxes, Select, Xor;
      var expanded := Expand(half, round);
      var substituted := Substitute(expanded);
      out := Permute(P, substituted);
    }

    function EncryptRound(s: Halves, round: nat): Halves
      requires Valid() && round < 16
    {
      Halves(Xor(s.right, Feistel(s.left, round)), s.left)
    }

    function DecryptRound(s: Halves, round: nat): Halves
      requires Valid() && round < 16
    {
      Halves(s.right, Xor(s.left, Feistel(s.right, round)))
    }

    /** Rounds n - 1 down to 0. */
    function EncryptRounds(s: Halves, n: nat): Halves
      requires Valid() && n <= 16
      decreases n
    {
      if n == 0 then s else EncryptRounds(EncryptRound(s, n - 1), n - 1)
    }

    /** Rounds 0 up to n - 1. */
    function DecryptRounds(s: Halves, n: nat): Halves
      requires Valid() && n <= 16
    {
      if n == 0 then s else DecryptRound(DecryptRounds(s, n - 1), n - 1)
    }

    lemma RoundsUndo(s: Halves, round: nat)
      requires Valid() && round < 16
      ensures DecryptRound(EncryptRound(s, round), round) == s && EncryptRound(DecryptRound(s, round), round) == s
    {
      XorTwice(s.right, Feistel(s.left, round));
      XorTwice(s.left, Feistel(s.right, round));
    }

    lemma {:induction false} LoopsUndo(s: Halves, n: nat)
      requires Valid() && n <= 16
      ensures DecryptRounds(EncryptRounds(s, n), n) == s && EncryptRounds(DecryptRounds(s, n), n) == s
      decreases n
    {
      if n > 0 {
        LoopsUndo(EncryptRound(s, n - 1), n - 1);
        RoundsUndo(s, n - 1);
        LoopsUndo(s, n - 1);
        RoundsUndo(DecryptRounds(s, n - 1), n - 1);
      }
    }

    function Split(w: Word): Halves {
      Halves(w[32..], w[..32])
    }

    function Join(s: Halves): Word {
      s.right + s.left
    }

    function Initial(w: Word): Word {
      PermutationsSelect();
      Select(IP, w)
    }

    function Final(w: Word): Word {
      PermutationsSelect();
      Select(FP, w)
    }

    function EncryptWord(w: Word): Word
      requires Valid()
    {
      Final(Join(EncryptRounds(Split(Initial(w)), 16)))
    }

    function DecryptWord(w: Word): Word
      requires Valid()
    {
      Final(Join(DecryptRounds(Split(Initial(w)), 16)))
    }

    lemma SplitJoin(w: Word, s: Halves)
      ensures Join(Split(w)) == w && Split(Join(s)) == s
    {
    }

    /** Deciphering a word undoes enciphering it, and the other way round. */
    lemma WordRoundTrip(w: Word)
      requires Valid()
      ensures DecryptWord(EncryptWord(w)) == w && EncryptWord(DecryptWord(w)) == w
    {
      hide Split, Join, Initial, Final, EncryptRounds, DecryptRounds;
      var s := Split(Initial(w));
      SplitJoin(Initial(w), EncryptRounds(s, 16));
      SplitJoin(Initial(w), DecryptRounds(s, 16));
      LoopsUndo(s, 16);
      InitialFinal(w);
      InitialFinal(Join(EncryptRounds(s, 16)));
      InitialFinal(Join(DecryptRounds(s, 16)));
    }

    lemma InitialFinal(w: Word)
      ensures Final(Initial(w)) == w && Initial(Final(w)) == w
    {
      PermutationsInverse(w);
      hide IP;
      hide FP;
    }

    // ---- Bytes --------------------------------------------------------------------------------------------------

    function Bits(bytes: seq<Byte>): (bits: seq<bool>)
      ensures |bits| == 8 * |bytes|
    {
      seq(8 * |bytes|, i requires 0 <= i < 8 * |bytes| => bytes[i / 8][i % 8])
    }

    function Bytes(bits: seq<bool>): (bytes: seq<Byte>)
      requires |bits| % 8 == 0
      ensures |bytes| == |bits| / 8
    {
      seq(|bits| / 8, i requires 0 <= i < |bits| / 8 => bits[8 * i..8 * i + 8])
    }

    lemma BitsOfBytes(bits: seq<bool>)
      requires |bits| % 8 == 0
      ensures Bits(Bytes(bits)) == bits
    {
      forall k | 0 <= k < |bits| ensures Bits(Bytes(bits))[k] == bits[k] {
        assert k == 8 * (k / 8) + k % 8;
      }
    }

    lemma BytesOfBits(bytes: seq<Byte>)
      ensures Bytes(Bits(bytes)) == bytes
    {
      forall i | 0 <= i < |bytes| ensures Bytes(Bits(bytes))[i] == bytes[i] {
        forall j | 0 <= j < 8 ensures Bits(bytes)[8 * i..8 * i + 8][j] == bytes[i][j] {
          RowAndColumn(i, j);
        }
      }
    }

    function EncryptedBlock(block: seq<Byte>): (out: seq<Byte>)
      requires Valid() && |block| == 8
      ensures |out| == 8
    {
      Bytes(EncryptWord(Bits(block)))
    }

    function DecryptedBlock(block: seq<Byte>): (out: seq<Byte>)
      requires Valid() && |block| == 8
      ensures |out| == 8
    {
      Bytes(DecryptWord(Bits(block)))
    }

    lemma BlockRoundTrip(block: seq<Byte>)
      requires Valid() && |block| == 8
      ensures DecryptedBlock(EncryptedBlock(block)) == block && EncryptedBlock(DecryptedBlock(block)) == block
    {
      hide EncryptWord, DecryptWord;
      BitsOfBytes(EncryptWord(Bits(block)));
      BitsOfBytes(DecryptWord(Bits(block)));
      WordRoundTrip(Bits(block));
      BytesOfBits(block);
    }

    method Load(block: seq<Byte>) returns (permuted: Word)
      requires |block| == 8
      ensures permuted == Initial(Bits(block))
    {
      PermutationsSelect();
      hide IP;
      var word: seq<bool> := [];
      for i := 0 to 8
        invariant |word| == 8 * i && forall k | 0 <= k < 8 * i :: word[k] == block[k / 8][k % 8]
      {
        word := word + block[i];
      }
      permuted := Permute(IP, word);
    }

    method Store(combined: Word) returns (block: seq<Byte>)
      ensures block == Bytes(Final(combined))
    {
      PermutationsSelect();
      hide FP;
      var bits := Permute(FP, combined);
      block := [];
      for i := 0 to 8
        invariant block == Bytes(Final(combined))[..i]
      {
        block := block + [bits[8 * i..8 * i + 8]];
      }
    }

    method EncryptBlock(block: seq<Byte>) returns (out: seq<Byte>)
      requires Valid() && |block| == 8
      ensures out == EncryptedBlock(block)
    {
      hide Feistel, Xor, Initial, Final, Select, IP, FP;
      var word := Load(block);
      var right: Half, left: Half := word[..32], word[32..];
      for round := 16 downto 0
        invariant EncryptRounds(Halves(left, right), round) == EncryptRounds(Split(Initial(Bits(block))), 16)
      {
        var f := ComputeFeistel(left, round);
        left, right := Xor(right, f), left;
      }
      out := Store(right + left);
    }

    method DecryptBlock(block: seq<Byte>) returns (out: seq<Byte>)
      requires Valid() && |block| == 8
      ensures out == DecryptedBlock(block)
    {
      hide Feistel, Xor, Initial, Final, Select, IP, FP;
      var word := Load(block);
      var right: Half, left: Half := word[..32], word[32..];
      for round := 0 to 16
        invariant Halves(left, right) == DecryptRounds(Split(Initial(Bits(block))), round)
      {
        var f := ComputeFeistel(right, round);
        left, right := right, Xor(left, f);
      }
      out := Store(right + left);
    }

    // ---- Electronic codebook ----------------------------------------------------------------------------------

    function EncryptedBlocks(bytes: seq<Byte>): (out: seq<Byte>)
      requires Valid() && |bytes| % 8 == 0
      ensures |out| == |bytes|
    {
      if bytes == [] then [] else EncryptedBlock(bytes[..8]) + EncryptedBlocks(bytes[8..])
    }

    function DecryptedBlocks(bytes: seq<Byte>): (out: seq<Byte>)
      requires Valid() && |bytes| % 8 == 0
      ensures |out| == |bytes|
    {
      if bytes == [] then [] else DecryptedBlock(bytes[..8]) + DecryptedBlocks(bytes[8..])
    }

    /** A length that is not a multiple of eight gives nothing. */
    function Encrypted(bytes: seq<Byte>): seq<Byte>
      requires Valid()
    {
      if |bytes| % 8 != 0 then [] else EncryptedBlocks(bytes)
    }

    function Decrypted(bytes: seq<Byte>): seq<Byte>
      requires Valid()
    {
      if |bytes| % 8 != 0 then [] else DecryptedBlocks(bytes)
    }

    lemma {:induction false} BlocksRoundTrip(bytes: seq<Byte>)
      requires Valid() && |bytes| % 8 == 0
      ensures DecryptedBlocks(EncryptedBlocks(bytes)) == bytes && EncryptedBlocks(DecryptedBlocks(bytes)) == bytes
    {
      hide EncryptedBlock, DecryptedBlock;
      if bytes != [] {
        var head, rest := bytes[..8], bytes[8..];
        BlockRoundTrip(head);
        BlocksRoundTrip(rest);
        var e, d := EncryptedBlocks(bytes), DecryptedBlocks(bytes);
        assert e[..8] == EncryptedBlock(head) && e[8..] == EncryptedBlocks(rest);
        assert d[..8] == DecryptedBlock(head) && d[8..] == DecryptedBlocks(rest);
        assert bytes == head + rest;
      }
    }

    /** Each direction undoes the other exactly on the messages made of whole blocks. */
    lemma EcbRoundTrip(bytes: seq<Byte>)
      requires Valid()
      ensures Decrypted(Encrypted(bytes)) == bytes <==> |bytes| % 8 == 0
      ensures Encrypted(Decrypted(bytes)) == bytes <==> |bytes| % 8 == 0
    {
      if |bytes| % 8 == 0 {
        BlocksRoundTrip(bytes);
      }
    }

    method EncryptECB(plaintext: seq<Byte>) returns (out: seq<Byte>)
      requires Valid()
      ensures out == Encrypted(plaintext)
    {
      hide EncryptedBlock;
      out := [];
      if plaintext == [] || |plaintext| % 8 != 0 {
        return;
      }
      var offset := 0;
      while offset < |plaintext|
        invariant offset <= |plaintext| && offset % 8 == 0
        invariant EncryptedBlocks(plaintext) == out + EncryptedBlocks(plaintext[offset..])
      {
        var block := EncryptBlock(plaintext[offset..offset + 8]);
        assert plaintext[offset..][..8] == plaintext[offset..offset + 8];
        assert plaintext[offset..][8..] == plaintext[offset + 8..];
        out := out + block;
        offset := offset + 8;
      }
    }

    method DecryptECB(ciphertext: seq<Byte>) returns (out: seq<Byte>)
      requires Valid()
      ensures out == Decrypted(ciphertext)
    {
      hide DecryptedBlock;
      out := [];
      if ciphertext == [] || |ciphertext| % 8 != 0 {
        return;
      }
      var offset := 0;
      while offset < |ciphertext|
        invariant offset <= |ciphertext| && offset % 8 == 0
        invariant DecryptedBlocks(ciphertext) == out + DecryptedBlocks(ciphertext[offset..])
      {
        var block := DecryptBlock(ciphertext[offset..offset + 8]);
        assert ciphertext[offset..][..8] == ciphertext[offset..offset + 8];
        assert ciphertext[offset..][8..] == ciphertext[offset + 8..];
        out := out + block;
        offset := offset + 8;
      }
    }
  }
}
