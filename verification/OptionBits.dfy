/** An appraisal's rolled option bits: three bits for each of ten gates, and what the stat calculator reads back
    from them. */
module OptionBits {
  import opened Items

  const GATES := 10
  const BASELINE_TIER := 2
  const BASELINE_PATTERN1 := 0x12492492
  const BASELINE_PATTERN2 := 0x52492492
  const ROLL_LIMIT := 0x4000_0000

  type Tier = t: nat | t < 8

  /** A roll from 0 to 999 to its tier. */
  function BucketTier(roll: int): Tier {
    if roll <= 109 then 0
    else if roll <= 259 then 1
    else if roll <= 459 then 2
    else if roll <= 709 then 3
    else if roll <= 939 then 4
    else if roll <= 969 then 5
    else if roll <= 989 then 6
    else 7
  }

  function ActivatedGateCount(roll: int): nat {
    if roll <= 299 then 0
    else if roll <= 639 then 1
    else if roll <= 839 then 2
    else if roll <= 939 then 3
    else if roll <= 969 then 4
    else if roll <= 974 then 5
    else if roll <= 979 then 6
    else if roll <= 984 then 7
    else if roll <= 989 then 8
    else if roll <= 994 then 9
    else 10
  }

  const TIER_SHARES := [110, 150, 200, 250, 230, 30, 20, 10]
  const COUNT_SHARES := [300, 340, 200, 100, 30, 5, 5, 5, 5, 5, 5]

  /** How many of the rolls from 0 to n - 1 give a tier, or activate a number of gates. */
  function TierRolls(tier: nat, n: nat): nat
    decreases n
  {
    if n == 0 then 0 else TierRolls(tier, n - 1) + if BucketTier(n - 1) == tier then 1 else 0
  }

  function CountRolls(count: nat, n: nat): nat
    decreases n
  {
    if n == 0 then 0 else CountRolls(count, n - 1) + if ActivatedGateCount(n - 1) == count then 1 else 0
  }

  /** How much of the span from `start` of length `size` lies below n. */
  function Covered(start: nat, size: nat, n: nat): nat {
    if n <= start then 0 else if n <= start + size then n - start else size
  }

  lemma {:induction false} TierRollsCovered(tier: nat, start: nat, size: nat, n: nat)
    requires forall r | 0 <= r < n :: BucketTier(r) == tier <==> start <= r < start + size
    ensures TierRolls(tier, n) == Covered(start, size, n)
    decreases n
  {
    if n > 0 {
      TierRollsCovered(tier, start, size, n - 1);
    }
  }

  lemma {:induction false} CountRollsCovered(count: nat, start: nat, size: nat, n: nat)
    requires forall r | 0 <= r < n :: ActivatedGateCount(r) == count <==> start <= r < start + size
    ensures CountRolls(count, n) == Covered(start, size, n)
    decreases n
  {
    if n > 0 {
      CountRollsCovered(count, start, size, n - 1);
    }
  }

  /** Of the thousand rolls each tier, and each number of activated gates, has its documented share. */
  lemma SharesAreDocumented(tier: nat, count: nat)
    requires tier < |TIER_SHARES| && count < |COUNT_SHARES|
    ensures TierRolls(tier, 1000) == TIER_SHARES[tier] && CountRolls(count, 1000) == COUNT_SHARES[count]
  {
    hide TierRolls, CountRolls;
    var tierStart := [0, 110, 260, 460, 710, 940, 970, 990][tier];
    TierRollsCovered(tier, tierStart, TIER_SHARES[tier], 1000);
    var countStart := [0, 300, 640, 840, 940, 970, 975, 980, 985, 990, 995][count];
    CountRollsCovered(count, countStart, COUNT_SHARES[count], 1000);
  }

  function Pow8(n: nat): (p: nat)
    ensures p > 0
  {
    if n == 0 then 1 else 8 * Pow8(n - 1)
  }

  /** Gate i's tier in bits 3i to 3i + 2. */
  function Packed(tiers: seq<Tier>): (bits: nat)
    ensures bits < Pow8(|tiers|)
  {
    if tiers == [] then 0 else tiers[0] + 8 * Packed(tiers[1..])
  }

  /** Gate `i` weighs eight to the i: one tier more there adds exactly that. */
  lemma {:induction false} GateWeighs(tiers: seq<Tier>, i: nat)
    requires i < |tiers| && tiers[i] < 7
    ensures Packed(tiers[i := tiers[i] + 1]) == Packed(tiers) + Pow8(i)
  {
    var raised := tiers[i := tiers[i] + 1];
    if i > 0 {
      GateWeighs(tiers[1..], i - 1);
      assert raised[1..] == tiers[1..][i - 1 := tiers[i] + 1];
    } else {
      assert raised[1..] == tiers[1..];
    }
  }

  function Unpacked(bits: nat, gates: nat): (tiers: seq<Tier>)
    ensures |tiers| == gates
    decreases gates
  {
    if gates == 0 then [] else [bits % 8] + Unpacked(bits / 8, gates - 1)
  }

  lemma {:induction false} UnpackedPacked(tiers: seq<Tier>)
    ensures Unpacked(Packed(tiers), |tiers|) == tiers
  {
    if tiers != [] {
      UnpackedPacked(tiers[1..]);
      assert Packed(tiers) % 8 == tiers[0] && Packed(tiers) / 8 == Packed(tiers[1..]);
    }
  }

  /** The bits a roll stores: all baseline is stored as nothing. */
  function Stored(tiers: seq<Tier>): nat {
    var bits := Packed(tiers);
    if bits == BASELINE_PATTERN1 || bits == BASELINE_PATTERN2 then 0 else bits
  }

  /** The calculator's reading: the low thirty-two bits, each gate's distance from baseline; nothing stored is all
      baseline. */
  function Deviations(optionBits: nat): (deviations: seq<int>)
    ensures |deviations| == GATES
  {
    var bits := optionBits % WRAP;
    if bits == 0 then seq(GATES, _ => 0)
    else
      FromBaseline(Unpacked(bits, GATES))
  }

  function Repeated(t: Tier, n: nat): (tiers: seq<Tier>)
    ensures |tiers| == n
  {
    seq(n, _ => t)
  }

  lemma PowersOfEight()
    ensures Pow8(GATES) == ROLL_LIMIT
  {
    assert Pow8(5) == 32768;
    assert Pow8(10) == 8 * 8 * 8 * 8 * 8 * Pow8(5);
  }

  lemma Spread(w: nat, t: nat, p: nat)
    ensures w * (t + 8 * p) == t * w + 8 * w * p
  {
  }

  lemma {:induction false} PackedRepeated(t: Tier, n: nat)
    ensures 7 * Packed(Repeated(t, n)) == t * Pow8(n) - t
  {
    if n > 0 {
      PackedRepeated(t, n - 1);
      assert Repeated(t, n)[1..] == Repeated(t, n - 1);
      Spread(t, 0, Pow8(n - 1));
    }
  }

  /** Only the all-baseline roll is stored as another number than its bits, and only the all-zero roll packs to zero. */
  lemma StoredCases(tiers: seq<Tier>)
    requires |tiers| == GATES
    ensures Stored(tiers) == if tiers == Repeated(BASELINE_TIER, GATES) then 0 else Packed(tiers)
    ensures Packed(tiers) == 0 <==> tiers == Repeated(0, GATES)
    ensures Packed(tiers) < ROLL_LIMIT
  {
    hide Packed, Unpacked, Pow8, Repeated;
    PowersOfEight();
    PatternPacked();
    PackingTellsApart(tiers, Repeated(BASELINE_TIER, GATES));
    PackingTellsApart(tiers, Repeated(0, GATES));
  }

  lemma PatternPacked()
    ensures Packed(Repeated(BASELINE_TIER, GATES)) == BASELINE_PATTERN1 && Packed(Repeated(0, GATES)) == 0
  {
    hide Packed, Pow8, Repeated;
    PowersOfEight();
    PackedRepeated(BASELINE_TIER, GATES);
    PackedRepeated(0, GATES);
  }

  lemma PackingTellsApart(a: seq<Tier>, b: seq<Tier>)
    requires |a| == |b|
    ensures Packed(a) == Packed(b) <==> a == b
  {
    hide Packed, Unpacked;
    UnpackedPacked(a);
    UnpackedPacked(b);
  }

  function FromBaseline(tiers: seq<Tier>): (deviations: seq<int>)
    ensures |deviations| == |tiers|
  {
    seq(|tiers|, i requires 0 <= i < |tiers| => tiers[i] - BASELINE_TIER)
  }

  lemma DeviationsOfPacked(tiers: seq<Tier>)
    requires |tiers| == GATES && 0 < Packed(tiers) < WRAP
    ensures Deviations(Packed(tiers)) == FromBaseline(tiers)
  {
    UnpackedPacked(tiers);
    hide Packed, Unpacked;
  }

  /** What is read back is what was rolled exactly when not every gate rolled tier 0; every gate at 0 reads as
      baseline. */
  lemma RollReadsBackIff(tiers: seq<Tier>)
    requires |tiers| == GATES
    ensures Deviations(Stored(tiers)) == FromBaseline(tiers) <==> exists i :: 0 <= i < GATES && tiers[i] != 0
  {
    StoredCases(tiers);
    hide Packed, Stored;
    if tiers == Repeated(BASELINE_TIER, GATES) {
      assert tiers[0] != 0 && Deviations(0) == FromBaseline(tiers);
    } else if tiers == Repeated(0, GATES) {
      assert Deviations(0)[0] == 0 && FromBaseline(tiers)[0] == -2;
    } else {
      DeviationsOfPacked(tiers);
      assert exists i :: 0 <= i < GATES && tiers[i] != Repeated(0, GATES)[i];
    }
  }

  /** An item never appraised reads as five tiers above baseline at every gate. */
  lemma NeverAppraisedReadsAsTheBest()
    ensures forall i | 0 <= i < GATES :: Deviations(NEVER_APPRAISED)[i] == 5
  {
    assert NEVER_APPRAISED % WRAP == 0xFFFF_FFFF;
    PackedRepeated(7, GATES);
    UnpackedPacked(Repeated(7, GATES));
    PowersOfEight();
    UnpackedLow(0xFFFF_FFFF, GATES, 3);
    hide Packed, Unpacked, Pow8;
    assert Unpacked(0xFFFF_FFFF, GATES) == Repeated(7, GATES);
  }

  /** Bits above the gates are not read. */
  lemma {:induction false} UnpackedLow(bits: nat, gates: nat, above: nat)
    requires bits >= above * Pow8(gates)
    ensures Unpacked(bits, gates) == Unpacked(bits - above * Pow8(gates), gates)
    decreases gates
  {
    if gates > 0 {
      var x := above * Pow8(gates - 1);
      Eights(above, Pow8(gates - 1));
      assert above * Pow8(gates) == 8 * x;
      LowOfEight(bits, x);
      UnpackedLow(bits / 8, gates - 1, above);
    }
  }

  lemma Eights(a: nat, p: nat)
    ensures a * (8 * p) == 8 * (a * p)
  {
  }

  lemma LowOfEight(bits: nat, x: nat)
    requires bits >= 8 * x
    ensures (bits - 8 * x) % 8 == bits % 8 && (bits - 8 * x) / 8 == bits / 8 - x
  {
  }

  // ---- Rolling ------------------------------------------------------------------------------------------------

  method EligibleGates(scales: seq<int>) returns (eligible: seq<nat>)
    requires |scales| == GATES
    ensures forall g: nat :: g in eligible <==> g < GATES && scales[g] != 0
    ensures forall i, j | 0 <= i < j < |eligible| :: eligible[i] < eligible[j]
  {
    eligible := [];
    for gate := 0 to GATES
      invariant forall g: nat :: g in eligible <==> g < gate && scales[g] != 0
      invariant forall i, j | 0 <= i < j < |eligible| :: eligible[i] < eligible[j]
    {
      if scales[gate] != 0 {
        assert forall i | 0 <= i < |eligible| :: eligible[i] in eligible;
        eligible := eligible + [gate];
      }
    }
  }

  /** The gates' tiers: a roll for each gate drawn, baseline for the rest. */
  function TiersRolled(activated: set<nat>, rolls: seq<int>): (tiers: seq<Tier>)
    requires |rolls| == GATES
    ensures |tiers| == GATES
  {
    seq(GATES, g requires 0 <= g < GATES => if g in activated then BucketTier(rolls[g]) else BASELINE_TIER)
  }

  /** What the gates from `gate` on add to the bits. */
  function Remaining(tiers: seq<Tier>, gate: nat): nat
    requires gate <= |tiers|
  {
    Pow8(gate) * Packed(tiers[gate..])
  }

  lemma PackOneMore(tiers: seq<Tier>, gate: nat)
    requires gate < |tiers|
    ensures Remaining(tiers, gate) == tiers[gate] * Pow8(gate) + Remaining(tiers, gate + 1)
    ensures Pow8(gate + 1) == Pow8(gate) * 8
  {
    assert tiers[gate..][1..] == tiers[gate + 1..];
    Spread(Pow8(gate), tiers[gate], Packed(tiers[gate + 1..]));
  }

  lemma PackEnds(tiers: seq<Tier>)
    ensures Remaining(tiers, 0) == Packed(tiers) && Remaining(tiers, |tiers|) == 0 && Pow8(0) == 1
  {
    assert tiers[0..] == tiers && tiers[|tiers|..] == [];
  }

  /** Packs the tiers gate by gate; what comes out is never the mark of an item nobody appraised. */
  method PackTiers(activated: set<nat>, rolls: seq<int>) returns (bits: nat)
    requires |rolls| == GATES
    ensures bits == Stored(TiersRolled(activated, rolls)) < ROLL_LIMIT
    ensures bits != NEVER_APPRAISED
  {
    hide Packed, Pow8, Remaining, BucketTier;
    ghost var tiers := TiersRolled(activated, rolls);
    PackEnds(tiers);
    StoredCases(tiers);
    bits := 0;
    var weight := 1;
    for gate := 0 to GATES
      invariant weight == Pow8(gate)
      invariant bits + Remaining(tiers, gate) == Packed(tiers)
    {
      var tier: nat := if gate in activated then BucketTier(rolls[gate]) else BASELINE_TIER;
      PackOneMore(tiers, gate);
      bits := bits + tier * weight;
      weight := weight * 8;
    }
    if bits == BASELINE_PATTERN1 || bits == BASELINE_PATTERN2 {
      bits := 0;
    }
  }

  /** Only the gates drawn can deviate from baseline, each by its own roll, unless every gate is drawn and rolls
      tier 0. */
  lemma RollsDeviate(activated: set<nat>, rolls: seq<int>)
    requires |rolls| == GATES
    ensures var read := Deviations(Stored(TiersRolled(activated, rolls)));
            (forall g: nat | g < GATES :: read[g] == if g in activated then BucketTier(rolls[g]) - BASELINE_TIER else 0)
            <==> exists g: nat :: g < GATES && !(g in activated && rolls[g] <= 109)
  {
    hide Stored, Deviations;
    var tiers := TiersRolled(activated, rolls);
    RollReadsBackIff(tiers);
    var rolled := FromBaseline(tiers);
    var read := Deviations(Stored(tiers));
    assert (forall g: nat | g < GATES :: read[g] == rolled[g]) <==> read == rolled;
    assert forall g: nat | g < GATES :: tiers[g] != 0 <==> !(g in activated && rolls[g] <= 109);
    assert forall g: nat | g < GATES :: rolled[g] == if g in activated then BucketTier(rolls[g]) - BASELINE_TIER else 0;
  }
}
