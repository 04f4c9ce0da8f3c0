/** Which of the listed slots an appraisal rolls, which rolls land, and what they cost. */
module Appraisals {
  import opened Wrappers
  import opened Items
  import opened SlotRows
  import opened Protocol
  import opened Plans
  import opened Gates

  /** The wire slot holds an item that may be appraised: known, not stackable, below level ninety, and never
      appraised. */
  predicate Appraisable(items: ItemTable, p: Player, wire: uint32) {
    8 <= wire <= 47
    && var slot := WireSlot(p.session.ch, wire);
       slot in p.character.slots
       && var content := p.character.slots[slot];
          content.id in items && !items[content.id].stackable && items[content.id].minLevel < 90
          && content.bits == NEVER_APPRAISED
  }

  /** What appraising that slot with this roll means: its item with nothing but the roll changed, for its sell price. */
  predicate Rerolls(items: ItemTable, p: Player, wire: uint32, roll: Rolled, c: Candidate) {
    c.slot == WireSlot(p.session.ch, wire) && c.slot in p.character.slots && c.original == p.character.slots[c.slot]
    && c.original.id in items && c.fee == items[c.original.id].sellPrice
    && c.appraised == c.original.(bits := roll)
  }

  ghost predicate Increasing(at: seq<nat>) {
    forall i, j | 0 <= i < j < |at| :: at[i] < at[j]
  }

  /** The candidates are those of the positions `at`, in order, and these are exactly the appraisable ones with a
      roll. */
  ghost predicate ListedAt(items: ItemTable, p: Player, wires: seq<uint32>, rolls: seq<Rolled>, cs: seq<Candidate>,
                           at: seq<nat>)
  {
    Increasing(at) && |at| == |cs|
    && (forall i: nat :: i in at <==> i < |wires| && i < |rolls| && Appraisable(items, p, wires[i]))
    && forall k | 0 <= k < |cs| ::
         at[k] < |wires| && at[k] < |rolls| && Rerolls(items, p, wires[at[k]], rolls[at[k]], cs[k])
  }

  function Later(at: seq<nat>): (later: seq<nat>)
    ensures |later| == |at| && forall k | 0 <= k < |at| :: later[k] == at[k] + 1
  {
    seq(|at|, k requires 0 <= k < |at| => at[k] + 1)
  }

  lemma LaterHas(at: seq<nat>, i: nat)
    ensures i in Later(at) <==> i > 0 && i - 1 in at
  {
    if i > 0 && i - 1 in at {
      var k :| 0 <= k < |at| && at[k] == i - 1;
      assert Later(at)[k] == i;
    }
  }

  lemma ListedLater(items: ItemTable, p: Player, wires: seq<uint32>, rolls: seq<Rolled>, cs: seq<Candidate>,
                    at: seq<nat>)
    requires wires != [] && rolls != [] && !Appraisable(items, p, wires[0])
    requires ListedAt(items, p, wires[1..], rolls[1..], cs, at)
    ensures ListedAt(items, p, wires, rolls, cs, Later(at))
  {
    hide Appraisable, Rerolls;
    forall i: nat
      ensures i in Later(at) <==> i < |wires| && i < |rolls| && Appraisable(items, p, wires[i])
    {
      LaterHas(at, i);
    }
  }

  lemma WithFirst(at: seq<nat>, i: nat)
    ensures i in [0] + Later(at) <==> i == 0 || i - 1 in at
    ensures Increasing(at) ==> Increasing([0] + Later(at))
  {
    LaterHas(at, i);
  }

  lemma ListedNow(items: ItemTable, p: Player, wires: seq<uint32>, rolls: seq<Rolled>, cs: seq<Candidate>, at: seq<nat>,
                  c: Candidate)
    requires wires != [] && rolls != [] && Appraisable(items, p, wires[0]) && Rerolls(items, p, wires[0], rolls[0], c)
    requires ListedAt(items, p, wires[1..], rolls[1..], cs, at)
    ensures ListedAt(items, p, wires, rolls, [c] + cs, [0] + Later(at))
  {
    hide Appraisable, Rerolls, Increasing, Later;
    WithFirst(at, 0);
    var now := [0] + Later(at);
    forall i: nat ensures i in now <==> i < |wires| && i < |rolls| && Appraisable(items, p, wires[i]) {
      WithFirst(at, i);
    }
    forall k | 0 <= k < |now|
      ensures now[k] < |wires| && now[k] < |rolls| && Rerolls(items, p, wires[now[k]], rolls[now[k]], ([c] + cs)[k])
    {
      if k > 0 {
        assert now[k] == at[k - 1] + 1 && ([c] + cs)[k] == cs[k - 1];
      }
    }
  }

  /** Position by position: a listed slot becomes a candidate if and only if it may be appraised and has a roll; the
      candidate then is that slot's item with that roll for its sell price, in the order listed. */
  lemma {:induction false} CandidatesAre(items: ItemTable, p: Player, wires: seq<uint32>, rolls: seq<Rolled>)
    ensures exists at :: ListedAt(items, p, wires, rolls, Candidates(items, p, wires, rolls), at)
    decreases |wires|
  {
    if wires == [] || rolls == [] {
      var none: seq<nat> := [];
      assert Candidates(items, p, wires, rolls) == [];
      assert ListedAt(items, p, wires, rolls, Candidates(items, p, wires, rolls), none);
    } else {
      CandidatesAre(items, p, wires[1..], rolls[1..]);
      var rest := Candidates(items, p, wires[1..], rolls[1..]);
      var at :| ListedAt(items, p, wires[1..], rolls[1..], rest, at);
      if Appraisable(items, p, wires[0]) {
        var c := Candidates(items, p, wires, rolls)[0];
        assert Candidates(items, p, wires, rolls) == [c] + rest;
        ListedNow(items, p, wires, rolls, rest, at, c);
        assert ListedAt(items, p, wires, rolls, Candidates(items, p, wires, rolls), [0] + Later(at));
      } else {
        assert Candidates(items, p, wires, rolls) == rest;
        ListedLater(items, p, wires, rolls, rest, at);
        assert ListedAt(items, p, wires, rolls, Candidates(items, p, wires, rolls), Later(at));
      }
    }
  }

  // ---- What lands ---------------------------------------------------------------------------------------------

  /** One by one: a candidate lands if and only if its fee still fits what the ones before it left of the money
      seen, and its row still is its original. */
  lemma {:induction false} LandsOneByOne(db: Db, before: seq<Candidate>, c: Candidate, money: int, fee: nat)
    ensures var landed := Land(db, before, money, fee);
            var now := RunAll(db, LandedWrites(landed));
            now.Some?
            && Land(db, before + [c], money, fee)
               == landed + if fee + Fees(landed) + c.fee <= money
                              && RunWrite(now.value, Save(c.slot, Some(c.original), c.appraised)).Some? then [c] else []
    decreases |before|
  {
    if before == [] {
      assert before + [c] == [c] && [c][1..] == [];
    } else {
      var first := before[0];
      assert (before + [c])[0] == first && (before + [c])[1..] == before[1..] + [c];
      var next := RunWrite(db, Save(first.slot, Some(first.original), first.appraised));
      if fee + first.fee > money || next.None? {
        LandsOneByOne(db, before[1..], c, money, fee);
      } else {
        LandsOneByOne(next.value, before[1..], c, money, fee + first.fee);
        var rest := Land(next.value, before[1..], money, fee + first.fee);
        assert LandedWrites([first] + rest)[1..] == LandedWrites(rest);
      }
    }
  }

  function SellPrices(items: ItemTable, cs: seq<Candidate>): nat {
    if cs == [] then 0
    else (if cs[0].original.id in items then items[cs[0].original.id].sellPrice else 0) + SellPrices(items, cs[1..])
  }

  lemma {:induction false} FeesAreSellPrices(items: ItemTable, cs: seq<Candidate>)
    requires forall c | c in cs :: c.original.id in items && c.fee == items[c.original.id].sellPrice
    ensures Fees(cs) == SellPrices(items, cs)
  {
    if cs != [] {
      assert cs[0] in cs;
      FeesAreSellPrices(items, cs[1..]);
    }
  }

  /** A request lists one to eight slots. When its job commits, the wallet is debited exactly the sell prices of the
      items whose rolls landed, of which there is at least one. */
  lemma AppraisalCharges(items: ItemTable, s: State, p: Player, wires: seq<uint32>, rolls: seq<Rolled>, db: Db)
    ensures var work := WorkFor(items, s, p, AppraiseItems(wires, rolls));
            (work.Some? <==> 1 <= |wires| <= 8)
            && (work.Some? && Perform(items, db, p.session.ch, work.value).Some?
                ==> var landed := Land(db, work.value.candidates, p.character.money, 0);
                    var wallet := Wallet(p.session.ch);
                    work.value.candidates == Candidates(items, p, wires, rolls)
                    && landed != [] && wallet in db.money && SellPrices(items, landed) <= p.character.money
                    && Perform(items, db, p.session.ch, work.value).value.0.money
                       == db.money[wallet := db.money[wallet] - SellPrices(items, landed)])
  {
    var work := WorkFor(items, s, p, AppraiseItems(wires, rolls));
    hide Perform, Land, Candidates;
    if work.Some? && Perform(items, db, p.session.ch, work.value).Some? {
      var cs, money := Candidates(items, p, wires, rolls), p.character.money;
      AppraisalIsPaid(items, db, p.session.ch, cs, money);
      LandRuns(db, cs, money, 0);
      CandidatesAre(items, p, wires, rolls);
      FeesOfCandidates(items, p, wires, rolls, cs);
      FeesAreSellPrices(items, Land(db, cs, money, 0));
    }
  }

  lemma FeesOfCandidates(items: ItemTable, p: Player, wires: seq<uint32>, rolls: seq<Rolled>, cs: seq<Candidate>)
    requires exists at :: ListedAt(items, p, wires, rolls, cs, at)
    ensures forall c | c in cs :: c.original.id in items && c.fee == items[c.original.id].sellPrice
  {
    var at :| ListedAt(items, p, wires, rolls, cs, at);
    forall c | c in cs ensures c.original.id in items && c.fee == items[c.original.id].sellPrice {
      var k :| 0 <= k < |cs| && cs[k] == c;
      assert Rerolls(items, p, wires[at[k]], rolls[at[k]], cs[k]);
    }
  }
}
