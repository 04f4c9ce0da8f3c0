/** What validation establishes about a queued job, and what its transaction then does. */
module Plans {
  import opened Wrappers
  import opened Items
  import opened SlotRows
  import opened Protocol
  import opened Ledger

  // ---- Validation --------------------------------------------------------------------------------

  lemma {:induction false} CandidatesWellBuilt(items: ItemTable, p: Player, wires: seq<uint32>, rolls: seq<Rolled>)
    requires OwnSlots(p.session.ch, p.character.slots)
    ensures forall c | c in Candidates(items, p, wires, rolls) ::
              c.slot in p.character.slots && !c.slot.Vault? && c.slot.owner == p.session.ch
              && c.original.bits == NEVER_APPRAISED && c.appraised == c.original.(bits := c.appraised.bits)
              && c.appraised.bits < WRAP
    decreases |wires|
  {
    if wires != [] && rolls != [] {
      CandidatesWellBuilt(items, p, wires[1..], rolls[1..]);
    }
  }

  /** Every job a request queues is well-built, whatever the caches hold. */
  lemma ValidationBuilds(items: ItemTable, s: State, p: Player, req: Request)
    requires OwnSlots(p.session.ch, p.character.slots) && WorkFor(items, s, p, req).Some?
    ensures WellBuilt(p.session.ch, WorkFor(items, s, p, req).value)
  {
    if req.AppraiseItems? {
      CandidatesWellBuilt(items, p, req.wires, req.rolls);
      hide StackedInto, PickUpWork, WithdrawWork, DepositWork, BuyWork, SellWork, DropWork, MoveWork;
    }
  }

  lemma ValidationIsRooted(items: ItemTable, s: State, p: Player, req: Request)
    requires PlayerRooted(s.db, p) && WorkFor(items, s, p, req).Some?
    ensures Rooted(s.db, p.session.ch, WorkFor(items, s, p, req).value)
  {
    hide StackedInto;
    if req.AppraiseItems? {
      CandidatesWellBuilt(items, p, req.wires, req.rolls);
    }
  }

  /** And it believes only in rows that exist when the caches do. */
  lemma ValidationIsSound(items: ItemTable, s: State, p: Player, req: Request)
    requires PlayerRooted(s.db, p) && WorkFor(items, s, p, req).Some?
    ensures WellBuilt(p.session.ch, WorkFor(items, s, p, req).value)
    ensures Rooted(s.db, p.session.ch, WorkFor(items, s, p, req).value)
  {
    ValidationBuilds(items, s, p, req);
    ValidationIsRooted(items, s, p, req);
    hide WorkFor, WellBuilt, Rooted;
  }

  // ---- Appraisals ----------------------------------------------------------------------------------

  /** The landed candidates' saves are exactly a run of the transaction, and their fees fit the snapshot's money. */
  lemma {:induction false} LandRuns(db: Db, candidates: seq<Candidate>, money: int, fee: nat)
    ensures RunAll(db, LandedWrites(Land(db, candidates, money, fee))).Some?
    ensures forall c | c in Land(db, candidates, money, fee) :: c in candidates
    ensures Land(db, candidates, money, fee) == [] || fee + Fees(Land(db, candidates, money, fee)) <= money
    decreases |candidates|
  {
    if candidates != [] {
      var c := candidates[0];
      var next := RunWrite(db, Save(c.slot, Some(c.original), c.appraised));
      if fee + c.fee > money || next.None? {
        LandRuns(db, candidates[1..], money, fee);
      } else {
        LandRuns(next.value, candidates[1..], money, fee + c.fee);
      }
    }
  }

  lemma {:induction false} LandedWritesAre(landed: seq<Candidate>)
    ensures forall w | w in LandedWrites(landed) ::
              w.Save? && exists c :: c in landed && w == Save(c.slot, Some(c.original), c.appraised)
    ensures forall e | e in LandedEffects(landed) :: e.Put? && exists c :: c in landed && e == Put(c.slot, c.appraised)
  {
    if landed != [] {
      LandedWritesAre(landed[1..]);
    }
  }

  // ---- Quest rewards ---------------------------------------------------------------------------------

  /** A landed run of saves into the character's bag, grounded from where it starts. */
  predicate BagSaves(db: Db, ch: int, ws: seq<Write>) {
    RunAll(db, ws).Some? && AllGrounded(db, ws) && forall w | w in ws :: w.Save? && w.slot.Bag? && w.slot.owner == ch
  }

  lemma {:induction false} FreeSlotIsFree(ch: int, slots: map<Slot, Item>, i: nat)
    ensures var r := FreeSlotFrom(ch, slots, i); r.Some? ==> r.value.Bag? && r.value.owner == ch && r.value !in slots
    decreases BAG_SLOTS - i
  {
    if i < BAG_SLOTS {
      if Bag(ch, i) in slots {
        FreeSlotIsFree(ch, slots, i + 1);
      }
    }
  }

  lemma {:induction false} StackSlotIsStack(ch: int, slots: map<Slot, Item>, order: seq<uint32>, item: uint32)
    ensures var r := StackSlot(ch, slots, order, item);
            r.Some? ==> r.value.Bag? && r.value.owner == ch && r.value in slots
                        && slots[r.value].id == item && !slots[r.value].equippable
  {
    if order != [] {
      StackSlotIsStack(ch, slots, order[1..], item);
    }
  }

  lemma {:induction false} GearLands(db: Db, ch: int, slots: map<Slot, Item>, item: uint32, units: nat)
    ensures BagSaves(db, ch, GrantGear(db, ch, slots, item, units))
    decreases units
  {
    FreeSlotIsFree(ch, slots, 0);
    var free := FreeSlotFrom(ch, slots, 0);
    if units > 0 && free.Some? {
      var gear := Item(item, 0, 0, true, 0, NEVER_APPRAISED);
      var next := RunWrite(db, Save(free.value, None, gear));
      if next.Some? {
        GearLands(next.value, ch, slots[free.value := gear], item, units - 1);
      }
    }
  }

  lemma GrantLands(items: ItemTable, db: Db, ch: int, slots: map<Slot, Item>, order: seq<uint32>, reward: Reward)
    requires slots.Keys <= db.rows.Keys
    ensures BagSaves(db, ch, Grant(items, db, ch, slots, order, reward))
  {
    if reward.item != 0 && reward.item in items {
      if items[reward.item].stackable {
        FreeSlotIsFree(ch, slots, 0);
        StackSlotIsStack(ch, slots, order, reward.item);
        var ws := Grant(items, db, ch, slots, order, reward);
        if ws != [] {
          assert ws[1..] == [];
        }
      } else {
        GearLands(db, ch, slots, reward.item, if reward.count > 0 then reward.count else 1);
      }
    }
  }

  lemma {:induction false} GrantedKeys(db: Db, ch: int, slots: map<Slot, Item>, ws: seq<Write>)
    requires BagSaves(db, ch, ws) && slots.Keys <= db.rows.Keys
    ensures Granted(slots, ws).Keys <= RunAll(db, ws).value.rows.Keys
    decreases |ws|
  {
    if ws != [] {
      var w := ws[0];
      assert w in ws;
      assert forall v | v in ws[1..] :: v in ws;
      GrantedKeys(RunWrite(db, w).value, ch, slots[w.slot := w.item], ws[1..]);
    }
  }

  /** All rewards together land as one grounded run of bag saves, skipping what does not fit. */
  lemma {:induction false} RewardsLand(items: ItemTable, db: Db, ch: int, slots: map<Slot, Item>, order: seq<uint32>,
                                       rewards: seq<Reward>)
    requires slots.Keys <= db.rows.Keys
    ensures BagSaves(db, ch, GrantAll(items, db, ch, slots, order, rewards))
    decreases |rewards|
  {
    if rewards != [] {
      GrantLands(items, db, ch, slots, order, rewards[0]);
      var ws := Grant(items, db, ch, slots, order, rewards[0]);
      var next := RunAll(db, ws).value;
      GrantedKeys(db, ch, slots, ws);
      var numbers := order + SlotNumbers(ws);
      RewardsLand(items, next, ch, Granted(slots, ws), numbers, rewards[1..]);
      var more := GrantAll(items, next, ch, Granted(slots, ws), numbers, rewards[1..]);
      RunAllConcat(db, ws, more);
      GroundedConcat(db, ws, more);
    }
  }

  lemma {:induction false} GearIsSaved(db: Db, ch: int, slots: map<Slot, Item>, item: uint32, units: nat)
    ensures forall w | w in GrantGear(db, ch, slots, item, units) :: w.Save?
    decreases units
  {
    var free := FreeSlotFrom(ch, slots, 0);
    if units > 0 && free.Some? {
      var gear := Item(item, 0, 0, true, 0, NEVER_APPRAISED);
      var next := RunWrite(db, Save(free.value, None, gear));
      if next.Some? {
        GearIsSaved(next.value, ch, slots[free.value := gear], item, units - 1);
      }
    }
  }

  /** Whatever the snapshot believes, rewards are saves and nothing else. */
  lemma {:induction false} RewardsAreSaved(items: ItemTable, db: Db, ch: int, slots: map<Slot, Item>,
                                           order: seq<uint32>, rewards: seq<Reward>)
    ensures forall w | w in GrantAll(items, db, ch, slots, order, rewards) :: w.Save?
    decreases |rewards|
  {
    if rewards != [] {
      var reward := rewards[0];
      GearIsSaved(db, ch, slots, reward.item, if reward.count > 0 then reward.count else 1);
      var ws := Grant(items, db, ch, slots, order, reward);
      var next := RunAll(db, ws);
      if next.Some? {
        RewardsAreSaved(items, next.value, ch, Granted(slots, ws), order + SlotNumbers(ws), rewards[1..]);
      }
    }
  }

  // ---- Every plan is grounded and only credits non-negative sums ----------------------------------------

  lemma PlanIsGrounded(items: ItemTable, db: Db, ch: int, work: Work)
    requires WellBuilt(ch, work) && Rooted(db, ch, work) && Plan(items, db, ch, work).Some?
    ensures AllGrounded(db, Plan(items, db, ch, work).value.0)
  {
    match work
    case Appraise(candidates, money) =>
      var landed := Land(db, candidates, money, 0);
      LandRuns(db, candidates, money, 0);
      LandedWritesAre(landed);
      GroundedBefore(db, db, LandedWrites(landed) + [Spend(Wallet(ch), Fees(landed))]);
    case TurnIn(snapshot, quest, order) =>
      RewardsLand(items, db, ch, snapshot, order, quest.rewards);
      var ws := GrantAll(items, db, ch, snapshot, order, quest.rewards);
      var pay := if quest.cegel != 0 then [Credit(Wallet(ch), quest.cegel)] else [];
      GroundedConcat(db, ws, pay);
    case OpenBank(_) =>
    case _ => GroundedBefore(db, db, Writes(ch, work));
  }

  /** A transfer moves no negative sum. */
  predicate TransfersForward(work: Work) {
    work.MoneyOut? || work.MoneyIn? ==> 0 <= work.amount
  }

  lemma PlanCreditsForward(items: ItemTable, db: Db, ch: int, work: Work)
    requires TransfersForward(work) && Plan(items, db, ch, work).Some?
    ensures forall w | w in Plan(items, db, ch, work).value.0 && w.Credit? :: 0 <= w.amount
  {
    match work
    case Appraise(candidates, money) => LandedWritesAre(Land(db, candidates, money, 0));
    case TurnIn(snapshot, quest, order) => RewardsAreSaved(items, db, ch, snapshot, order, quest.rewards);
    case _ =>
  }

  // ---- Effects mirror rows --------------------------------------------------------------------------------

  lemma {:induction false} SaveEffectsAre(ws: seq<Write>)
    ensures forall e | e in SaveEffects(ws) :: e.Put? && exists w :: w in ws && w.Save? && e == Put(w.slot, w.item)
  {
    if ws != [] {
      SaveEffectsAre(ws[1..]);
    }
  }

  lemma {:induction false} SavedRowsExist(db: Db, ws: seq<Write>, w: Write)
    requires RunAll(db, ws).Some? && w in ws && w.Save?
    ensures w.slot in RunAll(db, ws).value.rows
    decreases |ws|
  {
    var next := RunWrite(db, ws[0]).value;
    if ws[0] == w {
      RowsStay(next, ws[1..]);
    } else {
      SavedRowsExist(next, ws[1..], w);
    }
  }

  /** What a commit tells memory to put somewhere is a row of the committed tables, owned by the issuing character. */
  lemma ReportIsRooted(items: ItemTable, db: Db, ch: int, work: Work)
    requires WellBuilt(ch, work) && Rooted(db, ch, work) && Perform(items, db, ch, work).Some?
    ensures forall e | e in Perform(items, db, ch, work).value.1 ::
              EffectRooted(Perform(items, db, ch, work).value.0, e, ch)
  {
    var plan := Plan(items, db, ch, work).value.0;
    var after := RunAll(db, plan).value;
    forall w | w in plan && w.Save? ensures w.slot in after.rows {
      SavedRowsExist(db, plan, w);
    }
    match work
    case Appraise(candidates, money) =>
      LandRuns(db, candidates, money, 0);
      LandedWritesAre(Land(db, candidates, money, 0));
      RowsStay(db, plan);
    case TurnIn(snapshot, quest, order) =>
      RewardsLand(items, db, ch, snapshot, order, quest.rewards);
      SaveEffectsAre(plan);
    case OpenBank(_) =>
    case Move(source, dest, sourceItem, destItem) =>
      MoveReportIsRooted(ch, work, plan, after);
    case _ =>
      forall e | e in Effects(ch, work, after) && e.Put? ensures exists w :: w in plan && w.Save? && w.slot == e.slot {
        PutHasSave(ch, work, after, e);
      }
  }

  lemma MoveReportIsRooted(ch: int, work: Work, plan: seq<Write>, after: Db)
    requires WellBuilt(ch, work) && work.Move? && plan == Writes(ch, work)
    requires forall w | w in plan && w.Save? :: w.slot in after.rows
    ensures forall e | e in Effects(ch, work, after) :: EffectRooted(after, e, ch)
  {
    if work.sourceItem.Some? && work.destItem.Some? {
      assert plan[0].Save? && plan[0].slot == work.source && plan[1].Save? && plan[1].slot == work.dest;
    } else if work.sourceItem.Some? {
      assert plan[0].Save? && plan[0].slot == work.dest;
    } else if work.destItem.Some? {
      assert plan[0].Save? && plan[0].slot == work.source;
    }
  }

  lemma PutHasSave(ch: int, work: Work, db: Db, e: Effect)
    requires e in Effects(ch, work, db) && e.Put? && !work.Move?
    ensures exists w :: w in Writes(ch, work) && w.Save? && w.slot == e.slot
  {
    var ws := Writes(ch, work);
    assert |ws| >= 1 && ((ws[0].Save? && ws[0].slot == e.slot) || (|ws| >= 2 && ws[1].Save? && ws[1].slot == e.slot));
    assert ws[0] in ws;
  }
}
