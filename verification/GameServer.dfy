/** The handlers, the DB thread and the completion callbacks as they run, on mutable tables, caches and queues. Each
    method is proved to make exactly the step of Protocol that its name says. */
module GameServer {
  import opened Wrappers
  import opened Items
  import opened SlotRows
  import opened Protocol
  import opened Sessions
  import opened Ledger
  import opened Plans
  import opened Appraisals
  import opened Accounting
  import opened Conservation
  import opened CacheRuns

  /** The item tables, balances and quest flags behind the repositories, with one transaction at a time. */
  class Database {
    var rows: map<Slot, Row>
    var money: map<Account, int>
    var flags: set<(int, int)>
    var undo: Db

    function Value(): Db
      reads this
    {
      Db(rows, money, flags)
    }

    constructor (value: Db)
      ensures Value() == value
    {
      rows, money, flags, undo := value.rows, value.money, value.flags, value;
    }

    method Begin()
      modifies this`undo
      ensures undo == Value()
    {
      undo := Value();
    }

    method Rollback()
      modifies this
      ensures Value() == old(undo)
    {
      rows, money, flags := undo.rows, undo.money, undo.flags;
    }

    method SaveSlot(slot: Slot, expected: Option<Item>, item: Item) returns (ok: bool)
      modifies this`rows
      ensures ok == RunWrite(old(Value()), Save(slot, expected, item)).Some?
      ensures Value() == if ok then RunWrite(old(Value()), Save(slot, expected, item)).value else old(Value())
    {
      if slot in rows && rows[slot] != Columns(slot, expected) {
        return false;
      }
      rows := rows[slot := Columns(slot, Some(item))];
      return true;
    }

    method ClearSlot(slot: Slot, expected: Option<Item>) returns (ok: bool)
      modifies this`rows
      ensures ok == RunWrite(old(Value()), Clear(slot, expected)).Some?
      ensures Value() == if ok then RunWrite(old(Value()), Clear(slot, expected)).value else old(Value())
    {
      if slot !in rows || rows[slot] != Columns(slot, expected) {
        return false;
      }
      rows := rows[slot := EMPTY_ROW];
      return true;
    }

    method TrySpendMoney(account: Account, amount: int) returns (ok: bool)
      modifies this`money
      ensures ok == RunWrite(old(Value()), Spend(account, amount)).Some?
      ensures Value() == if ok then RunWrite(old(Value()), Spend(account, amount)).value else old(Value())
    {
      if account !in money || money[account] < amount {
        return false;
      }
      money := money[account := money[account] - amount];
      return true;
    }

    method AddMoney(account: Account, amount: int) returns (ok: bool)
      modifies this`money
      ensures ok == RunWrite(old(Value()), Credit(account, amount)).Some?
      ensures Value() == if ok then RunWrite(old(Value()), Credit(account, amount)).value else old(Value())
    {
      if account !in money {
        return false;
      }
      money := money[account := money[account] + amount];
      return true;
    }

    /** Reads the bank's rows in whatever order they come; a cleared row's item id is NULL, and reading it throws. */
    method LoadAllItems(bank: int) returns (loaded: Option<map<Slot, Item>>)
      ensures loaded.Some? <==> forall s | s in rows && s.Vault? && s.owner == bank :: rows[s].itemId.Some?
      ensures loaded.Some? ==> loaded.value == LoadBank(Value(), bank).items
    {
      var all := set s | s in rows && s.Vault? && s.owner == bank;
      var items: map<Slot, Item> := map[];
      var pending := all;
      while pending != {}
        invariant pending <= all && items.Keys == all - pending
        invariant forall s | s in items :: rows[s].itemId.Some? && items[s] == Decode(rows[s]).value
      {
        var s :| s in pending;
        pending := pending - {s};
        var item := Decode(rows[s]);
        if item.None? {
          return None;
        }
        items := items[s := item.value];
      }
      assert forall s | s in rows && s.Vault? && s.owner == bank :: s in items;
      return Some(items);
    }

    method TryClaimFlag(ch: int, flag: int) returns (ok: bool)
      modifies this`flags
      ensures ok == ((ch, flag) !in old(flags)) && flags == old(flags) + {(ch, flag)}
    {
      ok := (ch, flag) !in flags;
      flags := flags + {(ch, flag)};
    }

    /** Runs the statements one by one until one of them matches nothing. */
    method Execute(ws: seq<Write>) returns (ok: bool)
      modifies this`rows, this`money
      ensures ok == RunAll(old(Value()), ws).Some?
      ensures ok ==> Value() == RunAll(old(Value()), ws).value
    {
      ok := true;
      var i := 0;
      while i < |ws| && ok
        invariant 0 <= i <= |ws|
        invariant ok ==> RunAll(old(Value()), ws) == RunAll(Value(), ws[i..])
        invariant !ok ==> RunAll(old(Value()), ws).None?
        invariant flags == old(flags)
      {
        assert ws[i..][1..] == ws[i + 1..];
        match ws[i] {
          case Save(slot, expected, item) => ok := SaveSlot(slot, expected, item);
          case Clear(slot, expected) => ok := ClearSlot(slot, expected);
          case Spend(account, amount) => ok := TrySpendMoney(account, amount);
          case Credit(account, amount) => ok := AddMoney(account, amount);
        }
        i := i + 1;
      }
    }

    /** Lands the candidates whose slot is unchanged and whose fee still fits. */
    method LandCandidates(candidates: seq<Candidate>, budget: int) returns (landed: seq<Candidate>, fee: nat)
      modifies this`rows
      ensures landed == Land(old(Value()), candidates, budget, 0) && fee == Fees(landed)
      ensures RunAll(old(Value()), LandedWrites(landed)) == Some(Value())
    {
      landed, fee := [], 0;
      for i := 0 to |candidates|
        invariant Land(old(Value()), candidates, budget, 0) == landed + Land(Value(), candidates[i..], budget, fee)
        invariant fee == Fees(landed)
        invariant RunAll(old(Value()), LandedWrites(landed)) == Some(Value())
      {
        var c := candidates[i];
        assert candidates[i..][0] == c && candidates[i..][1..] == candidates[i + 1..];
        if fee + c.fee <= budget {
          ghost var before := Value();
          var ok := SaveSlot(c.slot, Some(c.original), c.appraised);
          if ok {
            LandedAppend(old(Value()), landed, c, before);
            assert Land(before, candidates[i..], budget, fee)
                   == [c] + Land(Value(), candidates[i + 1..], budget, fee + c.fee);
            landed, fee := landed + [c], fee + c.fee;
          }
        }
      }
      assert candidates[|candidates|..] == [];
    }

    /** Gear rewards: one free bag slot each until the count is reached, the bag is full, or a slot was taken
        meanwhile. */
    method GiveGear(ch: int, slots: map<Slot, Item>, item: uint32, units: nat, ghost claimed: set<(int, int)>)
      returns (ws: seq<Write>)
      modifies this`rows
      ensures ws == GrantGear(old(Value()).(flags := claimed), ch, slots, item, units)
      ensures RunAll(old(Value()).(flags := claimed), ws) == Some(Value().(flags := claimed))
    {
      ghost var start := Value().(flags := claimed);
      var held := slots;
      var gear := Item(item, 0, 0, true, 0, NEVER_APPRAISED);
      ws := [];
      for i := 0 to units
        invariant GrantGear(start, ch, slots, item, units)
                  == ws + GrantGear(Value().(flags := claimed), ch, held, item, units - i)
        invariant RunAll(start, ws) == Some(Value().(flags := claimed))
      {
        var free := FindFreeBagSlot(ch, held);
        if free.None? {
          return;
        }
        ghost var before := Value().(flags := claimed);
        var ok := SaveSlot(free.value, None, gear);
        if !ok {
          return;
        }
        OneGearMore(start, before, Value().(flags := claimed), ch, held, item, units - i, ws);
        held := held[free.value := gear];
        ws := ws + [Save(free.value, None, gear)];
      }
    }

    method GiveReward(items: ItemTable, ch: int, slots: map<Slot, Item>, order: seq<uint32>, reward: Reward,
                      ghost claimed: set<(int, int)>)
      returns (ws: seq<Write>)
      modifies this`rows
      ensures ws == Grant(items, old(Value()).(flags := claimed), ch, slots, order, reward)
      ensures RunAll(old(Value()).(flags := claimed), ws) == Some(Value().(flags := claimed))
    {
      ws := [];
      if reward.item == 0 || reward.item !in items {
        return;
      }
      var units := if reward.count > 0 then reward.count else 1;
      if !items[reward.item].stackable {
        ws := GiveGear(ch, slots, reward.item, units, claimed);
        return;
      }
      var slot := FindStackableBagSlot(ch, slots, order, reward.item);
      var existing, had := None, 0;
      StackSlotIsStack(ch, slots, order, reward.item);
      if slot.Some? {
        existing, had := Some(slots[slot.value]), slots[slot.value].quantity;
      } else {
        slot := FindFreeBagSlot(ch, slots);
      }
      if slot.None? {
        return;
      }
      var stacked := Item(reward.item, (had + units % WRAP) % WRAP, 0, false, 0, 0);
      var ok := SaveSlot(slot.value, existing, stacked);
      if ok {
        ws := [Save(slot.value, existing, stacked)];
        assert ws[1..] == [];
      }
    }

    method GiveRewards(items: ItemTable, ch: int, slots: map<Slot, Item>, order: seq<uint32>, rewards: seq<Reward>,
                       ghost claimed: set<(int, int)>)
      returns (ws: seq<Write>)
      modifies this`rows
      ensures ws == GrantAll(items, old(Value()).(flags := claimed), ch, slots, order, rewards)
      ensures RunAll(old(Value()).(flags := claimed), ws) == Some(Value().(flags := claimed))
    {
      ghost var start := Value().(flags := claimed);
      ghost var all := GrantAll(items, start, ch, slots, order, rewards);
      var held, listed := slots, order;
      ws := [];
      for i := 0 to |rewards|
        invariant all == ws + GrantAll(items, Value().(flags := claimed), ch, held, listed, rewards[i..])
        invariant RunAll(start, ws) == Some(Value().(flags := claimed))
      {
        ghost var before := Value().(flags := claimed);
        var more := GiveReward(items, ch, held, listed, rewards[i], claimed);
        ghost var after := Value().(flags := claimed);
        assert rewards[i..][0] == rewards[i] && rewards[i..][1..] == rewards[i + 1..];
        OneRewardMore(items, before, after, ch, held, listed, rewards[i..], ws, more);
        RunAllConcat(start, ws, more);
        held, listed := Granted(held, more), listed + SlotNumbers(more);
        ws := ws + more;
      }
      assert rewards[|rewards|..] == [];
    }
  }

  lemma OneRewardMore(items: ItemTable, db: Db, after: Db, ch: int, slots: map<Slot, Item>, order: seq<uint32>,
                      rewards: seq<Reward>, ws: seq<Write>, more: seq<Write>)
    requires rewards != [] && more == Grant(items, db, ch, slots, order, rewards[0]) && RunAll(db, more) == Some(after)
    ensures ws + GrantAll(items, db, ch, slots, order, rewards)
         == (ws + more) + GrantAll(items, after, ch, Granted(slots, more), order + SlotNumbers(more), rewards[1..])
  {
    hide Grant, Granted, SlotNumbers, RunAll;
    var rest := GrantAll(items, after, ch, Granted(slots, more), order + SlotNumbers(more), rewards[1..]);
    assert GrantAll(items, db, ch, slots, order, rewards) == more + rest;
    assert ws + (more + rest) == (ws + more) + rest;
  }

  lemma OneGearMore(start: Db, db: Db, after: Db, ch: int, slots: map<Slot, Item>, item: uint32, units: nat,
                    ws: seq<Write>)
    requires units > 0 && FreeSlotFrom(ch, slots, 0).Some? && RunAll(start, ws) == Some(db)
    requires RunWrite(db, Save(FreeSlotFrom(ch, slots, 0).value, None, Item(item, 0, 0, true, 0, NEVER_APPRAISED)))
             == Some(after)
    ensures var gear := Item(item, 0, 0, true, 0, NEVER_APPRAISED);
            var w := Save(FreeSlotFrom(ch, slots, 0).value, None, gear);
            ws + GrantGear(db, ch, slots, item, units)
                == (ws + [w]) + GrantGear(after, ch, slots[w.slot := gear], item, units - 1)
            && RunAll(start, ws + [w]) == Some(after)
  {
    hide FreeSlotFrom, RunWrite;
    var gear := Item(item, 0, 0, true, 0, NEVER_APPRAISED);
    var w := Save(FreeSlotFrom(ch, slots, 0).value, None, gear);
    var rest := GrantGear(after, ch, slots[w.slot := gear], item, units - 1);
    assert GrantGear(db, ch, slots, item, units) == [w] + rest;
    assert ws + ([w] + rest) == (ws + [w]) + rest;
    RunAllConcat(start, ws, [w]);
    assert [w][1..] == [] && RunAll(db, [w]) == Some(after);
  }

  lemma {:induction false} LandedAppend(db: Db, landed: seq<Candidate>, c: Candidate, now: Db)
    requires RunAll(db, LandedWrites(landed)) == Some(now)
    ensures Fees(landed + [c]) == Fees(landed) + c.fee
    ensures RunAll(db, LandedWrites(landed + [c])) == RunWrite(now, Save(c.slot, Some(c.original), c.appraised))
    decreases |landed|
  {
    if landed == [] {
      assert [c][1..] == [] && [] + [c] == [c];
      assert LandedWrites([c])[1..] == [];
    } else {
      assert (landed + [c])[1..] == landed[1..] + [c];
      var first := LandedWrites(landed)[0];
      assert LandedWrites(landed)[1..] == LandedWrites(landed[1..]);
      assert LandedWrites(landed + [c])[1..] == LandedWrites(landed[1..] + [c]);
      LandedAppend(RunWrite(db, first).value, landed[1..], c, now);
    }
  }

  method FindFreeBagSlot(ch: int, slots: map<Slot, Item>) returns (free: Option<Slot>)
    ensures free == FreeSlotFrom(ch, slots, 0)
    ensures free.None? ==> forall i | 0 <= i < BAG_SLOTS :: Bag(ch, i) in slots
    ensures free.Some? ==> free.value.Bag? && free.value.owner == ch && free.value.index < BAG_SLOTS
                           && free.value !in slots && forall i | 0 <= i < free.value.index :: Bag(ch, i) in slots
  {
    for i := 0 to BAG_SLOTS
      invariant FreeSlotFrom(ch, slots, 0) == FreeSlotFrom(ch, slots, i)
      invariant forall j | 0 <= j < i :: Bag(ch, j) in slots
    {
      if Bag(ch, i) !in slots {
        return Some(Bag(ch, i));
      }
    }
    return None;
  }

  predicate HoldsStack(slots: map<Slot, Item>, slot: Slot, item: uint32) {
    slot in slots && slots[slot].id == item && !slots[slot].equippable
  }

  method FindStackableBagSlot(ch: int, slots: map<Slot, Item>, order: seq<uint32>, item: uint32)
      returns (stack: Option<Slot>)
    ensures stack == StackSlot(ch, slots, order, item)
    ensures stack.None? ==> forall i | 0 <= i < |order| :: !HoldsStack(slots, Bag(ch, order[i]), item)
    ensures stack.Some? ==> exists k :: 0 <= k < |order| && stack.value == Bag(ch, order[k])
                                        && HoldsStack(slots, stack.value, item)
                                        && forall i | 0 <= i < k :: !HoldsStack(slots, Bag(ch, order[i]), item)
  {
    for i := 0 to |order|
      invariant StackSlot(ch, slots, order, item) == StackSlot(ch, slots, order[i..], item)
      invariant forall j | 0 <= j < i :: !HoldsStack(slots, Bag(ch, order[j]), item)
    {
      assert order[i..][0] == order[i] && order[i..][1..] == order[i + 1..];
      var slot := Bag(ch, order[i]);
      if slot in slots && slots[slot].id == item && !slots[slot].equippable {
        return Some(slot);
      }
    }
    return None;
  }

  /** Which of the listed slots may be appraised, in the order listed. */
  method CollectCandidates(items: ItemTable, p: Player, wires: seq<uint32>, rolls: seq<Rolled>)
      returns (candidates: seq<Candidate>)
    ensures candidates == Candidates(items, p, wires, rolls)
    ensures exists at :: ListedAt(items, p, wires, rolls, candidates, at)
  {
    hide ListedAt, WireSlot;
    CandidatesAre(items, p, wires, rolls);
    candidates := [];
    var n := if |wires| < |rolls| then |wires| else |rolls|;
    for i := 0 to n
      invariant Candidates(items, p, wires, rolls) == candidates + Candidates(items, p, wires[i..], rolls[i..])
    {
      assert wires[i..][0] == wires[i] && wires[i..][1..] == wires[i + 1..];
      assert rolls[i..][0] == rolls[i] && rolls[i..][1..] == rolls[i + 1..];
      var slot := WireSlot(p.session.ch, wires[i]);
      if 7 < wires[i] <= 0x2F && slot in p.character.slots {
        var content := p.character.slots[slot];
        if content.id in items && !items[content.id].stackable && items[content.id].minLevel < 90
           && content.bits == NEVER_APPRAISED
        {
          candidates := candidates + [Candidate(slot, content, content.(bits := rolls[i]),
                                                items[content.id].sellPrice)];
        }
      }
    }
  }

  class Server {
    const items: ItemTable
    const db: Database
    var jobs: seq<Job>
    var done: seq<Callback>
    var players: map<int, Player>
    var ground: map<Spot, Item>
    var connected: set<int>
    var nextId: nat

    function Now(): State
      reads this, db
    {
      State(db.Value(), jobs, done, players, ground, connected, nextId)
    }

    constructor (items: ItemTable, db: Database)
      ensures this.items == items && this.db == db && Now() == State(db.Value(), [], [], map[], map[], {}, 1)
    {
      this.items, this.db := items, db;
      jobs, done, players, ground, connected, nextId := [], [], map[], map[], {}, 1;
    }

    method Queue(p: Player, work: Work)
      modifies this`jobs
      ensures jobs == old(jobs) + [Task(p.session, work)]
    {
      jobs := jobs + [Task(p.session, work)];
    }

    /** Claims the drop before the write, so that two players cannot both get it; puts it back if it cannot stack. */
    method HandleItemPickup(conn: int, id: nat, wire: uint32)
      requires conn in players
      modifies this
      ensures Now() == Handle(items, old(Now()), conn, PickUpItem(id, wire))
    {
      var p := players[conn];
      var spot := Spot(p.mapId, id);
      if spot !in ground {
        return;
      }
      var drop := ground[spot];
      ground := ground - {spot};
      var slot := BagSlot(p.session.ch, wire);
      var existing := Lookup(p.character.slots, slot);
      var resolved := StackedInto(drop, existing, drop.quantity);
      if resolved.None? {
        ground := ground[spot := drop];
        assert ground == old(ground);
        return;
      }
      Queue(p, PickUp(spot, drop, slot, existing, resolved.value));
    }

    method HandleItemMove(conn: int, sourceWire: uint32, destWire: uint32)
      requires conn in players
      modifies this`jobs
      ensures Now() == Handle(items, old(Now()), conn, MoveItem(sourceWire, destWire))
    {
      var p := players[conn];
      var source, dest := WireSlot(p.session.ch, sourceWire), WireSlot(p.session.ch, destWire);
      var sourceItem, destItem := Lookup(p.character.slots, source), Lookup(p.character.slots, dest);
      if sourceItem.None? && destItem.None? {
        return;
      }
      Queue(p, Move(source, dest, sourceItem, destItem));
    }

    method HandleItemDrop(conn: int, wire: uint32, quantity: uint32)
      requires conn in players
      modifies this`jobs
      ensures Now() == Handle(items, old(Now()), conn, DropItem(wire, quantity))
    {
      var p := players[conn];
      var slot := BagSlot(p.session.ch, wire);
      if quantity == 0 || slot !in p.character.slots {
        return;
      }
      var content := p.character.slots[slot];
      var dropped, remaining := content, None;
      if !content.equippable {
        var toDrop := if quantity < content.quantity then quantity else content.quantity;
        dropped := dropped.(quantity := toDrop);
        if toDrop < content.quantity {
          remaining := Some(content.(quantity := content.quantity - toDrop));
        }
      } else {
        dropped := dropped.(quantity := 1);
      }
      Queue(p, PutDown(p.mapId, slot, content, remaining, dropped));
    }

    method HandleItemDelete(conn: int, wire: uint32)
      requires conn in players
      modifies this`jobs
      ensures Now() == Handle(items, old(Now()), conn, DeleteItem(wire))
    {
      var p := players[conn];
      var slot := WireSlot(p.session.ch, wire);
      if slot in p.character.slots {
        Queue(p, Delete(slot, p.character.slots[slot]));
      }
    }

    method HandleStoreItemOut(conn: int, bankSlot: uint32, wire: uint32, amount: uint32)
      requires conn in players
      modifies this`jobs
      ensures Now() == Handle(items, old(Now()), conn, StoreItemOut(bankSlot, wire, amount))
    {
      var p := players[conn];
      if amount == 0 || bankSlot >= BANK_SLOTS || p.bank.None? {
        return;
      }
      var vault := Vault(p.bank.value.id, bankSlot);
      if vault !in p.bank.value.items || p.character.money < WITHDRAWAL_FEE {
        return;
      }
      var content := p.bank.value.items[vault];
      var slot := BagSlot(p.session.ch, wire);
      var existing := Lookup(p.character.slots, slot);
      var moved := if content.equippable then content.quantity else Min(amount, content.quantity);
      var updated := StackedInto(content, existing, moved);
      if updated.None? {
        return;
      }
      var remaining := None;
      if !content.equippable && moved < content.quantity {
        remaining := Some(content.(quantity := content.quantity - moved));
      }
      Queue(p, Withdraw(slot, existing, updated.value, vault, content, remaining));
    }

    method HandleStoreItemIn(conn: int, wire: uint32, bankSlot: uint32, amount: uint32)
      requires conn in players
      modifies this`jobs
      ensures Now() == Handle(items, old(Now()), conn, StoreItemIn(wire, bankSlot, amount))
    {
      var p := players[conn];
      var slot := BagSlot(p.session.ch, wire);
      if amount == 0 || bankSlot >= BANK_SLOTS || p.bank.None? || slot !in p.character.slots {
        return;
      }
      var content := p.character.slots[slot];
      var vault := Vault(p.bank.value.id, bankSlot);
      var existing := BankItem(p, vault);
      var moved := if content.equippable then content.quantity else Min(amount, content.quantity);
      var updated := StackedInto(content, existing, moved);
      if updated.None? {
        return;
      }
      var remaining := None;
      if !content.equippable && moved < content.quantity {
        remaining := Some(content.(quantity := content.quantity - moved));
      }
      Queue(p, Deposit(slot, content, remaining, vault, existing, updated.value));
    }

    method HandleStoreMoney(conn: int, sum: int, out: bool)
      requires conn in players
      modifies this`jobs
      ensures Now() == Handle(items, old(Now()), conn, if out then StoreMoneyOut(sum) else StoreMoneyIn(sum))
    {
      var p := players[conn];
      if sum <= 0 || p.bank.None? || (if out then p.bank.value.money else p.character.money) < sum {
        return;
      }
      Queue(p, if out then MoneyOut(p.bank.value.id, sum) else MoneyIn(p.bank.value.id, sum));
    }

    method HandleStoreClose(conn: int)
      requires conn in players
      modifies this`players
      ensures Now() == Handle(items, old(Now()), conn, StoreClose)
    {
      players := players[conn := players[conn].(bank := None)];
    }

    method HandleItemTradeBuy(conn: int, item: uint32, wire: uint32, amount: uint32)
      requires conn in players
      modifies this`jobs
      ensures Now() == Handle(items, old(Now()), conn, BuyItem(item, wire, amount))
    {
      var p := players[conn];
      if amount == 0 || item !in items {
        return;
      }
      var totalCost := items[item].buyPrice * amount;
      if p.character.money < totalCost {
        return;
      }
      var slot := BagSlot(p.session.ch, wire);
      var existing := Lookup(p.character.slots, slot);
      var updated := StackedInto(Item(item, 0, 0, false, 0, 0), existing, amount);
      if updated.Some? {
        Queue(p, Buy(slot, existing, updated.value, amount, totalCost));
      }
    }

    method HandleItemTradeSell(conn: int, wire: uint32, count: uint32)
      requires conn in players
      modifies this`jobs
      ensures Now() == Handle(items, old(Now()), conn, SellItem(wire, count))
    {
      var p := players[conn];
      var slot := BagSlot(p.session.ch, wire);
      if count == 0 || slot !in p.character.slots || p.character.slots[slot].id !in items {
        return;
      }
      var content := p.character.slots[slot];
      var sold, remaining := 1, None;
      if !content.equippable {
        sold := if count < content.quantity then count else content.quantity;
        if sold < content.quantity {
          remaining := Some(content.(quantity := content.quantity - sold));
        }
      }
      Queue(p, Sell(slot, content, remaining, sold, items[content.id].sellPrice * sold));
    }

    method HandleItemConfirmNpcRequest(conn: int, wires: seq<uint32>, rolls: seq<Rolled>)
      requires conn in players
      modifies this`jobs
      ensures Now() == Handle(items, old(Now()), conn, AppraiseItems(wires, rolls))
    {
      if wires == [] || |wires| > 8 {
        return;
      }
      var p := players[conn];
      var candidates := CollectCandidates(items, p, wires, rolls);
      Queue(p, Appraise(candidates, p.character.money));
    }

    method HandleQuestResult(conn: int, quest: Quest, order: seq<uint32>)
      requires conn in players
      modifies this`jobs
      ensures Now() == Handle(items, old(Now()), conn, FinishQuest(quest, order))
    {
      Queue(players[conn], TurnIn(players[conn].character.slots, quest, order));
    }

    /** One job's statements, as its closure runs them inside an open transaction. */
    method RunWork(ch: int, work: Work) returns (report: Option<seq<Effect>>)
      modifies db`rows, db`money, db`flags
      ensures var r := Perform(items, old(db.Value()), ch, work);
              report.Some? == r.Some? && (report.Some? ==> r.value == (db.Value(), report.value))
    {
      ghost var before := db.Value();
      match work {
        case Appraise(candidates, money) =>
          report := RunAppraisal(ch, candidates, money);
        case TurnIn(snapshot, quest, order) =>
          if quest.flag != 0 {
            var unclaimed := db.TryClaimFlag(ch, quest.flag);
            if !unclaimed {
              return None;
            }
          }
          report := FinishTurnIn(before, ch, work);
        case OpenBank(bank) =>
          report := ReadBank(bank);
        case _ =>
          var ok := db.Execute(Writes(ch, work));
          if !ok {
            return None;
          }
          return Some(Effects(ch, work, db.Value()));
      }
    }

    method RunAppraisal(ch: int, candidates: seq<Candidate>, money: int) returns (report: Option<seq<Effect>>)
      modifies db`rows, db`money
      ensures var r := Perform(items, old(db.Value()), ch, Appraise(candidates, money));
              report.Some? == r.Some? && (report.Some? ==> r.value == (db.Value(), report.value))
    {
      ghost var before := db.Value();
      var landed, fee := db.LandCandidates(candidates, money);
      if landed == [] {
        return None;
      }
      ghost var saved := db.Value();
      RunAllConcat(before, LandedWrites(landed), [Spend(Wallet(ch), fee)]);
      OneWrite(saved, [Spend(Wallet(ch), fee)]);
      var ok := db.TrySpendMoney(Wallet(ch), fee);
      if !ok {
        return None;
      }
      return Some([Wealth(BalanceAt(db.Value(), Wallet(ch)))] + LandedEffects(landed));
    }

    method ReadBank(bank: int) returns (report: Option<seq<Effect>>)
      ensures report == if Safe(bank) in db.money && Readable(db.Value(), bank)
                        then Some([ShowBank(LoadBank(db.Value(), bank))]) else None
    {
      if Safe(bank) !in db.money {
        return None;
      }
      var loaded := db.LoadAllItems(bank);
      if loaded.None? {
        return None;
      }
      return Some([ShowBank(Bank(bank, db.money[Safe(bank)], loaded.value))]);
    }

    /** A turn-in after its flag was claimed: the rewards that fit, then the money. */
    method FinishTurnIn(ghost before: Db, ch: int, work: Work) returns (report: Option<seq<Effect>>)
      requires work.TurnIn? && (work.quest.flag != 0 ==> (ch, work.quest.flag) !in before.flags)
      requires db.Value()
            == before.(flags := before.flags + if work.quest.flag != 0 then {(ch, work.quest.flag)} else {})
      modifies db`rows, db`money
      ensures var r := Perform(items, before, ch, work);
              report.Some? == r.Some? && (report.Some? ==> r.value == (db.Value(), report.value))
    {
      var quest := work.quest;
      var ws := db.GiveRewards(items, ch, work.snapshot, work.order, quest.rewards, before.flags);
      assert before == old(db.Value()).(flags := before.flags);
      ghost var given := db.Value().(flags := before.flags);
      ghost var pay := if quest.cegel != 0 then [Credit(Wallet(ch), quest.cegel)] else [];
      RunAllConcat(before, ws, pay);
      assert before.flags + {} == before.flags;
      if quest.cegel == 0 {
        assert ws + pay == ws && RunAll(given, pay) == Some(given);
        return Some(SaveEffects(ws) + []);
      }
      assert RunAll(given, pay) == RunWrite(given, pay[0]) by {
        assert pay[1..] == [];
      }
      var ok := db.AddMoney(Wallet(ch), quest.cegel);
      if !ok {
        return None;
      }
      SaveEffectsSkipCredit(ws, pay[0]);
      return Some(SaveEffects(ws) + [Wealth(BalanceAt(db.Value(), Wallet(ch)))]);
    }

    /** The DB thread: runs the oldest job in a transaction and posts its completion to the world strand. */
    method RunNextJob(mapId: int, throws: bool)
      requires jobs != []
      modifies this`jobs, this`done, db
      ensures Now() == RunJob(items, old(Now()), mapId, throws)
    {
      var job := jobs[0];
      jobs := jobs[1..];
      match job {
        case Load(conn, ch, account) =>
          if !throws && Wallet(ch) in db.money {
            done := done + [Loaded(conn, ch, account, mapId, LoadCharacter(db.Value(), ch))];
          }
        case Task(src, work) =>
          var report := None;
          db.Begin();
          if !throws {
            report := RunWork(src.ch, work);
          }
          if report.Some? {
            done := done + [Committed(src, work, report.value)];
          } else {
            db.Rollback();
            done := done + [Refused(src, work)];
          }
      }
    }

    /** The world strand: runs the oldest completion callback. */
    method RunNextCallback()
      requires done != []
      modifies this
      ensures Now() == RunCallback(old(Now()))
    {
      var cb := done[0];
      done := done[1..];
      match cb {
        case Committed(src, work, effects) =>
          if Warps(work) {
            players := players - {src.conn};
            return;
          }
          if src.conn in players {
            var p := players[src.conn];
            for i := 0 to |effects|
              invariant ApplyEffects(old(players[src.conn]), effects) == ApplyEffects(p, effects[i..])
            {
              assert effects[i..][0] == effects[i] && effects[i..][1..] == effects[i + 1..];
              p := ApplyEffect(p, effects[i]);
            }
            assert effects[|effects|..] == [];
            players := players[src.conn := p];
          }
          if work.PutDown? {
            SpawnDrop(Spot(work.mapId, nextId), work.dropped);
            nextId := nextId + 1;
          }
        case Refused(src, work) =>
          if work.PickUp? {
            SpawnDrop(work.spot, work.drop);
          }
        case Loaded(conn, ch, account, mapId, character) =>
          if conn in connected && !Online(Now(), ch) {
            var p := Player(Session(conn, nextId, ch), account, mapId, character, None);
            nextId := nextId + 1;
            if conn !in players {
              players := players[conn := p];
            }
          }
      }
    }

    method SpawnDrop(spot: Spot, item: Item)
      modifies this`ground
      ensures ground == Place(old(ground), spot, item)
    {
      if spot !in ground {
        ground := ground[spot := item];
      }
    }

    method HandleStoreOpen(conn: int)
      requires conn in players
      modifies this`jobs
      ensures Now() == Handle(items, old(Now()), conn, StoreOpen)
    {
      Queue(players[conn], OpenBank(players[conn].account));
    }

    /** A player message goes to its handler; without a player in the world it is dropped. */
    method HandleMessage(conn: int, req: Request)
      modifies this
      ensures Now() == Handle(items, old(Now()), conn, req)
    {
      hide WorkFor;
      if conn !in players {
        return;
      }
      match req {
        case PickUpItem(id, wire) => HandleItemPickup(conn, id, wire);
        case MoveItem(source, dest) => HandleItemMove(conn, source, dest);
        case DropItem(wire, quantity) => HandleItemDrop(conn, wire, quantity);
        case DeleteItem(wire) => HandleItemDelete(conn, wire);
        case StoreItemOut(bankSlot, wire, amount) => HandleStoreItemOut(conn, bankSlot, wire, amount);
        case StoreItemIn(wire, bankSlot, amount) => HandleStoreItemIn(conn, wire, bankSlot, amount);
        case StoreMoneyOut(sum) => HandleStoreMoney(conn, sum, true);
        case StoreMoneyIn(sum) => HandleStoreMoney(conn, sum, false);
        case StoreOpen => HandleStoreOpen(conn);
        case StoreClose => HandleStoreClose(conn);
        case BuyItem(item, wire, amount) => HandleItemTradeBuy(conn, item, wire, amount);
        case SellItem(wire, count) => HandleItemTradeSell(conn, wire, count);
        case AppraiseItems(wires, rolls) => HandleItemConfirmNpcRequest(conn, wires, rolls);
        case FinishQuest(quest, order) => HandleQuestResult(conn, quest, order);
      }
    }

    method Take(step: Step)
      modifies this, db
      ensures Now() == Next(items, old(Now()), step)
    {
      hide Handle, Perform, Place;
      match step {
        case Connect(conn) => connected := connected + {conn};
        case Enter(conn, ch, account) => jobs := jobs + [Load(conn, ch, account)];
        case Exit(conn, disconnected) =>
          if disconnected {
            connected := connected - {conn};
          }
          players := players - {conn};
        case Message(conn, req) => HandleMessage(conn, req);
        case NextJob(mapId, throws) =>
          if jobs != [] {
            RunNextJob(mapId, throws);
          }
        case NextCallback =>
          if done != [] {
            RunNextCallback();
          }
        case Expire(spot) => ground := ground - {spot};
      }
    }

    /**
     * A whole run of the server, whatever the clients send: items move only by what the committed jobs and expired
     * drops say and what was conjured, money only by what the jobs say. In an orderly run nothing is conjured and every
     * player's memory follows the tables.
     */
    method Serve(steps: seq<Step>)
      requires DropsUnique(Now())
      modifies this, db
      ensures Now() == Run(items, old(Now()), steps)
      ensures forall id ::
                WorldUnits(Now(), id) == WorldUnits(old(Now()), id) + RunFlow(items, old(Now()), steps, id)
                                         + RunConjured(items, old(Now()), steps, id)
      ensures DbMoney(Now().db) == DbMoney(old(Now()).db) + RunMoney(items, old(Now()), steps)
      ensures Sound(old(Now())) && Separated(old(Now())) && Follows(old(Now())) && OrderlyRun(items, old(Now()), steps)
              ==> Sound(Now()) && Separated(Now()) && Follows(Now()) && BackedRun(items, old(Now()), steps)
    {
      hide Sound, Separated, Follows, OrderlyRun, BackedRun, WorldUnits, DbMoney, RunFlow, RunConjured, RunMoney, Next,
          DropsUnique;
      ghost var start := Now();
      for i := 0 to |steps|
        invariant Run(items, Now(), steps[i..]) == Run(items, start, steps)
      {
        assert steps[i..][0] == steps[i] && steps[i..][1..] == steps[i + 1..];
        Take(steps[i]);
      }
      forall id
        ensures WorldUnits(Now(), id) == WorldUnits(start, id) + RunFlow(items, start, steps, id)
                                         + RunConjured(items, start, steps, id)
      {
        RunAccounts(items, start, steps, id);
      }
      RunPays(items, start, steps);
      if Sound(start) && Separated(start) && Follows(start) && OrderlyRun(items, start, steps) {
        OrderlyRunsAreBacked(items, start, steps);
        RunFollows(items, start, steps);
      }
    }
  }

  lemma {:induction false} SaveEffectsSkipCredit(ws: seq<Write>, credit: Write)
    requires credit.Credit?
    ensures SaveEffects(ws + [credit]) == SaveEffects(ws)
  {
    if ws == [] {
      assert [credit][1..] == [] && [] + [credit] == [credit];
    } else {
      assert (ws + [credit])[1..] == ws[1..] + [credit];
      SaveEffectsSkipCredit(ws[1..], credit);
    }
  }
}
