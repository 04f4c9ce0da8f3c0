/** What a player's request means: when it queues anything, when its job commits and what it has then done to the
    tables, which may have changed since the request was validated; what undoes it, and what a duplicate of it does. */
module Requests {
  import opened Wrappers
  import opened Items
  import opened SlotRows
  import opened Protocol
  import opened Ledger
  import opened Plans

  /** The tables have exactly `content` in the slot. */
  predicate Holds(db: Db, slot: Slot, content: Option<Item>) {
    RowAt(db, slot) == Columns(slot, content)
  }

  /** The tables differ in these slots at most, which now hold these contents. */
  ghost predicate Rewrote(db: Db, after: Db, contents: map<Slot, Option<Item>>) {
    (forall slot | slot in contents :: Holds(after, slot, contents[slot]))
    && (forall slot | slot !in contents :: RowAt(after, slot) == RowAt(db, slot))
  }

  predicate KeptMoney(db: Db, after: Db) {
    after.money == db.money && after.flags == db.flags
  }

  /** `amount` units left the account, which covered them. */
  predicate Paid(db: Db, after: Db, account: Account, amount: int) {
    account in db.money && amount <= db.money[account]
    && after.money == db.money[account := db.money[account] - amount] && after.flags == db.flags
  }

  predicate Earned(db: Db, after: Db, account: Account, amount: int) {
    account in db.money && after.money == db.money[account := db.money[account] + amount] && after.flags == db.flags
  }

  predicate Covers(db: Db, account: Account, amount: int) {
    account in db.money && amount <= db.money[account]
  }

  /** The units a slot's row has gained. */
  function Gained(db: Db, after: Db, slot: Slot, id: uint32): int {
    RowUnits(RowAt(after, slot), id) - RowUnits(RowAt(db, slot), id)
  }

  ghost predicate GainedOnly(db: Db, after: Db, slot: Slot, item: uint32, units: int) {
    forall id :: Gained(db, after, slot, id) == if id == item then units else 0
  }

  /** A slot takes the item when it is free or holds a stack of it. */
  predicate Takes(slot: Option<Item>, item: Item) {
    slot.Some? ==> slot.value.id == item.id && !slot.value.equippable && !item.equippable
  }

  /** What asking for `amount` of it moves: the whole of a piece of gear, at most what there is of a stack. */
  function Share(content: Item, amount: uint32): nat {
    if content.equippable then 1 else Min(amount, content.quantity)
  }

  /** Rewriting slots, and then rewriting them to what they held, changes nothing. */
  lemma UndoneRewrite(db: Db, mid: Db, end: Db, there: map<Slot, Option<Item>>, back: map<Slot, Option<Item>>)
    requires Rewrote(db, mid, there) && Rewrote(mid, end, back)
    requires there.Keys == back.Keys && forall slot | slot in back :: Holds(db, slot, back[slot])
    ensures Rewrote(db, end, map[])
  {
    assert forall slot :: slot in there <==> slot in back;
  }

  // ---- Moving -----------------------------------------------------------------------------------------------

  lemma MoveCommits(items: ItemTable, db: Db, ch: int, work: Work)
    requires work.Move? && (work.sourceItem.Some? || work.destItem.Some?) && Rooted(db, ch, work)
    requires work.source == work.dest ==> work.sourceItem == work.destItem
    ensures var Move(source, dest, atSource, atDest) := work;
            var r := Perform(items, db, ch, work);
            (r.Some? <==> Holds(db, source, atSource) && Holds(db, dest, atDest))
            && (r.Some? ==> KeptMoney(db, r.value.0)
                            && Rewrote(db, r.value.0, map[source := atDest, dest := atSource])
                            && r.value.1 == Effects(ch, work, r.value.0))
  {
    var ws := Writes(ch, work);
    TwoWrites(db, ws);
    assert ws[0] in ws && ws[1] in ws;
  }

  /** The two slots exchange their contents, if and only if the tables still have in both what the player saw. */
  lemma MoveExchanges(items: ItemTable, s: State, p: Player, sourceWire: uint32, destWire: uint32, db: Db)
    ensures var ch := p.session.ch;
            var source, dest := WireSlot(ch, sourceWire), WireSlot(ch, destWire);
            var atSource, atDest := Lookup(p.character.slots, source), Lookup(p.character.slots, dest);
            var work := WorkFor(items, s, p, MoveItem(sourceWire, destWire));
            (work.None? <==> atSource.None? && atDest.None?)
            && (work.Some? && Rooted(db, ch, work.value)
                ==> var r := Perform(items, db, ch, work.value);
                    (r.Some? <==> Holds(db, source, atSource) && Holds(db, dest, atDest))
                    && (r.Some? ==> KeptMoney(db, r.value.0)
                                    && Rewrote(db, r.value.0, map[source := atDest, dest := atSource])))
  {
    hide Perform, Holds, Rewrote, Rooted;
    var work := WorkFor(items, s, p, MoveItem(sourceWire, destWire));
    if work.Some? && Rooted(db, p.session.ch, work.value) {
      MoveCommits(items, db, p.session.ch, work.value);
    }
  }

  /** Making the same move again puts every row back, even that of a stack whose number an equipment row cannot show. */
  lemma MoveTwiceIsNone(items: ItemTable, s: State, p: Player, sourceWire: uint32, destWire: uint32, db: Db)
    requires var work := WorkFor(items, s, p, MoveItem(sourceWire, destWire));
             work.Some? && Rooted(db, p.session.ch, work.value) && Perform(items, db, p.session.ch, work.value).Some?
    ensures var (after, told) :=
              Perform(items, db, p.session.ch, WorkFor(items, s, p, MoveItem(sourceWire, destWire)).value).value;
            var again := WorkFor(items, s, ApplyEffects(p, told), MoveItem(sourceWire, destWire));
            again.Some? && Perform(items, after, p.session.ch, again.value).Some?
            && Rewrote(db, Perform(items, after, p.session.ch, again.value).value.0, map[])
  {
    hide Perform, Rooted, Rewrote, Effects, Writes, ApplyEffects, Holds;
    var ch := p.session.ch;
    var work := WorkFor(items, s, p, MoveItem(sourceWire, destWire)).value;
    MoveCommits(items, db, ch, work);
    var (after, told) := Perform(items, db, ch, work).value;
    MoveReachesMemory(p, work, after);
    BackRestores(items, db, ch, work);
  }

  lemma BackRestores(items: ItemTable, db: Db, ch: int, work: Work)
    requires work.Move? && (work.sourceItem.Some? || work.destItem.Some?) && Rooted(db, ch, work)
    requires work.source == work.dest ==> work.sourceItem == work.destItem
    requires Perform(items, db, ch, work).Some?
    ensures var after := Perform(items, db, ch, work).value.0;
            var r := Perform(items, after, ch, Move(work.source, work.dest, work.destItem, work.sourceItem));
            r.Some? && Rewrote(db, r.value.0, map[])
  {
    hide Perform, Rooted;
    var back := Move(work.source, work.dest, work.destItem, work.sourceItem);
    MoveCommits(items, db, ch, work);
    var after := Perform(items, db, ch, work).value.0;
    var contents := map[work.source := work.destItem, work.dest := work.sourceItem];
    assert work.source in contents && work.dest in contents;
    BackIsRooted(after, ch, work, back);
    MoveCommits(items, after, ch, back);
    UndoneRewrite(db, after, Perform(items, after, ch, back).value.0, contents,
                  map[back.source := back.destItem, back.dest := back.sourceItem]);
  }

  lemma BackIsRooted(after: Db, ch: int, work: Work, back: Work)
    requires work.Move? && back == Move(work.source, work.dest, work.destItem, work.sourceItem)
    requires Holds(after, work.source, work.destItem) && Holds(after, work.dest, work.sourceItem)
    ensures Rooted(after, ch, back)
  {
  }

  lemma MoveReachesMemory(p: Player, work: Work, db: Db)
    requires work.Move? && !work.source.Vault? && !work.dest.Vault?
    requires work.source.owner == p.session.ch && work.dest.owner == p.session.ch
    requires work.source == work.dest ==> work.sourceItem == work.destItem
    requires work.sourceItem.Some? || work.destItem.Some?
    ensures var q := ApplyEffects(p, Effects(p.session.ch, work, db));
            q.session == p.session
            && Lookup(q.character.slots, work.source) == work.destItem
            && Lookup(q.character.slots, work.dest) == work.sourceItem
  {
    var es := Effects(p.session.ch, work, db);
    TwoEffects(p, es);
  }

  lemma TwoEffects(p: Player, es: seq<Effect>)
    requires |es| == 2
    ensures ApplyEffects(p, es) == ApplyEffect(ApplyEffect(p, es[0]), es[1])
  {
    assert es[1..][1..] == [];
    var q := ApplyEffect(p, es[0]);
    assert ApplyEffects(q, es[1..]) == ApplyEffects(ApplyEffect(q, es[1..][0]), es[1..][1..]);
  }

  // ---- Dropping and deleting ----------------------------------------------------------------------------------

  lemma RewriteCommits(db: Db, slot: Slot, content: Item, remaining: Option<Item>)
    requires slot in db.rows || remaining.None?
    ensures var r := RunWrite(db, Rewrite(slot, content, remaining));
            (r.Some? <==> Holds(db, slot, Some(content)))
            && (r.Some? ==> KeptMoney(db, r.value) && Rewrote(db, r.value, map[slot := remaining]))
  {
  }

  /** Dropping parts the slot's item in two: what the player asked for, at most what there is, goes into the job's
      drop, the rest stays; it commits if and only if the slot still is what the player saw. */
  lemma DropSplits(items: ItemTable, s: State, p: Player, wire: uint32, quantity: uint32, db: Db)
    ensures var ch := p.session.ch;
            var slot := BagSlot(ch, wire);
            var work := WorkFor(items, s, p, DropItem(wire, quantity));
            (work.None? <==> quantity == 0 || slot !in p.character.slots)
            && (work.Some? && Rooted(db, ch, work.value)
                ==> var content := p.character.slots[slot];
                    var dropped, remaining := work.value.dropped, work.value.remaining;
                    var r := Perform(items, db, ch, work.value);
                    (forall id :: Units(dropped, id) + UnitsOf(remaining, id) == Units(content, id))
                    && Units(dropped, content.id) == Share(content, quantity)
                    && dropped == content.(quantity := dropped.quantity) && SplitsOff(content, remaining)
                    && (r.Some? <==> Holds(db, slot, Some(content)))
                    && (r.Some? ==> KeptMoney(db, r.value.0) && Rewrote(db, r.value.0, map[slot := remaining])))
  {
    hide Rewrote, Holds;
    var work := WorkFor(items, s, p, DropItem(wire, quantity));
    if work.Some? && Rooted(db, p.session.ch, work.value) {
      var ws := Writes(p.session.ch, work.value);
      OneWrite(db, ws);
      assert ws[0] in ws;
      RewriteCommits(db, work.value.slot, work.value.content, work.value.remaining);
    }
  }

  /** Picking the drop up again, into the slot it came from, puts every row back. */
  lemma DropThenPickUpIsNone(items: ItemTable, s: State, p: Player, wire: uint32, quantity: uint32, db: Db, t: State,
                             id: nat)
    requires var work := WorkFor(items, s, p, DropItem(wire, quantity));
             work.Some? && Rooted(db, p.session.ch, work.value) && Perform(items, db, p.session.ch, work.value).Some?
             && Spot(p.mapId, id) in t.ground && t.ground[Spot(p.mapId, id)] == work.value.dropped
    ensures var (after, told) := Perform(items, db, p.session.ch,
                                         WorkFor(items, s, p, DropItem(wire, quantity)).value).value;
            var again := WorkFor(items, t, ApplyEffects(p, told), PickUpItem(id, wire));
            again.Some? && Perform(items, after, p.session.ch, again.value).Some?
            && Rewrote(db, Perform(items, after, p.session.ch, again.value).value.0, map[])
  {
    hide Perform, Rewrote, Holds;
    var ch := p.session.ch;
    DropSplits(items, s, p, wire, quantity, db);
    var work := WorkFor(items, s, p, DropItem(wire, quantity)).value;
    var (after, told) := Perform(items, db, ch, work).value;
    DropReport(items, db, ch, work);
    OneEffect(p, told);
    var q := ApplyEffects(p, told);
    assert Lookup(q.character.slots, work.slot) == work.remaining && q.session == p.session && q.mapId == p.mapId;
    var again := WorkFor(items, t, q, PickUpItem(id, wire)).value;
    PickUpCommits(items, db, after, ch, work, again);
  }

  lemma DropReport(items: ItemTable, db: Db, ch: int, work: Work)
    requires work.PutDown? && Perform(items, db, ch, work).Some?
    ensures Perform(items, db, ch, work).value.1 == [Rewritten(work.slot, work.remaining)]
  {
  }

  lemma OneEffect(p: Player, es: seq<Effect>)
    requires |es| == 1
    ensures ApplyEffects(p, es) == ApplyEffect(p, es[0])
  {
    assert es[1..] == [];
  }

  lemma PickUpCommits(items: ItemTable, db: Db, after: Db, ch: int, work: Work, again: Work)
    requires work.PutDown? && SplitsOff(work.content, work.remaining)
    requires work.dropped == work.content.(quantity := work.dropped.quantity)
    requires forall id :: Units(work.dropped, id) + UnitsOf(work.remaining, id) == Units(work.content, id)
    requires Holds(db, work.slot, Some(work.content)) && Rewrote(db, after, map[work.slot := work.remaining])
    requires again.PickUp? && again.slot == work.slot && again.existing == work.remaining && again.drop == work.dropped
    requires StackedInto(work.dropped, work.remaining, work.dropped.quantity) == Some(again.updated)
    ensures var r := Perform(items, after, ch, again);
            r.Some? && Rewrote(db, r.value.0, map[])
  {
    var contents := map[work.slot := work.remaining];
    assert work.slot in contents;
    OneWrite(after, Writes(ch, again));
    assert Units(work.dropped, work.content.id) + UnitsOf(work.remaining, work.content.id)
        == Units(work.content, work.content.id);
    assert Columns(work.slot, Some(again.updated)) == Columns(work.slot, Some(work.content));
  }

  /** Deleting empties exactly that slot. */
  lemma DeleteEmpties(items: ItemTable, s: State, p: Player, wire: uint32, db: Db)
    ensures var ch := p.session.ch;
            var slot := WireSlot(ch, wire);
            var work := WorkFor(items, s, p, DeleteItem(wire));
            (work.None? <==> slot !in p.character.slots)
            && (work.Some?
                ==> var r := Perform(items, db, ch, work.value);
                    (r.Some? <==> Holds(db, slot, Some(p.character.slots[slot])))
                    && (r.Some? ==> KeptMoney(db, r.value.0) && Rewrote(db, r.value.0, map[slot := None])))
  {
    hide Rewrote, Holds;
    var work := WorkFor(items, s, p, DeleteItem(wire));
    if work.Some? {
      OneWrite(db, Writes(p.session.ch, work.value));
      RewriteCommits(db, work.value.slot, work.value.content, None);
    }
  }

  // ---- The bank -----------------------------------------------------------------------------------------------

  lemma WithdrawalCommits(items: ItemTable, db: Db, ch: int, work: Work)
    requires work.Withdraw? && work.slot != work.vault && Rooted(db, ch, work)
    ensures var Withdraw(slot, existing, updated, vault, content, remaining) := work;
            var r := Perform(items, db, ch, work);
            (r.Some? <==> Holds(db, slot, existing) && Holds(db, vault, Some(content))
                          && Covers(db, Wallet(ch), WITHDRAWAL_FEE))
            && (r.Some? ==> Paid(db, r.value.0, Wallet(ch), WITHDRAWAL_FEE)
                            && Rewrote(db, r.value.0, map[slot := Some(updated), vault := remaining])
                            && r.value.1 == Effects(ch, work, r.value.0))
  {
    var ws := Writes(ch, work);
    assert ws[0] in ws && ws[1] in ws;
    var saved := RunWrite(db, ws[0]);
    if saved.Some? {
      RewriteCommits(saved.value, work.vault, work.content, work.remaining);
      TwoWrites(saved.value, ws[1..]);
    }
  }

  lemma DepositCommits(items: ItemTable, db: Db, ch: int, work: Work)
    requires work.Deposit? && work.slot != work.vault && Rooted(db, ch, work)
    ensures var Deposit(slot, content, remaining, vault, existing, updated) := work;
            var r := Perform(items, db, ch, work);
            (r.Some? <==> Holds(db, vault, existing) && Holds(db, slot, Some(content)))
            && (r.Some? ==> KeptMoney(db, r.value.0)
                            && Rewrote(db, r.value.0, map[vault := Some(updated), slot := remaining])
                            && r.value.1 == Effects(ch, work, r.value.0))
  {
    var ws := Writes(ch, work);
    assert ws[0] in ws && ws[1] in ws;
    TwoWrites(db, ws);
    var saved := RunWrite(db, ws[0]);
    if saved.Some? {
      RewriteCommits(saved.value, work.slot, work.content, work.remaining);
    }
  }

  /** `amount` of the content went from one slot to another that had room for it. */
  ghost predicate Carried(db: Db, after: Db, source: Slot, dest: Slot, content: Item, amount: nat) {
    GainedOnly(db, after, dest, content.id, amount) && GainedOnly(db, after, source, content.id, 0 - amount)
  }

  lemma Carrying(db: Db, after: Db, source: Slot, dest: Slot, content: Item, existing: Option<Item>, updated: Item,
                 amount: uint32)
    requires !source.Equip? && !dest.Equip? && source != dest
    requires Holds(db, source, Some(content)) && Holds(db, dest, existing)
    requires StackedInto(content, existing, Moved(content, amount)) == Some(updated)
    requires HasRoom(existing, Moved(content, amount))
    requires Rewrote(db, after, map[source := Left(content, Moved(content, amount)), dest := Some(updated)])
    ensures Carried(db, after, source, dest, content, Share(content, amount))
  {
    var contents := map[source := Left(content, Moved(content, amount)), dest := Some(updated)];
    assert source in contents && dest in contents;
    forall id
      ensures Gained(db, after, dest, id) == if id == content.id then Share(content, amount) else 0
      ensures Gained(db, after, source, id) == if id == content.id then 0 - Share(content, amount) else 0
    {
      StackingConserves(content, existing, Moved(content, amount), id);
    }
  }

  /** A withdrawal carries what was asked for, at most what there is, from the bank slot to the bag slot for a fee.
      It is queued when the bag slot takes the item, and commits if and only if both slots still are what the player saw
      and the wallet still covers the fee. */
  lemma WithdrawalCarries(items: ItemTable, s: State, p: Player, bankSlot: uint32, wire: uint32, amount: uint32, db: Db)
    requires p.bank.Some?
    ensures var ch := p.session.ch;
            var vault, slot := Vault(p.bank.value.id, bankSlot), BagSlot(ch, wire);
            var existing := Lookup(p.character.slots, slot);
            var work := WorkFor(items, s, p, StoreItemOut(bankSlot, wire, amount));
            (work.Some? <==> 0 < amount && bankSlot < BANK_SLOTS && vault in p.bank.value.items
                             && WITHDRAWAL_FEE <= p.character.money && Takes(existing, p.bank.value.items[vault]))
            && (work.Some? && Rooted(db, ch, work.value)
                ==> var content := p.bank.value.items[vault];
                    var r := Perform(items, db, ch, work.value);
                    (r.Some? <==> Holds(db, slot, existing) && Holds(db, vault, Some(content))
                                  && Covers(db, Wallet(ch), WITHDRAWAL_FEE))
                    && (r.Some? ==> Paid(db, r.value.0, Wallet(ch), WITHDRAWAL_FEE)
                                    && (HasRoom(existing, Moved(content, amount))
                                        ==> Carried(db, r.value.0, vault, slot, content, Share(content, amount)))))
  {
    hide Rewrote, Carried, Holds, Perform, Rooted, Paid, Covers;
    var work := WorkFor(items, s, p, StoreItemOut(bankSlot, wire, amount));
    if work.Some? && Rooted(db, p.session.ch, work.value) {
      var w := work.value;
      WithdrawalCommits(items, db, p.session.ch, w);
      var r := Perform(items, db, p.session.ch, w);
      if r.Some? && HasRoom(w.existing, Moved(w.content, amount)) {
        assert map[w.slot := Some(w.updated), w.vault := w.remaining]
               == map[w.vault := w.remaining, w.slot := Some(w.updated)];
        Carrying(db, r.value.0, w.vault, w.slot, w.content, w.existing, w.updated, amount);
      }
    }
  }

  /** A deposit carries the other way, for free. */
  lemma DepositCarries(items: ItemTable, s: State, p: Player, wire: uint32, bankSlot: uint32, amount: uint32, db: Db)
    requires p.bank.Some?
    ensures var ch := p.session.ch;
            var vault, slot := Vault(p.bank.value.id, bankSlot), BagSlot(ch, wire);
            var existing := Lookup(p.bank.value.items, vault);
            var work := WorkFor(items, s, p, StoreItemIn(wire, bankSlot, amount));
            (work.Some? <==> 0 < amount && bankSlot < BANK_SLOTS && slot in p.character.slots
                             && Takes(existing, p.character.slots[slot]))
            && (work.Some? && Rooted(db, ch, work.value)
                ==> var content := p.character.slots[slot];
                    var r := Perform(items, db, ch, work.value);
                    (r.Some? <==> Holds(db, slot, Some(content)) && Holds(db, vault, existing))
                    && (r.Some? ==> KeptMoney(db, r.value.0)
                                    && (HasRoom(existing, Moved(content, amount))
                                        ==> Carried(db, r.value.0, slot, vault, content, Share(content, amount)))))
  {
    hide Rewrote, Carried, Holds, Perform, Rooted, KeptMoney;
    var work := WorkFor(items, s, p, StoreItemIn(wire, bankSlot, amount));
    if work.Some? && Rooted(db, p.session.ch, work.value) {
      var w := work.value;
      DepositCommits(items, db, p.session.ch, w);
      var r := Perform(items, db, p.session.ch, w);
      if r.Some? && HasRoom(w.existing, Moved(w.content, amount)) {
        assert map[w.vault := Some(w.updated), w.slot := w.remaining]
               == map[w.slot := w.remaining, w.vault := Some(w.updated)];
        Carrying(db, r.value.0, w.slot, w.vault, w.content, w.existing, w.updated, amount);
      }
    }
  }

  /** Withdrawing what was just deposited in a free bank slot puts both rows back, with the level the bank row does
      not show; only the fee is gone. */
  lemma DepositThenWithdrawIsNone(items: ItemTable, s: State, p: Player, wire: uint32, bankSlot: uint32, amount: uint32,
                                  db: Db)
    requires p.bank.Some? && Vault(p.bank.value.id, bankSlot) !in p.bank.value.items
    requires Covers(db, Wallet(p.session.ch), WITHDRAWAL_FEE) && WITHDRAWAL_FEE <= p.character.money
    requires var work := WorkFor(items, s, p, StoreItemIn(wire, bankSlot, amount));
             work.Some? && Rooted(db, p.session.ch, work.value) && Perform(items, db, p.session.ch, work.value).Some?
    ensures var (after, told) :=
              Perform(items, db, p.session.ch, WorkFor(items, s, p, StoreItemIn(wire, bankSlot, amount)).value).value;
            var back := WorkFor(items, s, ApplyEffects(p, told), StoreItemOut(bankSlot, wire, amount));
            back.Some? && Perform(items, after, p.session.ch, back.value).Some?
            && var end := Perform(items, after, p.session.ch, back.value).value.0;
               Rewrote(db, end, map[]) && Paid(db, end, Wallet(p.session.ch), WITHDRAWAL_FEE)
  {
    hide Perform, Rooted, Rewrote, Holds, ApplyEffects, Effects, Paid, Covers, KeptMoney;
    var ch := p.session.ch;
    var work := WorkFor(items, s, p, StoreItemIn(wire, bankSlot, amount)).value;
    DepositCommits(items, db, ch, work);
    var (after, told) := Perform(items, db, ch, work).value;
    DepositReachesMemory(p, work, after);
    var q := ApplyEffects(p, told);
    var back := WorkFor(items, s, q, StoreItemOut(bankSlot, wire, amount));
    assert back == Some(Withdraw(work.slot, work.remaining, work.content, work.vault, work.updated, None));
    DepositUndone(items, db, after, ch, work, back.value);
  }

  lemma DepositReachesMemory(p: Player, work: Work, db: Db)
    requires work.Deposit? && work.slot.Bag? && work.vault.Vault? && work.slot.owner == p.session.ch
    requires p.bank.Some? && p.bank.value.id == work.vault.owner
    ensures var q := ApplyEffects(p, Effects(p.session.ch, work, db));
            q.session == p.session && q.bank.Some? && q.bank.value.id == p.bank.value.id
            && Lookup(q.bank.value.items, work.vault) == Some(work.updated)
            && Lookup(q.character.slots, work.slot) == work.remaining && q.character.money == p.character.money
  {
    TwoEffects(p, Effects(p.session.ch, work, db));
  }

  lemma DepositUndone(items: ItemTable, db: Db, after: Db, ch: int, work: Work, back: Work)
    requires work.Deposit? && work.slot != work.vault && work.existing.None?
    requires back == Withdraw(work.slot, work.remaining, work.content, work.vault, work.updated, None)
    requires Holds(db, work.slot, Some(work.content)) && Holds(db, work.vault, None)
    requires Rewrote(db, after, map[work.vault := Some(work.updated), work.slot := work.remaining])
             && KeptMoney(db, after)
    requires Covers(db, Wallet(ch), WITHDRAWAL_FEE)
    ensures var r := Perform(items, after, ch, back);
            r.Some? && Rewrote(db, r.value.0, map[]) && Paid(db, r.value.0, Wallet(ch), WITHDRAWAL_FEE)
  {
    hide Perform;
    var contents := map[work.vault := Some(work.updated), work.slot := work.remaining];
    assert work.vault in contents && work.slot in contents;
    assert Rooted(after, ch, back);
    WithdrawalCommits(items, after, ch, back);
    UndoneRewrite(db, after, Perform(items, after, ch, back).value.0, contents,
                  map[back.slot := Some(back.updated), back.vault := back.remaining]);
  }

  /** Only these two balances differ: `sum` went from one to the other. */
  predicate Transferred(db: Db, after: Db, payer: Account, payee: Account, sum: int) {
    payer in db.money && payee in db.money
    && after == db.(money := db.money[payer := db.money[payer] - sum][payee := db.money[payee] + sum])
  }

  function TransferRequest(sum: int, withdrawing: bool): Request {
    if withdrawing then StoreMoneyOut(sum) else StoreMoneyIn(sum)
  }

  /** Money moves between wallet and bank, all of it or nothing: it needs the payer's balance, in memory to be
      queued and in the tables to commit. */
  lemma MoneyMoves(items: ItemTable, s: State, p: Player, sum: int, withdrawing: bool, db: Db)
    requires p.bank.Some?
    ensures var ch := p.session.ch;
            var wallet, safe := Wallet(ch), Safe(p.bank.value.id);
            var payer, payee := if withdrawing then safe else wallet, if withdrawing then wallet else safe;
            var work := WorkFor(items, s, p, TransferRequest(sum, withdrawing));
            (work.Some? <==> 0 < sum <= if withdrawing then p.bank.value.money else p.character.money)
            && (work.Some?
                ==> var r := Perform(items, db, ch, work.value);
                    (r.Some? <==> Covers(db, payer, sum) && payee in db.money)
                    && (r.Some? ==> Transferred(db, r.value.0, payer, payee, sum)))
  {
    var work := WorkFor(items, s, p, TransferRequest(sum, withdrawing));
    if work.Some? {
      TwoWrites(db, Writes(p.session.ch, work.value));
    }
  }

  /** Moving the same sum back afterwards commits whatever the sum, and leaves the tables as they were. */
  lemma MoneyThereAndBackIsNone(items: ItemTable, s: State, p: Player, sum: int, withdrawing: bool, db: Db)
    requires p.bank.Some? && Solvent(db)
    requires var work := WorkFor(items, s, p, TransferRequest(sum, withdrawing));
             work.Some? && Perform(items, db, p.session.ch, work.value).Some?
    ensures var (after, told) := Perform(items, db, p.session.ch,
                                         WorkFor(items, s, p, TransferRequest(sum, withdrawing)).value).value;
            var back := WorkFor(items, s, ApplyEffects(p, told), TransferRequest(sum, !withdrawing));
            back.Some? && Perform(items, after, p.session.ch, back.value).Some?
            && Perform(items, after, p.session.ch, back.value).value.0 == db
  {
    hide Perform, ApplyEffects;
    MoneyMoves(items, s, p, sum, withdrawing, db);
    var work := WorkFor(items, s, p, TransferRequest(sum, withdrawing)).value;
    var (after, told) := Perform(items, db, p.session.ch, work).value;
    MoneyReachesMemory(items, p, db, work);
    var q := ApplyEffects(p, told);
    MoneyMoves(items, s, q, sum, !withdrawing, after);
    var wallet, safe := Wallet(p.session.ch), Safe(p.bank.value.id);
    assert db.money[wallet := db.money[wallet]][safe := db.money[safe]] == db.money;
  }

  lemma MoneyReachesMemory(items: ItemTable, p: Player, db: Db, work: Work)
    requires (work.MoneyOut? || work.MoneyIn?) && p.bank.Some? && p.bank.value.id == work.bank
    requires Perform(items, db, p.session.ch, work).Some?
    ensures var (after, told) := Perform(items, db, p.session.ch, work).value;
            var q := ApplyEffects(p, told);
            q.session == p.session && q.bank.Some? && q.bank.value.id == work.bank
            && q.bank.value.money == BalanceAt(after, Safe(work.bank))
            && q.character.money == BalanceAt(after, Wallet(p.session.ch))
  {
    var (after, told) := Perform(items, db, p.session.ch, work).value;
    TwoEffects(p, told);
  }

  // ---- Trading ------------------------------------------------------------------------------------------------

  /** A purchase adds the units asked for, for the table price of each. */
  lemma PurchaseAdds(items: ItemTable, s: State, p: Player, item: uint32, wire: uint32, amount: uint32, db: Db)
    ensures var ch := p.session.ch;
            var slot := BagSlot(ch, wire);
            var existing := Lookup(p.character.slots, slot);
            var work := WorkFor(items, s, p, BuyItem(item, wire, amount));
            (work.Some? <==> 0 < amount && item in items && items[item].buyPrice * amount <= p.character.money
                             && Takes(existing, Item(item, 0, 0, false, 0, 0)))
            && (work.Some? && Rooted(db, ch, work.value)
                ==> var cost := items[item].buyPrice * amount;
                    var r := Perform(items, db, ch, work.value);
                    (r.Some? <==> Holds(db, slot, existing) && Covers(db, Wallet(ch), cost))
                    && (r.Some? ==> Paid(db, r.value.0, Wallet(ch), cost)
                                    && Rewrote(db, r.value.0, map[slot := Some(work.value.updated)])
                                    && (HasRoom(existing, amount)
                                        ==> GainedOnly(db, r.value.0, slot, item, amount))))
  {
    hide Holds, Rewrote, Paid, Covers, GainedOnly, Perform, Rooted;
    var work := WorkFor(items, s, p, BuyItem(item, wire, amount));
    if work.Some? && Rooted(db, p.session.ch, work.value) {
      PurchaseCommits(items, db, p.session.ch, work.value);
      var r := Perform(items, db, p.session.ch, work.value);
      if r.Some? && HasRoom(work.value.existing, amount) {
        Adding(db, r.value.0, work.value, item);
      }
    }
  }

  lemma PurchaseCommits(items: ItemTable, db: Db, ch: int, work: Work)
    requires work.Buy? && Rooted(db, ch, work)
    ensures var Buy(slot, existing, updated, _, cost) := work;
            var r := Perform(items, db, ch, work);
            (r.Some? <==> Holds(db, slot, existing) && Covers(db, Wallet(ch), cost))
            && (r.Some? ==> Paid(db, r.value.0, Wallet(ch), cost) && Rewrote(db, r.value.0, map[slot := Some(updated)])
                            && r.value.1 == Effects(ch, work, r.value.0))
  {
    var ws := Writes(ch, work);
    TwoWrites(db, ws);
    assert ws[1] in ws;
  }

  lemma Adding(db: Db, after: Db, work: Work, item: uint32)
    requires work.Buy? && work.slot.Bag? && HasRoom(work.existing, work.count)
    requires StackedInto(Item(item, 0, 0, false, 0, 0), work.existing, work.count) == Some(work.updated)
    requires Holds(db, work.slot, work.existing) && Rewrote(db, after, map[work.slot := Some(work.updated)])
    ensures GainedOnly(db, after, work.slot, item, work.count)
  {
    var contents := map[work.slot := Some(work.updated)];
    assert work.slot in contents;
    forall id ensures Gained(db, after, work.slot, id) == if id == item then work.count else 0 {
      StackingConserves(Item(item, 0, 0, false, 0, 0), work.existing, work.count, id);
    }
  }

  /** A sale removes what was offered, at most what there is, and earns the table price of each unit. */
  lemma SaleRemoves(items: ItemTable, s: State, p: Player, wire: uint32, count: uint32, db: Db)
    ensures var ch := p.session.ch;
            var slot := BagSlot(ch, wire);
            var work := WorkFor(items, s, p, SellItem(wire, count));
            (work.Some? <==> 0 < count && slot in p.character.slots && p.character.slots[slot].id in items)
            && (work.Some? && Rooted(db, ch, work.value)
                ==> var content := p.character.slots[slot];
                    var sold := Share(content, count);
                    var r := Perform(items, db, ch, work.value);
                    (r.Some? <==> Holds(db, slot, Some(content)) && Wallet(ch) in db.money)
                    && (r.Some? ==> Earned(db, r.value.0, Wallet(ch), items[content.id].sellPrice * sold)
                                    && Rewrote(db, r.value.0, map[slot := work.value.remaining])
                                    && GainedOnly(db, r.value.0, slot, content.id, 0 - sold)))
  {
    hide Holds, Rewrote, Earned, GainedOnly, Perform, Rooted;
    var work := WorkFor(items, s, p, SellItem(wire, count));
    if work.Some? && Rooted(db, p.session.ch, work.value) {
      var w := work.value;
      SaleCommits(items, db, p.session.ch, w);
      var r := Perform(items, db, p.session.ch, w);
      if r.Some? {
        Removing(db, r.value.0, w.slot, w.content, w.remaining, Share(w.content, count));
      }
    }
  }

  lemma SaleCommits(items: ItemTable, db: Db, ch: int, work: Work)
    requires work.Sell? && Rooted(db, ch, work)
    ensures var Sell(slot, content, remaining, _, earned) := work;
            var r := Perform(items, db, ch, work);
            (r.Some? <==> Holds(db, slot, Some(content)) && Wallet(ch) in db.money)
            && (r.Some? ==> Earned(db, r.value.0, Wallet(ch), earned) && Rewrote(db, r.value.0, map[slot := remaining]))
  {
    var ws := Writes(ch, work);
    TwoWrites(db, ws);
    assert ws[0] in ws;
    RewriteCommits(db, work.slot, work.content, work.remaining);
  }

  lemma Removing(db: Db, after: Db, slot: Slot, content: Item, remaining: Option<Item>, sold: nat)
    requires slot.Bag? && SplitsOff(content, remaining)
    requires sold == if content.equippable then 1 else MovedUnits(content, remaining)
    requires Holds(db, slot, Some(content)) && Rewrote(db, after, map[slot := remaining])
    ensures GainedOnly(db, after, slot, content.id, 0 - sold)
  {
    var contents := map[slot := remaining];
    assert slot in contents;
  }

  /** Selling what was just bought puts the row back; the wallet is short by the spread of each unit. */
  lemma BuyThenSellIsTheSpread(items: ItemTable, s: State, p: Player, item: uint32, wire: uint32, amount: uint32,
                               db: Db)
    requires var work := WorkFor(items, s, p, BuyItem(item, wire, amount));
             work.Some? && Rooted(db, p.session.ch, work.value) && Perform(items, db, p.session.ch, work.value).Some?
    requires var existing := Lookup(p.character.slots, BagSlot(p.session.ch, wire));
             HasRoom(existing, amount) && (existing.Some? ==> 0 < existing.value.quantity)
    ensures var (after, told) := Perform(items, db, p.session.ch,
                                         WorkFor(items, s, p, BuyItem(item, wire, amount)).value).value;
            var back := WorkFor(items, s, ApplyEffects(p, told), SellItem(wire, amount));
            back.Some? && Perform(items, after, p.session.ch, back.value).Some?
            && var end := Perform(items, after, p.session.ch, back.value).value.0;
               Rewrote(db, end, map[])
               && Earned(db, end, Wallet(p.session.ch), (items[item].sellPrice - items[item].buyPrice) * amount)
  {
    hide Perform, Rooted, Rewrote, Holds, ApplyEffects, Effects, Paid, Earned, Covers;
    var ch := p.session.ch;
    var work := WorkFor(items, s, p, BuyItem(item, wire, amount)).value;
    PurchaseCommits(items, db, ch, work);
    var (after, told) := Perform(items, db, ch, work).value;
    PurchaseReachesMemory(p, work, after);
    SaleOfPurchase(items, s, p, ApplyEffects(p, told), item, wire, amount);
    PurchaseUndone(items, db, after, ch, work, WorkFor(items, s, ApplyEffects(p, told), SellItem(wire, amount)).value);
    Spread(items[item].sellPrice, items[item].buyPrice, amount);
  }

  lemma Spread(sell: int, buy: int, amount: int)
    ensures sell * amount - buy * amount == (sell - buy) * amount
  {
  }

  lemma SaleOfPurchase(items: ItemTable, s: State, p: Player, q: Player, item: uint32, wire: uint32, amount: uint32)
    requires WorkFor(items, s, p, BuyItem(item, wire, amount)).Some?
    requires var existing := Lookup(p.character.slots, BagSlot(p.session.ch, wire));
             HasRoom(existing, amount) && (existing.Some? ==> 0 < existing.value.quantity)
    requires var work := WorkFor(items, s, p, BuyItem(item, wire, amount)).value;
             q.session == p.session && Lookup(q.character.slots, work.slot) == Some(work.updated)
    ensures var work := WorkFor(items, s, p, BuyItem(item, wire, amount)).value;
            WorkFor(items, s, q, SellItem(wire, amount))
            == Some(Sell(work.slot, work.updated, work.existing, amount, items[item].sellPrice * amount))
  {
  }

  lemma PurchaseReachesMemory(p: Player, work: Work, db: Db)
    requires work.Buy? && work.slot.Bag? && work.slot.owner == p.session.ch
    ensures var q := ApplyEffects(p, Effects(p.session.ch, work, db));
            q.session == p.session && Lookup(q.character.slots, work.slot) == Some(work.updated)
  {
    TwoEffects(p, Effects(p.session.ch, work, db));
  }

  lemma PurchaseUndone(items: ItemTable, db: Db, after: Db, ch: int, work: Work, back: Work)
    requires work.Buy? && back.Sell? && back.slot == work.slot && back.content == work.updated
             && back.remaining == work.existing
    requires Holds(db, work.slot, work.existing) && Rewrote(db, after, map[work.slot := Some(work.updated)])
    requires Paid(db, after, Wallet(ch), work.cost)
    ensures var r := Perform(items, after, ch, back);
            r.Some? && Rewrote(db, r.value.0, map[]) && Earned(db, r.value.0, Wallet(ch), back.earned - work.cost)
  {
    hide Perform;
    var contents := map[work.slot := Some(work.updated)];
    assert work.slot in contents;
    assert Rooted(after, ch, back);
    SaleCommits(items, after, ch, back);
    UndoneRewrite(db, after, Perform(items, after, ch, back).value.0, contents, map[back.slot := back.remaining]);
  }

  // ---- Quests -------------------------------------------------------------------------------------------------

  /** Finishing a quest always queues; the job commits if and only if the quest is not claimed yet and its money has
      a wallet to go to: a bag without room skips rewards but refuses nothing. Afterwards the quest is claimed, and only
      then. */
  lemma TurnInCommits(items: ItemTable, s: State, p: Player, quest: Quest, order: seq<uint32>, db: Db)
    requires p.character.slots.Keys <= db.rows.Keys
    ensures var ch := p.session.ch;
            var work := WorkFor(items, s, p, FinishQuest(quest, order));
            work.Some?
            && var r := Perform(items, db, ch, work.value);
               (r.Some? <==> (quest.flag == 0 || (ch, quest.flag) !in db.flags)
                             && (quest.cegel == 0 || Wallet(ch) in db.money))
               && (r.Some? ==> r.value.0.flags == db.flags + (if quest.flag == 0 then {} else {(ch, quest.flag)})
                               && r.value.0.money == if quest.cegel == 0 then db.money
                                                     else db.money[Wallet(ch) := db.money[Wallet(ch)] + quest.cegel])
  {
    hide GrantAll, RunAll, BagSaves, Report;
    var ch := p.session.ch;
    var ws := GrantAll(items, db, ch, p.character.slots, order, quest.rewards);
    RewardsLand(items, db, ch, p.character.slots, order, quest.rewards);
    BagSavesOnly(db, ch, ws);
    var given := RunAll(db, ws).value;
    var pay := if quest.cegel != 0 then [Credit(Wallet(ch), quest.cegel)] else [];
    RunAllConcat(db, ws, pay);
    if quest.cegel == 0 {
      NoWrites(given);
    } else {
      OneWrite(given, pay);
    }
  }

  lemma NoWrites(db: Db)
    ensures RunAll(db, []) == Some(db)
  {
  }

  lemma BagSavesOnly(db: Db, ch: int, ws: seq<Write>)
    requires BagSaves(db, ch, ws)
    ensures RunAll(db, ws).Some? && RunAll(db, ws).value.money == db.money && RunAll(db, ws).value.flags == db.flags
  {
    RowsStay(db, ws);
    SavesKeepMoney(db, ws);
  }

  // ---- Duplicates ---------------------------------------------------------------------------------------------

  /** A request that takes from a slot or adds to one. */
  predicate TakesOrAdds(req: Request) {
    req.DropItem? || req.DeleteItem? || req.StoreItemOut? || req.StoreItemIn? || req.BuyItem? || req.SellItem?
  }

  /** A client that sends such a request twice before the first has committed has both queued, but only one of them
      counts: where the first has just committed the second is refused. */
  lemma DuplicateIsRefused(items: ItemTable, s: State, p: Player, req: Request, db: Db)
    requires TakesOrAdds(req) && WorkFor(items, s, p, req).Some?
    requires var work := WorkFor(items, s, p, req).value;
             Rooted(db, p.session.ch, work) && Perform(items, db, p.session.ch, work).Some?
    ensures var work := WorkFor(items, s, p, req).value;
            var after := Perform(items, db, p.session.ch, work).value.0;
            Rooted(after, p.session.ch, work) && Perform(items, after, p.session.ch, work).None?
  {
    hide Perform, Rooted, Rewrote, Paid, Earned, Covers, KeptMoney;
    var ch := p.session.ch;
    var work := WorkFor(items, s, p, req).value;
    var after := Perform(items, db, ch, work).value.0;
    StillRooted(items, db, ch, work);
    match req
    case DropItem(wire, quantity) =>
      DropSplits(items, s, p, wire, quantity, db);
      DropSplits(items, s, p, wire, quantity, after);
      ChangedSlot(db, after, map[work.slot := work.remaining], work.slot, Some(work.content));
    case DeleteItem(wire) =>
      DeleteEmpties(items, s, p, wire, db);
      DeleteEmpties(items, s, p, wire, after);
      ChangedSlot(db, after, map[work.slot := None], work.slot, Some(work.content));
    case SellItem(_, _) =>
      SaleCommits(items, db, ch, work);
      SaleCommits(items, after, ch, work);
      ChangedSlot(db, after, map[work.slot := work.remaining], work.slot, Some(work.content));
    case _ => DuplicateStackingIsRefused(items, s, p, req, db);
  }

  lemma DuplicateStackingIsRefused(items: ItemTable, s: State, p: Player, req: Request, db: Db)
    requires (req.StoreItemOut? || req.StoreItemIn? || req.BuyItem?) && WorkFor(items, s, p, req).Some?
    requires var work := WorkFor(items, s, p, req).value;
             Rooted(db, p.session.ch, work) && Perform(items, db, p.session.ch, work).Some?
    ensures var work := WorkFor(items, s, p, req).value;
            Perform(items, Perform(items, db, p.session.ch, work).value.0, p.session.ch, work).None?
  {
    hide Perform, Rooted, Rewrote, Paid, Covers, KeptMoney;
    var ch := p.session.ch;
    var work := WorkFor(items, s, p, req).value;
    var after := Perform(items, db, ch, work).value.0;
    StillRooted(items, db, ch, work);
    match req
    case StoreItemOut(_, _, _) =>
      WithdrawalCommits(items, db, ch, work);
      WithdrawalCommits(items, after, ch, work);
      ChangedSlot(db, after, map[work.slot := Some(work.updated), work.vault := work.remaining], work.vault,
                  Some(work.content));
    case StoreItemIn(_, _, _) =>
      DepositCommits(items, db, ch, work);
      DepositCommits(items, after, ch, work);
      ChangedSlot(db, after, map[work.vault := Some(work.updated), work.slot := work.remaining], work.slot,
                  Some(work.content));
    case BuyItem(_, _, _) =>
      PurchaseCommits(items, db, ch, work);
      PurchaseCommits(items, after, ch, work);
      ChangedSlot(db, after, map[work.slot := Some(work.updated)], work.slot, work.existing);
  }

  lemma ChangedSlot(db: Db, after: Db, contents: map<Slot, Option<Item>>, slot: Slot, content: Option<Item>)
    requires Rewrote(db, after, contents) && slot in contents
    requires Columns(slot, contents[slot]) != Columns(slot, content)
    ensures !Holds(after, slot, content)
  {
  }

  lemma StillRooted(items: ItemTable, db: Db, ch: int, work: Work)
    requires Rooted(db, ch, work) && Perform(items, db, ch, work).Some? && Plan(items, db, ch, work).Some?
    requires !work.Appraise? && !work.TurnIn?
    ensures Rooted(Perform(items, db, ch, work).value.0, ch, work)
  {
    hide Writes;
    RowsStay(db, Plan(items, db, ch, work).value.0);
  }
}