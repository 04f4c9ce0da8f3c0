/** What requests and their callbacks show: the bank that is opened, where drops lie, who is in the world, and which
    slot a number on the wire means. */
module Presence {
  import opened Wrappers
  import opened Items
  import opened SlotRows
  import opened Protocol
  import opened Ledger
  import opened Requests

  // ---- Slots on the wire --------------------------------------------------------------------------------------

  /** The number the client is told for a bag slot. */
  function WireBagSlot(index: uint32): int {
    13 + index
  }

  /** What the client is told for a bag slot comes back as that slot from every request; numbers below are
      equipment, except where a request knows only bag slots and the subtraction wraps to an index no bag has. */
  lemma WireSlotsComeBack(ch: int, index: uint32, wire: uint32)
    ensures index < BAG_SLOTS ==> WireBagSlot(index) < WRAP && BagSlot(ch, WireBagSlot(index)) == Bag(ch, index)
                                  && WireSlot(ch, WireBagSlot(index)) == Bag(ch, index)
    ensures wire <= 12 ==> WireSlot(ch, wire) == Equip(ch, wire) && BagSlot(ch, wire).Bag?
                           && BagSlot(ch, wire).index == WRAP - 13 + wire
    ensures wire >= 13 ==> WireSlot(ch, wire) == BagSlot(ch, wire) && WireSlot(ch, wire).Bag?
                           && WireSlot(ch, wire).owner == ch && WireBagSlot(WireSlot(ch, wire).index) == wire
  {
  }

  // ---- The bank that is opened ----------------------------------------------------------------------------------

  /** A committed opening changes no table and shows exactly the player's own bank: its balance, and in every slot
      what its row holds. */
  lemma OpeningShowsTheBank(items: ItemTable, s: State, p: Player, db: Db)
    requires RowsWellFormed(db)
    ensures WorkFor(items, s, p, StoreOpen).Some?
    ensures var work := WorkFor(items, s, p, StoreOpen).value;
            var r := Perform(items, db, p.session.ch, work);
            r.Some? ==>
              var (after, told) := r.value;
              var q := ApplyEffects(p, told);
              after == db && Safe(p.account) in db.money && q == p.(bank := q.bank) && q.bank.Some?
              && q.bank.value.id == p.account && q.bank.value.money == db.money[Safe(p.account)]
              && (forall i: uint32 :: Holds(db, Vault(p.account, i), Lookup(q.bank.value.items, Vault(p.account, i))))
              && forall slot | slot in q.bank.value.items :: slot.Vault? && slot.owner == p.account
  {
    var work := WorkFor(items, s, p, StoreOpen).value;
    var r := Perform(items, db, p.session.ch, work);
    if r.Some? {
      OneEffect(p, r.value.1);
      forall i: uint32
        ensures Holds(db, Vault(p.account, i), Lookup(LoadBank(db, p.account).items, Vault(p.account, i)))
      {
        var slot := Vault(p.account, i);
        if slot in db.rows {
          RowRoundTrip(slot, db.rows[slot], None);
        }
      }
    }
  }

  /** Without an open bank, and after closing one, nothing is deposited or withdrawn. */
  lemma ClosedBankIsShut(items: ItemTable, s: State, conn: int, req: Request)
    requires conn in s.players
    requires req.StoreItemOut? || req.StoreItemIn? || req.StoreMoneyOut? || req.StoreMoneyIn?
    ensures var closed := Handle(items, s, conn, StoreClose);
            conn in closed.players && closed.players[conn].session == s.players[conn].session
            && Handle(items, closed, conn, req) == closed
  {
  }

  // ---- Pickups ------------------------------------------------------------------------------------------------

  /** A pickup queues when the drop lies on the player's map and the slot takes it; the drop leaves the ground at
      once. The job commits if and only if the slot still is what the player saw, and adds the drop's units to it. */
  lemma PickupAdds(items: ItemTable, s: State, p: Player, id: nat, wire: uint32, db: Db)
    ensures var ch := p.session.ch;
            var spot, slot := Spot(p.mapId, id), BagSlot(ch, wire);
            var existing := Lookup(p.character.slots, slot);
            var work := WorkFor(items, s, p, PickUpItem(id, wire));
            (work.Some? <==> spot in s.ground && Takes(existing, s.ground[spot]))
            && (work.Some? && Rooted(db, ch, work.value)
                ==> var drop := s.ground[spot];
                    var r := Perform(items, db, ch, work.value);
                    work.value.spot == spot
                    && (r.Some? <==> Holds(db, slot, existing))
                    && (r.Some? ==> KeptMoney(db, r.value.0)
                                    && Rewrote(db, r.value.0, map[slot := Some(work.value.updated)])
                                    && (HasRoom(existing, drop.quantity)
                                        ==> GainedOnly(db, r.value.0, slot, drop.id, Units(drop, drop.id)))))
  {
    hide GainedOnly, Rewrote, KeptMoney, Holds;
    var work := WorkFor(items, s, p, PickUpItem(id, wire));
    if work.Some? && Rooted(db, p.session.ch, work.value) {
      PickupCommits(items, db, p.session.ch, work.value);
      var r := Perform(items, db, p.session.ch, work.value);
      if r.Some? && HasRoom(work.value.existing, work.value.drop.quantity) {
        PickedUnits(db, r.value.0, work.value);
      }
    }
  }

  lemma PickupCommits(items: ItemTable, db: Db, ch: int, work: Work)
    requires work.PickUp? && Rooted(db, ch, work)
    ensures var r := Perform(items, db, ch, work);
            (r.Some? <==> Holds(db, work.slot, work.existing))
            && (r.Some? ==> KeptMoney(db, r.value.0) && Rewrote(db, r.value.0, map[work.slot := Some(work.updated)]))
  {
    var ws := Writes(ch, work);
    OneWrite(db, ws);
    assert ws[0] in ws;
  }

  lemma PickedUnits(db: Db, after: Db, work: Work)
    requires work.PickUp? && work.slot.Bag? && HasRoom(work.existing, work.drop.quantity)
    requires StackedInto(work.drop, work.existing, work.drop.quantity) == Some(work.updated)
    requires Holds(db, work.slot, work.existing) && Rewrote(db, after, map[work.slot := Some(work.updated)])
    ensures GainedOnly(db, after, work.slot, work.drop.id, Units(work.drop, work.drop.id))
  {
    var contents := map[work.slot := Some(work.updated)];
    assert work.slot in contents;
    forall id ensures Gained(db, after, work.slot, id) == if id == work.drop.id then Units(work.drop, work.drop.id)
           else 0 {
      StackingConserves(work.drop, work.existing, work.drop.quantity, id);
    }
  }

  // ---- Where drops lie and who is in the world --------------------------------------------------------------------

  /** A drop lies on the map its dropper was on when it asked, wherever it is by then: queued with that map, and set
      on a free spot of it by the callback. */
  lemma DropLiesWhereItWasDropped(items: ItemTable, s: State, p: Player, wire: uint32, quantity: uint32, t: State)
    requires var work := WorkFor(items, s, p, DropItem(wire, quantity));
             work.Some? && DropsUnique(t) && t.done != [] && t.done[0].Committed? && t.done[0].work == work.value
    ensures var work := WorkFor(items, s, p, DropItem(wire, quantity)).value;
            var spot := Spot(p.mapId, t.nextId);
            spot !in t.ground && RunCallback(t).ground == t.ground[spot := work.dropped]
  {
    hide ApplyEffects;
    var spot := Spot(p.mapId, t.nextId);
    assert Copies(t, spot) == 0;
  }

  /** The request whose completion takes its player out of the world. */
  predicate LeavesTheWorld(req: Request) {
    req.FinishQuest? && req.quest.warp
  }

  /** Only the turn-in of a quest that warps queues work that leaves the world. */
  lemma OnlyWarpsLeave(items: ItemTable, s: State, p: Player, req: Request)
    requires WorkFor(items, s, p, req).Some?
    ensures Warps(WorkFor(items, s, p, req).value) <==> LeavesTheWorld(req)
  {
  }

  /** It does so once it has committed. No request and no job adds or removes a player, and a callback adds one only by
      completing a load. */
  lemma WhoIsInTheWorld(items: ItemTable, s: State, conn: int, req: Request, mapId: int, throws: bool)
    ensures Handle(items, s, conn, req).players.Keys == s.players.Keys
    ensures RunJob(items, s, mapId, throws).players == s.players
    ensures s.done != [] ==>
              var cb, next := s.done[0], RunCallback(s).players.Keys;
              next == if cb.Committed? && Warps(cb.work) then s.players.Keys - {cb.src.conn}
                      else if cb.Loaded? && cb.conn in s.connected && !Online(s, cb.ch) then s.players.Keys + {cb.conn}
                      else s.players.Keys
  {
    hide WorkFor, Perform, LoadCharacter, ApplyEffects;
  }
}
