/** What a turn-in's rewards add to the bag: the pieces and stacks that land, less what a wrapped stack loses. */
module Rewards {
  import opened Wrappers
  import opened Items
  import opened SlotRows
  import opened Protocol
  import opened Plans

  function RewardUnits(reward: Reward): nat {
    if reward.count > 0 then reward.count else 1
  }

  predicate Stacks(items: ItemTable, reward: Reward) {
    reward.item != 0 && reward.item in items && items[reward.item].stackable
  }

  /** The units of the stack a stackable reward would join; none when it would open a free slot. */
  function Held(ch: int, slots: map<Slot, Item>, order: seq<uint32>, item: uint32): (held: nat)
    ensures held < WRAP
  {
    var stack := StackSlot(ch, slots, order, item);
    if stack.Some? && stack.value in slots then slots[stack.value].quantity else 0
  }

  // ---- One reward -------------------------------------------------------------------------------------------

  /** What the player is told: every piece of gear that landed, or the whole stack. */
  function UnitsGranted(items: ItemTable, reward: Reward, ws: seq<Write>): nat {
    if ws == [] then 0 else if Stacks(items, reward) then RewardUnits(reward) else |ws|
  }

  /** What the 32-bit sum of a landed stack drops. */
  function UnitsWrapped(items: ItemTable, held: nat, reward: Reward, ws: seq<Write>): nat {
    if ws == [] || !Stacks(items, reward) then 0 else WRAP * ((held + RewardUnits(reward)) / WRAP)
  }

  lemma WrappedSum(held: nat, units: nat)
    requires held < WRAP
    ensures (held + units % WRAP) % WRAP - held == units - WRAP * ((held + units) / WRAP)
  {
    assert held + units == held + units % WRAP + WRAP * (units / WRAP);
  }

  lemma {:induction false} GearUnits(db: Db, ch: int, slots: map<Slot, Item>, item: uint32, units: nat, id: uint32)
    ensures var ws := GrantGear(db, ch, slots, item, units);
            |ws| <= units && UnitsFlow(ws, id) == if id == item then |ws| else 0
    decreases units
  {
    var free := FreeSlotFrom(ch, slots, 0);
    if units > 0 && free.Some? {
      var gear := Item(item, 0, 0, true, 0, NEVER_APPRAISED);
      var next := RunWrite(db, Save(free.value, None, gear));
      if next.Some? {
        GearUnits(next.value, ch, slots[free.value := gear], item, units - 1, id);
      }
    }
  }

  /** Gear stops short of its count only when the bag is full or the next free slot was taken meanwhile. */
  lemma {:induction false} GearLandsWhileItCan(db: Db, ch: int, slots: map<Slot, Item>, item: uint32, units: nat)
    ensures var ws := GrantGear(db, ch, slots, item, units);
            RunAll(db, ws).Some?
            && var free := FreeSlotFrom(ch, Granted(slots, ws), 0);
               |ws| == units || free.None?
               || RunWrite(RunAll(db, ws).value,
                           Save(free.value, None, Item(item, 0, 0, true, 0, NEVER_APPRAISED))).None?
    decreases units
  {
    var free := FreeSlotFrom(ch, slots, 0);
    if units > 0 && free.Some? {
      var gear := Item(item, 0, 0, true, 0, NEVER_APPRAISED);
      var next := RunWrite(db, Save(free.value, None, gear));
      if next.Some? {
        GearLandsWhileItCan(next.value, ch, slots[free.value := gear], item, units - 1);
        var ws := GrantGear(db, ch, slots, item, units);
        assert ws[1..] == GrantGear(next.value, ch, slots[free.value := gear], item, units - 1);
      }
    }
  }

  lemma StackUnits(items: ItemTable, db: Db, ch: int, slots: map<Slot, Item>, order: seq<uint32>, reward: Reward,
                   id: uint32)
    requires Stacks(items, reward)
    ensures var ws := Grant(items, db, ch, slots, order, reward);
            UnitsFlow(ws, id)
            == if id == reward.item then UnitsGranted(items, reward, ws)
                                         - UnitsWrapped(items, Held(ch, slots, order, reward.item), reward, ws) else 0
  {
    var ws := Grant(items, db, ch, slots, order, reward);
    StackSlotIsStack(ch, slots, order, reward.item);
    FreeSlotIsFree(ch, slots, 0);
    if ws != [] {
      assert ws[1..] == [];
      WrappedSum(Held(ch, slots, order, reward.item), RewardUnits(reward));
    }
  }

  /** One reward adds to no other item; to its own it adds what the player is told, less what its stack's sum drops. */
  lemma RewardGrants(items: ItemTable, db: Db, ch: int, slots: map<Slot, Item>, order: seq<uint32>, reward: Reward,
                     id: uint32)
    ensures var ws := Grant(items, db, ch, slots, order, reward);
            |ws| <= RewardUnits(reward)
            && UnitsFlow(ws, id)
               == if id == reward.item then UnitsGranted(items, reward, ws)
                                            - UnitsWrapped(items, Held(ch, slots, order, reward.item), reward, ws)
                  else 0
  {
    if Stacks(items, reward) {
      StackUnits(items, db, ch, slots, order, reward, id);
    } else if reward.item != 0 && reward.item in items {
      GearUnits(db, ch, slots, reward.item, RewardUnits(reward), id);
    }
  }

  lemma {:induction false} GearIsFresh(db: Db, ch: int, slots: map<Slot, Item>, item: uint32, units: nat)
    ensures forall w | w in GrantGear(db, ch, slots, item, units) :: w.Save? && w.item.id == item && w.item.equippable
              && w.item.refine == 0 && w.item.bits == NEVER_APPRAISED && w.expected.None?
    decreases units
  {
    var free := FreeSlotFrom(ch, slots, 0);
    if units > 0 && free.Some? {
      var gear := Item(item, 0, 0, true, 0, NEVER_APPRAISED);
      var next := RunWrite(db, Save(free.value, None, gear));
      if next.Some? {
        GearIsFresh(next.value, ch, slots[free.value := gear], item, units - 1);
      }
    }
  }

  /** Whatever is granted is the reward's item: gear unrefined and never appraised, each piece in a slot that was
      free; a stack joining one of the same item, or in a free slot. */
  lemma GrantedItems(items: ItemTable, db: Db, ch: int, slots: map<Slot, Item>, order: seq<uint32>, reward: Reward)
    ensures forall w | w in Grant(items, db, ch, slots, order, reward) ::
              w.Save? && w.item.id == reward.item && reward.item in items
              && (w.item.equippable <==> !items[reward.item].stackable)
              && (w.item.equippable ==> w.item.refine == 0 && w.item.bits == NEVER_APPRAISED)
              && (w.expected.Some? ==> w.slot in slots && w.expected.value == slots[w.slot]
                                       && w.expected.value.id == reward.item && !w.expected.value.equippable)
              && (!w.item.equippable ==> var stack := StackSlot(ch, slots, order, reward.item);
                                         Some(w.slot) == if stack.Some? then stack else FreeSlotFrom(ch, slots, 0))
  {
    if reward.item != 0 && reward.item in items {
      if items[reward.item].stackable {
        StackSlotIsStack(ch, slots, order, reward.item);
      } else {
        GearIsFresh(db, ch, slots, reward.item, RewardUnits(reward));
      }
    }
  }

  // ---- All rewards of a turn-in -----------------------------------------------------------------------------

  function AllGranted(items: ItemTable, db: Db, ch: int, slots: map<Slot, Item>, order: seq<uint32>,
                      rewards: seq<Reward>, id: uint32): nat
    decreases |rewards|
  {
    if rewards == [] then 0
    else
      var ws := Grant(items, db, ch, slots, order, rewards[0]);
      var next := RunAll(db, ws);
      (if id == rewards[0].item then UnitsGranted(items, rewards[0], ws) else 0)
      + if next.None? then 0
        else AllGranted(items, next.value, ch, Granted(slots, ws), order + SlotNumbers(ws), rewards[1..], id)
  }

  function AllWrapped(items: ItemTable, db: Db, ch: int, slots: map<Slot, Item>, order: seq<uint32>,
                      rewards: seq<Reward>, id: uint32): nat
    decreases |rewards|
  {
    if rewards == [] then 0
    else
      var ws := Grant(items, db, ch, slots, order, rewards[0]);
      var next := RunAll(db, ws);
      (if id == rewards[0].item then UnitsWrapped(items, Held(ch, slots, order, rewards[0].item), rewards[0], ws)
       else 0)
      + if next.None? then 0
        else AllWrapped(items, next.value, ch, Granted(slots, ws), order + SlotNumbers(ws), rewards[1..], id)
  }

  /** Every stack that lands, along the snapshots the rewards see, has room for what it takes. */
  predicate AllFit(items: ItemTable, db: Db, ch: int, slots: map<Slot, Item>, order: seq<uint32>, rewards: seq<Reward>)
    decreases |rewards|
  {
    rewards == []
    || var ws := Grant(items, db, ch, slots, order, rewards[0]);
       var next := RunAll(db, ws);
       (ws != [] && Stacks(items, rewards[0])
        ==> Held(ch, slots, order, rewards[0].item) + RewardUnits(rewards[0]) < WRAP)
       && (next.Some? ==> AllFit(items, next.value, ch, Granted(slots, ws), order + SlotNumbers(ws), rewards[1..]))
  }

  /** The rewards of a turn-in add to every item exactly what the player is told, less what wrapped stacks drop. */
  lemma {:induction false} RewardsGrant(items: ItemTable, db: Db, ch: int, slots: map<Slot, Item>, order: seq<uint32>,
                                        rewards: seq<Reward>, id: uint32)
    ensures UnitsFlow(GrantAll(items, db, ch, slots, order, rewards), id)
         == AllGranted(items, db, ch, slots, order, rewards, id) - AllWrapped(items, db, ch, slots, order, rewards, id)
    decreases |rewards|
  {
    hide Grant, Granted, SlotNumbers, RunAll, UnitsGranted, UnitsWrapped, Held;
    if rewards != [] {
      var ws := Grant(items, db, ch, slots, order, rewards[0]);
      var next := RunAll(db, ws);
      RewardGrants(items, db, ch, slots, order, rewards[0], id);
      var more: seq<Write> := [];
      if next.Some? {
        var numbers := order + SlotNumbers(ws);
        RewardsGrant(items, next.value, ch, Granted(slots, ws), numbers, rewards[1..], id);
        more := GrantAll(items, next.value, ch, Granted(slots, ws), numbers, rewards[1..]);
      }
      FlowConcat(ws, more, id);
    }
  }

  lemma {:induction false} FitMeansNoneWrapped(items: ItemTable, db: Db, ch: int, slots: map<Slot, Item>,
                                               order: seq<uint32>, rewards: seq<Reward>)
    ensures AllFit(items, db, ch, slots, order, rewards)
            ==> forall id: uint32 :: AllWrapped(items, db, ch, slots, order, rewards, id) == 0
    ensures !AllFit(items, db, ch, slots, order, rewards)
            ==> exists id: uint32 :: AllWrapped(items, db, ch, slots, order, rewards, id) > 0
    decreases |rewards|
  {
    hide Grant, Granted, SlotNumbers, RunAll, Held;
    if rewards != [] {
      var ws := Grant(items, db, ch, slots, order, rewards[0]);
      var next := RunAll(db, ws);
      var held, item := Held(ch, slots, order, rewards[0].item), rewards[0].item;
      WrapsIffNoRoom(held, RewardUnits(rewards[0]));
      if next.Some? {
        var numbers := order + SlotNumbers(ws);
        var after := Granted(slots, ws);
        FitMeansNoneWrapped(items, next.value, ch, after, numbers, rewards[1..]);
        if !AllFit(items, next.value, ch, after, numbers, rewards[1..]) {
          var id: uint32 :| AllWrapped(items, next.value, ch, after, numbers, rewards[1..], id) > 0;
          assert AllWrapped(items, db, ch, slots, order, rewards, id) > 0;
        }
      }
      if ws != [] && Stacks(items, rewards[0]) && held + RewardUnits(rewards[0]) >= WRAP {
        assert AllWrapped(items, db, ch, slots, order, rewards, item) > 0;
      }
    }
  }

  lemma WrapsIffNoRoom(held: nat, units: nat)
    ensures WRAP * ((held + units) / WRAP) > 0 <==> held + units >= WRAP
  {
  }

  // ---- A guard for the request ------------------------------------------------------------------------------

  /** The units the rewards would add to stacks of one item if all of them landed. */
  function StackTotal(items: ItemTable, rewards: seq<Reward>, id: uint32): nat {
    if rewards == [] then 0
    else (if rewards[0].item == id && Stacks(items, rewards[0]) then RewardUnits(rewards[0]) else 0)
         + StackTotal(items, rewards[1..], id)
  }

  /** No stack could overflow however the rewards land; it needs only the snapshot and the quest. */
  predicate RoomForAll(items: ItemTable, slots: map<Slot, Item>, rewards: seq<Reward>) {
    (forall s | s in slots && !slots[s].equippable ::
       slots[s].quantity + StackTotal(items, rewards, slots[s].id) < WRAP)
    && forall r | r in rewards :: StackTotal(items, rewards, r.item) < WRAP
  }

  /** A reward leaves room for the rest, whether or not it lands. */
  lemma RoomStays(items: ItemTable, db: Db, ch: int, slots: map<Slot, Item>, order: seq<uint32>, rewards: seq<Reward>)
    requires rewards != [] && RoomForAll(items, slots, rewards)
    ensures var ws := Grant(items, db, ch, slots, order, rewards[0]);
            RoomForAll(items, Granted(slots, ws), rewards[1..])
    ensures Stacks(items, rewards[0]) ==> Held(ch, slots, order, rewards[0].item) + RewardUnits(rewards[0]) < WRAP
  {
    var r := rewards[0];
    assert r in rewards;
    assert forall t | t in rewards[1..] :: t in rewards;
    StackSlotIsStack(ch, slots, order, r.item);
    if Stacks(items, r) {
      var ws := Grant(items, db, ch, slots, order, r);
      if ws != [] {
        assert ws[1..] == [] && Granted(slots, ws) == slots[ws[0].slot := ws[0].item];
      }
    } else if r.item != 0 && r.item in items {
      GearTakesNoRoom(items, db, ch, slots, r.item, RewardUnits(r), rewards[1..]);
    }
  }

  lemma {:induction false} GearTakesNoRoom(items: ItemTable, db: Db, ch: int, slots: map<Slot, Item>, item: uint32,
                                           units: nat, rewards: seq<Reward>)
    requires RoomForAll(items, slots, rewards)
    ensures RoomForAll(items, Granted(slots, GrantGear(db, ch, slots, item, units)), rewards)
    decreases units
  {
    var free := FreeSlotFrom(ch, slots, 0);
    if units > 0 && free.Some? {
      var gear := Item(item, 0, 0, true, 0, NEVER_APPRAISED);
      var next := RunWrite(db, Save(free.value, None, gear));
      if next.Some? {
        GearTakesNoRoom(items, next.value, ch, slots[free.value := gear], item, units - 1, rewards);
      }
    }
  }

  /** So the guard keeps every stack from wrapping, whatever the tables hold by the time the job runs. */
  lemma {:induction false} RoomIsEnough(items: ItemTable, db: Db, ch: int, slots: map<Slot, Item>, order: seq<uint32>,
                                        rewards: seq<Reward>)
    requires RoomForAll(items, slots, rewards)
    ensures AllFit(items, db, ch, slots, order, rewards)
    decreases |rewards|
  {
    hide Grant, Granted, SlotNumbers, RunAll, Held, RoomForAll;
    if rewards != [] {
      var ws := Grant(items, db, ch, slots, order, rewards[0]);
      var next := RunAll(db, ws);
      RoomStays(items, db, ch, slots, order, rewards);
      if next.Some? {
        RoomIsEnough(items, next.value, ch, Granted(slots, ws), order + SlotNumbers(ws), rewards[1..]);
      }
    }
  }
}
