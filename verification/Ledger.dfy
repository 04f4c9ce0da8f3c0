/** The accounts of the world's units and money: where units and drops can be, what well-built work is, and the
    invariant of orderly runs, in which every belief about a slot comes from a row. */
module Ledger {
  import opened Wrappers
  import opened Items
  import opened Sums
  import opened SlotRows
  import opened Protocol

  // ---- Well-built work: what validation guarantees about the captured values ------------------

  /** The units a deposit or withdrawal moves, read back from what stays behind. */
  function MovedUnits(content: Item, remaining: Option<Item>): uint32 {
    if remaining.None? then content.quantity
    else if remaining.value.quantity <= content.quantity then content.quantity - remaining.value.quantity else 0
  }

  predicate SplitsOff(content: Item, remaining: Option<Item>) {
    remaining.Some? ==> !content.equippable && remaining.value.quantity <= content.quantity
                        && remaining.value == content.(quantity := remaining.value.quantity)
  }

  predicate WellBuilt(ch: int, work: Work) {
    match work
    case PickUp(_, drop, slot, existing, updated) =>
      slot.Bag? && slot.owner == ch && StackedInto(drop, existing, drop.quantity) == Some(updated)
    case Move(source, dest, _, _) =>
      !source.Vault? && !dest.Vault? && source.owner == ch && dest.owner == ch
    case PutDown(_, slot, content, remaining, dropped) =>
      slot.Bag? && slot.owner == ch && SplitsOff(content, remaining)
      && dropped == content.(quantity := if content.equippable then 1 else MovedUnits(content, remaining))
    case Delete(slot, _) => !slot.Vault? && slot.owner == ch
    case Withdraw(slot, existing, updated, vault, content, remaining) =>
      slot.Bag? && slot.owner == ch && vault.Vault? && SplitsOff(content, remaining)
      && StackedInto(content, existing, MovedUnits(content, remaining)) == Some(updated)
    case Deposit(slot, content, remaining, vault, existing, updated) =>
      slot.Bag? && slot.owner == ch && vault.Vault? && SplitsOff(content, remaining)
      && StackedInto(content, existing, MovedUnits(content, remaining)) == Some(updated)
    case MoneyOut(_, amount) => 0 < amount
    case MoneyIn(_, amount) => 0 < amount
    case Buy(slot, existing, updated, count, _) =>
      slot.Bag? && slot.owner == ch
      && StackedInto(Item(updated.id, 0, 0, false, 0, 0), existing, count) == Some(updated)
    case Sell(slot, content, remaining, count, _) =>
      slot.Bag? && slot.owner == ch && SplitsOff(content, remaining)
      && count == if content.equippable then 1 else MovedUnits(content, remaining)
    case Appraise(candidates, _) =>
      forall c | c in candidates :: !c.slot.Vault? && c.slot.owner == ch
        && c.original.bits == NEVER_APPRAISED && c.appraised == c.original.(bits := c.appraised.bits)
        && c.appraised.bits < WRAP
    case TurnIn(snapshot, _, _) => forall s | s in snapshot :: !s.Vault? && s.owner == ch
    case OpenBank(_) => true
  }

  /** Every content the work believes to be in a slot came from a row that is still there. */
  predicate Rooted(db: Db, ch: int, work: Work) {
    match work
    case Appraise(candidates, _) => forall c | c in candidates :: c.slot in db.rows
    case TurnIn(snapshot, _, _) => snapshot.Keys <= db.rows.Keys
    case _ => forall w | w in Writes(ch, work) :: GroundedWrite(db, w)
  }

  predicate EffectRooted(db: Db, e: Effect, ch: int) {
    (e.Put? ==> e.slot in db.rows) && ((e.Put? || e.Remove?) && !e.slot.Vault? ==> e.slot.owner == ch)
        && (e.ShowBank? ==> e.shown.items.Keys <= db.rows.Keys)
  }

  /** A character's cache holds its own bag and equipment slots only. */
  predicate OwnSlots(ch: int, slots: map<Slot, Item>) {
    forall s | s in slots :: !s.Vault? && s.owner == ch
  }

  predicate PlayerRooted(db: Db, p: Player) {
    p.character.slots.Keys <= db.rows.Keys && OwnSlots(p.session.ch, p.character.slots)
    && (p.bank.Some? ==> p.bank.value.items.Keys <= db.rows.Keys)
  }

  predicate JobRooted(db: Db, job: Job) {
    job.Task? ==> WellBuilt(job.src.ch, job.work) && Rooted(db, job.src.ch, job.work)
  }

  predicate CallbackRooted(db: Db, cb: Callback) {
    match cb
    case Committed(src, work, effects) =>
      WellBuilt(src.ch, work) && (forall e | e in effects :: EffectRooted(db, e, src.ch))
    case Refused(src, work) => WellBuilt(src.ch, work)
    case Loaded(_, ch, _, _, character) =>
      character.slots.Keys <= db.rows.Keys && OwnSlots(ch, character.slots)
  }

  // ---- Drops: on the ground, claimed by a queued pickup, or waiting to be put back ----------------

  function Claims(job: Job, spot: Spot): nat {
    if job.Task? && job.work.PickUp? && job.work.spot == spot then 1 else 0
  }

  function PutBacks(cb: Callback, spot: Spot): nat {
    if cb.Refused? && cb.work.PickUp? && cb.work.spot == spot then 1 else 0
  }

  function JobClaims(jobs: seq<Job>, spot: Spot): nat {
    if jobs == [] then 0 else Claims(jobs[0], spot) + JobClaims(jobs[1..], spot)
  }

  function DonePutBacks(done: seq<Callback>, spot: Spot): nat {
    if done == [] then 0 else PutBacks(done[0], spot) + DonePutBacks(done[1..], spot)
  }

  /** In how many places the ground item with this id is. */
  function Copies(s: State, spot: Spot): nat {
    (if spot in s.ground then 1 else 0) + JobClaims(s.jobs, spot) + DonePutBacks(s.done, spot)
  }

  ghost predicate DropsUnique(s: State) {
    forall spot :: Copies(s, spot) <= 1 && (Copies(s, spot) == 1 ==> spot.id < s.nextId)
  }

  /** What validation makes of a queued job, and the slots memory names: kept by every step whatsoever. */
  ghost predicate Built(s: State) {
    (forall job | job in s.jobs && job.Task? :: WellBuilt(job.src.ch, job.work))
    && (forall cb | cb in s.done && cb.Loaded? :: OwnSlots(cb.ch, cb.character.slots))
    && (forall c | c in s.players :: OwnSlots(s.players[c].session.ch, s.players[c].character.slots))
  }

  /** Every belief, queued, reported or cached, is about a row. */
  ghost predicate AllRooted(s: State) {
    (forall job | job in s.jobs :: JobRooted(s.db, job))
    && (forall cb | cb in s.done :: CallbackRooted(s.db, cb))
    && (forall c | c in s.players :: PlayerRooted(s.db, s.players[c]))
  }

  /** The invariant of orderly runs. */
  ghost predicate Sound(s: State) {
    DropsUnique(s) && RowsWellFormed(s.db) && Solvent(s.db) && AllRooted(s)
  }

  // ---- Units and money in the whole world ---------------------------------------------------------

  function ClaimedUnits(job: Job, id: uint32): int {
    if job.Task? && job.work.PickUp? then Units(job.work.drop, id) else 0
  }

  /** Units a callback will still set on the ground: a refused pickup or a committed drop. */
  function PendingUnits(cb: Callback, id: uint32): int {
    if cb.Refused? && cb.work.PickUp? then Units(cb.work.drop, id)
    else if cb.Committed? && cb.work.PutDown? then Units(cb.work.dropped, id) else 0
  }

  function JobUnits(jobs: seq<Job>, id: uint32): int {
    if jobs == [] then 0 else ClaimedUnits(jobs[0], id) + JobUnits(jobs[1..], id)
  }

  function DoneUnits(done: seq<Callback>, id: uint32): int {
    if done == [] then 0 else PendingUnits(done[0], id) + DoneUnits(done[1..], id)
  }

  ghost function GroundUnits(ground: map<Spot, Item>, id: uint32): int {
    Total(map spot | spot in ground :: Units(ground[spot], id))
  }

  /** Bags, equipment and banks in the tables, the ground, claimed pickups and committed drops not yet spawned. */
  ghost function WorldUnits(s: State, id: uint32): int {
    DbUnits(s.db, id) + GroundUnits(s.ground, id) + JobUnits(s.jobs, id) + DoneUnits(s.done, id)
  }

  lemma {:induction false} JobsAppend(jobs: seq<Job>, job: Job, id: uint32, spot: Spot)
    ensures JobUnits(jobs + [job], id) == JobUnits(jobs, id) + ClaimedUnits(job, id)
    ensures JobClaims(jobs + [job], spot) == JobClaims(jobs, spot) + Claims(job, spot)
  {
    if jobs == [] {
      assert [job][1..] == [];
    } else {
      assert (jobs + [job])[1..] == jobs[1..] + [job];
      JobsAppend(jobs[1..], job, id, spot);
    }
  }

  lemma {:induction false} DoneAppend(done: seq<Callback>, cb: Callback, id: uint32, spot: Spot)
    ensures DoneUnits(done + [cb], id) == DoneUnits(done, id) + PendingUnits(cb, id)
    ensures DonePutBacks(done + [cb], spot) == DonePutBacks(done, spot) + PutBacks(cb, spot)
  {
    if done == [] {
      assert [cb][1..] == [];
    } else {
      assert (done + [cb])[1..] == done[1..] + [cb];
      DoneAppend(done[1..], cb, id, spot);
    }
  }

  lemma GroundChange(ground: map<Spot, Item>, spot: Spot, item: Item, id: uint32)
    ensures spot in ground ==> GroundUnits(ground - {spot}, id) == GroundUnits(ground, id) - Units(ground[spot], id)
    ensures spot !in ground ==> GroundUnits(Place(ground, spot, item), id) == GroundUnits(ground, id) + Units(item, id)
  {
    var units := map k | k in ground :: Units(ground[k], id);
    if spot in ground {
      TotalSplit(units, spot);
      assert (map k | k in ground - {spot} :: Units((ground - {spot})[k], id)) == units - {spot};
    } else {
      var placed := ground[spot := item];
      TotalUpdate(units, spot, Units(item, id));
      assert (map k | k in placed :: Units(placed[k], id)) == units[spot := Units(item, id)];
    }
  }
}
