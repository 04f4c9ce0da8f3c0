/** The inventory/bank/money protocol as a state machine: the world strand validates a request against its caches
    and queues a DB job; one DB thread runs jobs in order, each in a transaction; a completion callback then changes
    memory. */
module Protocol {
  import opened Wrappers
  import opened Items
  import opened SlotRows

  const WITHDRAWAL_FEE := 100
  const BAG_START: nat := 13
  const BAG_SLOTS: nat := 243
  const BANK_SLOTS: nat := 80

  datatype ItemRecord = ItemRecord(buyPrice: nat, sellPrice: nat, stackable: bool, minLevel: int)

  /** A rolled option_bits value: ten 3-bit tiers. */
  type Rolled = b: int | 0 <= b < 0x4000_0000

  type ItemTable = map<uint32, ItemRecord>

  // ---- World state --------------------------------------------------------------------------

  /** One stay of a character in the world: connection, instance id and character row. */
  datatype Session = Session(conn: int, inst: nat, ch: int)

  /** The cached character: its own equipment and bag slots and its wallet. */
  datatype Character = Character(slots: map<Slot, Item>, money: int)

  datatype Bank = Bank(id: int, money: int, items: map<Slot, Item>)

  datatype Player = Player(session: Session, account: int, mapId: int, character: Character, bank: Option<Bank>)

  /** Where a ground item lies: its map and its entity id. */
  datatype Spot = Spot(mapId: int, id: nat)

  datatype Candidate = Candidate(slot: Slot, original: Item, appraised: Item, fee: nat)

  datatype Reward = Reward(item: uint32, count: int)

  datatype Quest = Quest(flag: int, rewards: seq<Reward>, cegel: nat, warp: bool)

  /** What a handler's closures capture. */
  datatype Work =
    | PickUp(spot: Spot, drop: Item, slot: Slot, existing: Option<Item>, updated: Item)
    | Move(source: Slot, dest: Slot, sourceItem: Option<Item>, destItem: Option<Item>)
    | PutDown(mapId: int, slot: Slot, content: Item, remaining: Option<Item>, dropped: Item)
    | Delete(slot: Slot, content: Item)
    | Withdraw(slot: Slot, existing: Option<Item>, updated: Item, vault: Slot, content: Item, remaining: Option<Item>)
    | Deposit(slot: Slot, content: Item, remaining: Option<Item>, vault: Slot, existing: Option<Item>, updated: Item)
    | MoneyOut(bank: int, amount: int)
    | MoneyIn(bank: int, amount: int)
    | Buy(slot: Slot, existing: Option<Item>, updated: Item, count: uint32, cost: nat)
    | Sell(slot: Slot, content: Item, remaining: Option<Item>, count: uint32, earned: nat)
    | Appraise(candidates: seq<Candidate>, money: int)
    | TurnIn(snapshot: map<Slot, Item>, quest: Quest, order: seq<uint32>)
    | OpenBank(bank: int)

  datatype Job =
    | Task(src: Session, work: Work)
    | Load(conn: int, ch: int, account: int)

  /** What a successful completion does to the session's memory. */
  datatype Effect =
    | Put(slot: Slot, item: Item)
    | Remove(slot: Slot)
    | Wealth(money: int)
    | SafeWealth(owner: int, money: int)
    | ShowBank(shown: Bank)

  datatype Callback =
    | Committed(src: Session, work: Work, effects: seq<Effect>)
    | Refused(src: Session, work: Work)
    | Loaded(conn: int, ch: int, account: int, mapId: int, character: Character)

  /** connected and players are keyed by connection; nextId is the entity id generator. */
  datatype State = State(db: Db, jobs: seq<Job>, done: seq<Callback>, players: map<int, Player>,
                         ground: map<Spot, Item>, connected: set<int>, nextId: nat)

  // ---- Slots and caches ---------------------------------------------------------------------

  /** Bag index of a wire slot; the subtraction is cast to 32 bits, so it wraps below 13. */
  function BagSlot(ch: int, wire: uint32): Slot {
    Bag(ch, (wire - BAG_START) % WRAP)
  }

  /** Wire slots 0-12 are equipment, the rest bag. */
  function WireSlot(ch: int, wire: uint32): Slot {
    if wire < BAG_START then Equip(ch, wire) else Bag(ch, wire - BAG_START)
  }

  function Lookup(m: map<Slot, Item>, slot: Slot): Option<Item> {
    if slot in m then Some(m[slot]) else None
  }

  function BankItem(p: Player, slot: Slot): Option<Item> {
    if p.bank.Some? then Lookup(p.bank.value.items, slot) else None
  }

  /** Callbacks name bag and equipment slots only by number, so they act on whoever the connection's player is now. */
  function OwnSlot(p: Player, slot: Slot): Slot
    requires !slot.Vault?
  {
    slot.(owner := p.session.ch)
  }

  function ApplyEffect(p: Player, e: Effect): Player {
    match e
    case Put(slot, item) =>
      if slot.Vault? then
        if p.bank.Some? && p.bank.value.id == slot.owner
        then p.(bank := Some(p.bank.value.(items := p.bank.value.items[slot := item]))) else p
      else p.(character := p.character.(slots := p.character.slots[OwnSlot(p, slot) := item]))
    case Remove(slot) =>
      if slot.Vault? then
        if p.bank.Some? && p.bank.value.id == slot.owner
        then p.(bank := Some(p.bank.value.(items := p.bank.value.items - {slot}))) else p
      else p.(character := p.character.(slots := p.character.slots - {OwnSlot(p, slot)}))
    case Wealth(money) => p.(character := p.character.(money := money))
    case SafeWealth(bank, money) =>
      if p.bank.Some? && p.bank.value.id == bank then p.(bank := Some(p.bank.value.(money := money))) else p
    case ShowBank(shown) => p.(bank := Some(shown))
  }

  function ApplyEffects(p: Player, es: seq<Effect>): Player
    decreases |es|
  {
    if es == [] then p else ApplyEffects(ApplyEffect(p, es[0]), es[1..])
  }

  // ---- Requests: validation against the caches ----------------------------------------------

  datatype Request =
    | PickUpItem(drop: nat, wire: uint32)
    | MoveItem(sourceWire: uint32, destWire: uint32)
    | DropItem(wire: uint32, quantity: uint32)
    | DeleteItem(wire: uint32)
    | StoreItemOut(bankSlot: uint32, wire: uint32, amount: uint32)
    | StoreItemIn(wire: uint32, bankSlot: uint32, amount: uint32)
    | StoreMoneyOut(sum: int)
    | StoreMoneyIn(sum: int)
    | StoreOpen
    | StoreClose
    | BuyItem(item: uint32, wire: uint32, amount: uint32)
    | SellItem(wire: uint32, count: uint32)
    | AppraiseItems(wires: seq<uint32>, rolls: seq<Rolled>)
    | FinishQuest(quest: Quest, order: seq<uint32>)

  function DropWork(p: Player, wire: uint32, quantity: uint32): Option<Work> {
    var slot := BagSlot(p.session.ch, wire);
    if quantity == 0 || slot !in p.character.slots then None
    else
      var content := p.character.slots[slot];
      if content.equippable then
        Some(PutDown(p.mapId, slot, content, None, content.(quantity := 1)))
      else
        var toDrop := Min(quantity, content.quantity);
        Some(PutDown(p.mapId, slot, content,
                     if toDrop >= content.quantity then None
                     else Some(content.(quantity := content.quantity - toDrop)),
                     content.(quantity := toDrop)))
  }

  /** What stays behind when `moved` units leave a slot for or from the bank; equippables move whole. */
  function Left(content: Item, moved: uint32): Option<Item>
  {
    if content.equippable || moved >= content.quantity then None
    else Some(content.(quantity := content.quantity - moved))
  }

  function Moved(content: Item, amount: uint32): uint32 {
    if content.equippable then content.quantity else Min(amount, content.quantity)
  }

  function WithdrawWork(p: Player, bankSlot: uint32, wire: uint32, amount: uint32): Option<Work> {
    if amount == 0 || bankSlot >= BANK_SLOTS || p.bank.None? then None
    else
      var vault := Vault(p.bank.value.id, bankSlot);
      var slot := BagSlot(p.session.ch, wire);
      if vault !in p.bank.value.items || p.character.money < WITHDRAWAL_FEE then None
      else
        var content := p.bank.value.items[vault];
        var moved := Moved(content, amount);
        var existing := Lookup(p.character.slots, slot);
        var updated := StackedInto(content, existing, moved);
        if updated.None? then None
        else Some(Withdraw(slot, existing, updated.value, vault, content, Left(content, moved)))
  }

  function DepositWork(p: Player, wire: uint32, bankSlot: uint32, amount: uint32): Option<Work> {
    var slot := BagSlot(p.session.ch, wire);
    if amount == 0 || bankSlot >= BANK_SLOTS || p.bank.None? || slot !in p.character.slots then None
    else
      var content := p.character.slots[slot];
      var vault := Vault(p.bank.value.id, bankSlot);
      var moved := Moved(content, amount);
      var existing := BankItem(p, vault);
      var updated := StackedInto(content, existing, moved);
      if updated.None? then None
      else Some(Deposit(slot, content, Left(content, moved), vault, existing, updated.value))
  }

  function BuyWork(items: ItemTable, p: Player, item: uint32, wire: uint32, amount: uint32): Option<Work> {
    if amount == 0 || item !in items || p.character.money < items[item].buyPrice * amount then None
    else
      var slot := BagSlot(p.session.ch, wire);
      var existing := Lookup(p.character.slots, slot);
      var updated := StackedInto(Item(item, 0, 0, false, 0, 0), existing, amount);
      if updated.None? then None
      else Some(Buy(slot, existing, updated.value, amount, items[item].buyPrice * amount))
  }

  function SellWork(items: ItemTable, p: Player, wire: uint32, count: uint32): Option<Work> {
    var slot := BagSlot(p.session.ch, wire);
    if count == 0 || slot !in p.character.slots || p.character.slots[slot].id !in items then None
    else
      var content := p.character.slots[slot];
      var price := items[content.id].sellPrice;
      if content.equippable then Some(Sell(slot, content, None, 1, price))
      else
        var sold := Min(count, content.quantity);
        Some(Sell(slot, content,
                  if sold == content.quantity then None else Some(content.(quantity := content.quantity - sold)),
                  sold, price * sold))
  }

  /** The listed slots that may be appraised, each with its rolled result; a slot listed twice stays twice. */
  function Candidates(items: ItemTable, p: Player, wires: seq<uint32>, rolls: seq<Rolled>): seq<Candidate>
    decreases |wires|
  {
    if wires == [] || rolls == [] then []
    else
      var rest := Candidates(items, p, wires[1..], rolls[1..]);
      var slot := WireSlot(p.session.ch, wires[0]);
      if !(7 < wires[0] <= 0x2F) || slot !in p.character.slots then rest
      else
        var content := p.character.slots[slot];
        if content.id !in items || items[content.id].stackable || items[content.id].minLevel >= 90
           || content.bits != NEVER_APPRAISED then rest
        else [Candidate(slot, content, content.(bits := rolls[0]), items[content.id].sellPrice)] + rest
  }

  function AppraiseWork(items: ItemTable, p: Player, wires: seq<uint32>, rolls: seq<Rolled>): Option<Work> {
    if wires == [] || |wires| > 8 then None
    else Some(Appraise(Candidates(items, p, wires, rolls), p.character.money))
  }

  function MoveWork(p: Player, sourceWire: uint32, destWire: uint32): Option<Work> {
    var source, dest := WireSlot(p.session.ch, sourceWire), WireSlot(p.session.ch, destWire);
    var sourceItem, destItem := Lookup(p.character.slots, source), Lookup(p.character.slots, dest);
    if sourceItem.None? && destItem.None? then None else Some(Move(source, dest, sourceItem, destItem))
  }

  /** The pickup's job, once the drop has been claimed from the ground. */
  function PickUpWork(p: Player, spot: Spot, drop: Item, wire: uint32): Option<Work> {
    var slot := BagSlot(p.session.ch, wire);
    var existing := Lookup(p.character.slots, slot);
    var updated := StackedInto(drop, existing, drop.quantity);
    if updated.None? then None else Some(PickUp(spot, drop, slot, existing, updated.value))
  }

  /** The job a request queues, when it passes validation. Pickups and store closing also touch memory. */
  function WorkFor(items: ItemTable, s: State, p: Player, req: Request): Option<Work> {
    match req
    case PickUpItem(id, wire) =>
      var spot := Spot(p.mapId, id);
      if spot in s.ground then PickUpWork(p, spot, s.ground[spot], wire) else None
    case MoveItem(source, dest) => MoveWork(p, source, dest)
    case DropItem(wire, quantity) => DropWork(p, wire, quantity)
    case DeleteItem(wire) =>
      var slot := WireSlot(p.session.ch, wire);
      if slot in p.character.slots then Some(Delete(slot, p.character.slots[slot])) else None
    case StoreItemOut(bankSlot, wire, amount) => WithdrawWork(p, bankSlot, wire, amount)
    case StoreItemIn(wire, bankSlot, amount) => DepositWork(p, wire, bankSlot, amount)
    case StoreMoneyOut(sum) =>
      if sum <= 0 || p.bank.None? || p.bank.value.money < sum then None else Some(MoneyOut(p.bank.value.id, sum))
    case StoreMoneyIn(sum) =>
      if sum <= 0 || p.bank.None? || p.character.money < sum then None else Some(MoneyIn(p.bank.value.id, sum))
    case StoreOpen => Some(OpenBank(p.account))
    case StoreClose => None
    case BuyItem(item, wire, amount) => BuyWork(items, p, item, wire, amount)
    case SellItem(wire, count) => SellWork(items, p, wire, count)
    case AppraiseItems(wires, rolls) => AppraiseWork(items, p, wires, rolls)
    case FinishQuest(quest, order) => Some(TurnIn(p.character.slots, quest, order))
  }

  /** A player message; dropped when its connection has no player in the world. */
  function Handle(items: ItemTable, s: State, conn: int, req: Request): State {
    if conn !in s.players then s
    else
      var p := s.players[conn];
      var work := WorkFor(items, s, p, req);
      if req.StoreClose? then s.(players := s.players[conn := p.(bank := None)])
      else if work.None? then s
      else
        var queued := s.(jobs := s.jobs + [Task(p.session, work.value)]);
        if work.value.PickUp? then queued.(ground := s.ground - {work.value.spot}) else queued
  }

  // ---- The DB thread ------------------------------------------------------------------------

  function Rewrite(slot: Slot, content: Item, remaining: Option<Item>): Write {
    if remaining.None? then Clear(slot, Some(content)) else Save(slot, Some(content), remaining.value)
  }

  /** The statements of the jobs whose transaction is a fixed list. */
  function Writes(ch: int, work: Work): seq<Write> {
    match work
    case PickUp(_, _, slot, existing, updated) => [Save(slot, existing, updated)]
    case Move(source, dest, sourceItem, destItem) =>
      if sourceItem.Some? && destItem.Some? then
        [Save(source, sourceItem, destItem.value), Save(dest, destItem, sourceItem.value)]
      else if sourceItem.Some? then [Save(dest, destItem, sourceItem.value), Clear(source, sourceItem)]
      else if destItem.Some? then [Save(source, sourceItem, destItem.value), Clear(dest, destItem)]
      else []
    case PutDown(_, slot, content, remaining, _) => [Rewrite(slot, content, remaining)]
    case Delete(slot, content) => [Clear(slot, Some(content))]
    case Withdraw(slot, existing, updated, vault, content, remaining) =>
      [Save(slot, existing, updated), Rewrite(vault, content, remaining), Spend(Wallet(ch), WITHDRAWAL_FEE)]
    case Deposit(slot, content, remaining, vault, existing, updated) =>
      [Save(vault, existing, updated), Rewrite(slot, content, remaining)]
    case MoneyOut(bank, amount) => [Spend(Safe(bank), amount), Credit(Wallet(ch), amount)]
    case MoneyIn(bank, amount) => [Spend(Wallet(ch), amount), Credit(Safe(bank), amount)]
    case Buy(slot, existing, updated, _, cost) => [Spend(Wallet(ch), cost), Save(slot, existing, updated)]
    case Sell(slot, content, remaining, _, earned) => [Rewrite(slot, content, remaining), Credit(Wallet(ch), earned)]
    case _ => []
  }

  function Rewritten(slot: Slot, remaining: Option<Item>): Effect {
    if remaining.None? then Remove(slot) else Put(slot, remaining.value)
  }

  /** What their completion callbacks do to memory; `db` is the committed state, read by RETURNING money. */
  function Effects(ch: int, work: Work, db: Db): seq<Effect> {
    var wealth := Wealth(BalanceAt(db, Wallet(ch)));
    match work
    case PickUp(_, _, slot, _, updated) => [Put(slot, updated)]
    case Move(source, dest, sourceItem, destItem) =>
      if sourceItem.Some? && destItem.Some? then [Put(source, destItem.value), Put(dest, sourceItem.value)]
      else if sourceItem.Some? then [Put(dest, sourceItem.value), Remove(source)]
      else if destItem.Some? then [Put(source, destItem.value), Remove(dest)]
      else []
    case PutDown(_, slot, _, remaining, _) => [Rewritten(slot, remaining)]
    case Delete(slot, _) => [Remove(slot)]
    case Withdraw(slot, _, updated, vault, _, remaining) => [wealth, Put(slot, updated), Rewritten(vault, remaining)]
    case Deposit(slot, _, remaining, vault, _, updated) => [Put(vault, updated), Rewritten(slot, remaining)]
    case MoneyOut(bank, _) => [wealth, SafeWealth(bank, BalanceAt(db, Safe(bank)))]
    case MoneyIn(bank, _) => [wealth, SafeWealth(bank, BalanceAt(db, Safe(bank)))]
    case Buy(slot, _, updated, _, _) => [wealth, Put(slot, updated)]
    case Sell(slot, _, remaining, _, _) => [Rewritten(slot, remaining), wealth]
    case _ => []
  }

  /** The candidates that land: the fee still fits the snapshot's money and the slot is still as it was. */
  function Land(db: Db, candidates: seq<Candidate>, money: int, fee: nat): seq<Candidate>
    decreases |candidates|
  {
    if candidates == [] then []
    else
      var c := candidates[0];
      var next := RunWrite(db, Save(c.slot, Some(c.original), c.appraised));
      if fee + c.fee > money || next.None? then Land(db, candidates[1..], money, fee)
      else [c] + Land(next.value, candidates[1..], money, fee + c.fee)
  }

  function Fees(landed: seq<Candidate>): nat {
    if landed == [] then 0 else landed[0].fee + Fees(landed[1..])
  }

  function LandedWrites(landed: seq<Candidate>): seq<Write> {
    if landed == [] then []
    else [Save(landed[0].slot, Some(landed[0].original), landed[0].appraised)] + LandedWrites(landed[1..])
  }

  function LandedEffects(landed: seq<Candidate>): seq<Effect> {
    if landed == [] then [] else [Put(landed[0].slot, landed[0].appraised)] + LandedEffects(landed[1..])
  }

  function FreeSlotFrom(ch: int, slots: map<Slot, Item>, i: nat): Option<Slot>
    decreases BAG_SLOTS - i
  {
    if i >= BAG_SLOTS then None
    else if Bag(ch, i) !in slots then Some(Bag(ch, i))
    else FreeSlotFrom(ch, slots, i + 1)
  }

  /** The first bag slot, in the inventory list's order, that holds a stack of `item`. */
  function StackSlot(ch: int, slots: map<Slot, Item>, order: seq<uint32>, item: uint32): Option<Slot> {
    if order == [] then None
    else if Bag(ch, order[0]) in slots && slots[Bag(ch, order[0])].id == item && !slots[Bag(ch, order[0])].equippable
    then Some(Bag(ch, order[0]))
    else StackSlot(ch, slots, order[1..], item)
  }

  /** Up to `units` equippables, one per free slot of the snapshot; stops at a full bag or a slot taken meanwhile. */
  function GrantGear(db: Db, ch: int, slots: map<Slot, Item>, item: uint32, units: nat): seq<Write>
    decreases units
  {
    if units == 0 then []
    else
      var free := FreeSlotFrom(ch, slots, 0);
      if free.None? then []
      else
        var gear := Item(item, 0, 0, true, 0, NEVER_APPRAISED);
        var w := Save(free.value, None, gear);
        var next := RunWrite(db, w);
        if next.None? then []
        else [w] + GrantGear(next.value, ch, slots[free.value := gear], item, units - 1)
  }

  /** The saves that land for one reward. */
  function Grant(items: ItemTable, db: Db, ch: int, slots: map<Slot, Item>, order: seq<uint32>,
                 reward: Reward): seq<Write> {
    if reward.item == 0 || reward.item !in items then []
    else
      var units := if reward.count > 0 then reward.count else 1;
      if !items[reward.item].stackable then GrantGear(db, ch, slots, reward.item, units)
      else
        var stack := StackSlot(ch, slots, order, reward.item);
        var slot := if stack.Some? then stack else FreeSlotFrom(ch, slots, 0);
        if slot.None? then []
        else
          var existing := if stack.Some? then Lookup(slots, slot.value) else None;
          var had := if existing.Some? then existing.value.quantity else 0;
          var w := Save(slot.value, existing, Item(reward.item, (had + units % WRAP) % WRAP, 0, false, 0, 0));
          if RunWrite(db, w).None? then [] else [w]
  }

  /** The snapshot after landed saves, as the next reward sees it. */
  function Granted(slots: map<Slot, Item>, ws: seq<Write>): map<Slot, Item>
    decreases |ws|
  {
    if ws == [] then slots
    else Granted(if ws[0].Save? then slots[ws[0].slot := ws[0].item] else slots, ws[1..])
  }

  function SlotNumbers(ws: seq<Write>): seq<uint32> {
    if ws == [] then []
    else (if ws[0].Save? then [ws[0].slot.index] else []) + SlotNumbers(ws[1..])
  }

  function GrantAll(items: ItemTable, db: Db, ch: int, slots: map<Slot, Item>, order: seq<uint32>,
                    rewards: seq<Reward>): seq<Write>
    decreases |rewards|
  {
    if rewards == [] then []
    else
      var ws := Grant(items, db, ch, slots, order, rewards[0]);
      var next := RunAll(db, ws);
      ws + (if next.None? then []
            else GrantAll(items, next.value, ch, Granted(slots, ws), order + SlotNumbers(ws), rewards[1..]))
  }

  function SaveEffects(ws: seq<Write>): seq<Effect> {
    if ws == [] then []
    else (if ws[0].Save? then [Put(ws[0].slot, ws[0].item)] else []) + SaveEffects(ws[1..])
  }

  /** A bank can be shown unless one of its rows was cleared: reading a NULL item id throws. */
  predicate Readable(db: Db, bank: int) {
    forall s | s in db.rows && s.Vault? && s.owner == bank :: db.rows[s].itemId.Some?
  }

  function LoadBank(db: Db, bank: int): Bank {
    Bank(bank, BalanceAt(db, Safe(bank)),
         map s | s in db.rows && s.Vault? && s.owner == bank && Decode(db.rows[s]).Some? :: Decode(db.rows[s]).value)
  }

  function LoadCharacter(db: Db, ch: int): Character {
    Character(map s | s in db.rows && !s.Vault? && s.owner == ch && Decode(db.rows[s]).Some?
                :: Decode(db.rows[s]).value,
              BalanceAt(db, Wallet(ch)))
  }

  datatype Outcome = Outcome(writes: seq<Write>, flag: Option<(int, int)>, effects: seq<Effect>)

  /** Every statement a job would land in order, before it is known whether they all match; None rejects outright. */
  function Plan(items: ItemTable, db: Db, ch: int, work: Work): Option<(seq<Write>, Option<(int, int)>)> {
    match work
    case Appraise(candidates, money) =>
      var landed := Land(db, candidates, money, 0);
      if landed == [] then None else Some((LandedWrites(landed) + [Spend(Wallet(ch), Fees(landed))], None))
    case TurnIn(snapshot, quest, order) =>
      if quest.flag != 0 && (ch, quest.flag) in db.flags then None
      else Some((GrantAll(items, db, ch, snapshot, order, quest.rewards)
                 + (if quest.cegel != 0 then [Credit(Wallet(ch), quest.cegel)] else []),
                 if quest.flag != 0 then Some((ch, quest.flag)) else None))
    case OpenBank(bank) => if Safe(bank) in db.money && Readable(db, bank) then Some(([], None)) else None
    case _ => Some((Writes(ch, work), None))
  }

  function Report(ch: int, work: Work, plan: seq<Write>, before: Db, db: Db): seq<Effect> {
    match work
    case Appraise(candidates, money) =>
      [Wealth(BalanceAt(db, Wallet(ch)))] + LandedEffects(Land(before, candidates, money, 0))
    case TurnIn(_, quest, _) =>
      SaveEffects(plan) + (if quest.cegel != 0 then [Wealth(BalanceAt(db, Wallet(ch)))] else [])
    case OpenBank(bank) => [ShowBank(LoadBank(db, bank))]
    case _ => Effects(ch, work, db)
  }

  /** A job's transaction: the tables and effects it commits, or None. */
  function Perform(items: ItemTable, db: Db, ch: int, work: Work): Option<(Db, seq<Effect>)> {
    var plan := Plan(items, db, ch, work);
    if plan.None? then None
    else
      var after := RunAll(db, plan.value.0);
      if after.None? then None
      else
        var flagged := if plan.value.1.None? then after.value
                       else after.value.(flags := after.value.flags + {plan.value.1.value});
        Some((flagged, Report(ch, work, plan.value.0, db, flagged)))
  }

  /** Runs the oldest job; `throws` is a database failure, which rolls the transaction back. */
  function RunJob(items: ItemTable, s: State, mapId: int, throws: bool): State {
    if s.jobs == [] then s
    else
      var rest := s.(jobs := s.jobs[1..]);
      match s.jobs[0]
      case Load(conn, ch, account) =>
        if throws || Wallet(ch) !in s.db.money then rest
        else rest.(done := s.done + [Loaded(conn, ch, account, mapId, LoadCharacter(s.db, ch))])
      case Task(src, work) =>
        var result := if throws then None else Perform(items, s.db, src.ch, work);
        if result.None? then rest.(done := s.done + [Refused(src, work)])
        else rest.(db := result.value.0, done := s.done + [Committed(src, work, result.value.1)])
  }

  // ---- Completion callbacks on the world strand -----------------------------------------------

  predicate Online(s: State, ch: int) {
    exists c | c in s.players :: s.players[c].session.ch == ch
  }

  function Leave(s: State, conn: int): State {
    s.(players := s.players - {conn})
  }

  /** A drop enters the ground pool unless its id is already there. */
  function Place(ground: map<Spot, Item>, spot: Spot, item: Item): map<Spot, Item> {
    if spot in ground then ground else ground[spot := item]
  }

  predicate Warps(work: Work) {
    work.TurnIn? && work.quest.warp
  }

  function RunCallback(s: State): State {
    if s.done == [] then s
    else
      var rest := s.(done := s.done[1..]);
      match s.done[0]
      case Committed(src, work, effects) =>
        if Warps(work) then Leave(rest, src.conn)
        else
          var told := if src.conn in s.players
                      then rest.(players := s.players[src.conn := ApplyEffects(s.players[src.conn], effects)])
                           else rest;
          if work.PutDown?
          then told.(ground := Place(s.ground, Spot(work.mapId, s.nextId), work.dropped), nextId := s.nextId + 1)
          else told
      case Refused(src, work) =>
        if work.PickUp? then rest.(ground := Place(s.ground, work.spot, work.drop)) else rest
      case Loaded(conn, ch, account, mapId, character) =>
        if conn !in s.connected || Online(s, ch) then rest
        else
          var joined := Player(Session(conn, s.nextId, ch), account, mapId, character, None);
          if conn in s.players then rest.(nextId := s.nextId + 1)
          else rest.(nextId := s.nextId + 1, players := s.players[conn := joined])
  }

  // ---- Runs -----------------------------------------------------------------------------------

  datatype Step =
    | Connect(conn: int)
    | Enter(conn: int, ch: int, account: int)
    | Exit(conn: int, disconnected: bool)
    | Message(conn: int, req: Request)
    | NextJob(mapId: int, throws: bool)
    | NextCallback
    | Expire(spot: Spot)

  function Next(items: ItemTable, s: State, step: Step): State {
    match step
    case Connect(conn) => s.(connected := s.connected + {conn})
    case Enter(conn, ch, account) => s.(jobs := s.jobs + [Load(conn, ch, account)])
    case Exit(conn, disconnected) =>
      Leave(if disconnected then s.(connected := s.connected - {conn}) else s, conn)
    case Message(conn, req) => Handle(items, s, conn, req)
    case NextJob(mapId, throws) => RunJob(items, s, mapId, throws)
    case NextCallback => RunCallback(s)
    case Expire(spot) => s.(ground := s.ground - {spot})
  }

  function Run(items: ItemTable, s: State, steps: seq<Step>): State
    decreases |steps|
  {
    if steps == [] then s else Run(items, Next(items, s, steps[0]), steps[1..])
  }
}
