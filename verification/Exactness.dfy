/** Exactly when a committed job changes units by what the player was told, and what each job does to money. */
module Exactness {
  import opened Wrappers
  import opened Items
  import opened SlotRows
  import opened Protocol
  import opened Ledger
  import opened Sessions
  import opened Plans
  import opened Rewards
  import opened Accounting
  import opened Conservation

  // ---- Units -----------------------------------------------------------------------------------------

  /** What the player is told: purchases and rewards add, sales and deletions remove, everything else only moves
      units about. */
  function Intent(items: ItemTable, db: Db, ch: int, work: Work, id: uint32): int
    requires Plan(items, db, ch, work).Some?
  {
    match work
    case Buy(_, _, updated, count, _) => if updated.id == id then count else 0
    case Sell(_, content, _, count, _) => if content.id == id then 0 - count else 0
    case Delete(_, content) => 0 - Units(content, id)
    case TurnIn(snapshot, quest, order) => AllGranted(items, db, ch, snapshot, order, quest.rewards, id)
    case _ => 0
  }

  /** The stack an equipment row cannot hold, because that table has no quantity column. */
  function Stack(content: Option<Item>): Option<(uint32, uint32)> {
    if content.None? || content.value.equippable || content.value.quantity == 0 then None
    else Some((content.value.id, content.value.quantity))
  }

  /** A guard on the captured values alone, which a caller could check before the job is queued. */
  predicate HasRoomFor(items: ItemTable, work: Work) {
    match work
    case PickUp(_, drop, _, existing, _) => HasRoom(existing, drop.quantity)
    case Withdraw(_, existing, _, _, content, remaining) => HasRoom(existing, MovedUnits(content, remaining))
    case Deposit(_, content, remaining, _, existing, _) => HasRoom(existing, MovedUnits(content, remaining))
    case Buy(_, existing, _, count, _) => HasRoom(existing, count)
    case Move(source, dest, sourceItem, destItem) =>
      source.Equip? == dest.Equip? || Stack(sourceItem) == Stack(destItem)
    case Delete(slot, content) => slot.Equip? ==> Stack(Some(content)).None?
    case TurnIn(snapshot, quest, _) => RoomForAll(items, snapshot, quest.rewards)
    case _ => true
  }

  /** The exact guard: a turn-in only needs room for the stacks that land in the tables it meets. */
  predicate Lossless(items: ItemTable, db: Db, ch: int, work: Work) {
    match work
    case TurnIn(snapshot, quest, order) => AllFit(items, db, ch, snapshot, order, quest.rewards)
    case _ => HasRoomFor(items, work)
  }

  lemma RoomIsLossless(items: ItemTable, db: Db, ch: int, work: Work)
    requires HasRoomFor(items, work)
    ensures Lossless(items, db, ch, work)
  {
    if work.TurnIn? {
      RoomIsEnough(items, db, ch, work.snapshot, work.order, work.quest.rewards);
    }
  }

  lemma {:induction false} AppraisalsKeepUnits(landed: seq<Candidate>, id: uint32)
    requires forall c | c in landed :: c.appraised == c.original.(bits := c.appraised.bits)
    ensures UnitsFlow(LandedWrites(landed), id) == 0
  {
    if landed != [] {
      assert landed[0] in landed;
      AppraisalsKeepUnits(landed[1..], id);
    }
  }

  lemma RewriteUnits(slot: Slot, content: Item, remaining: Option<Item>, id: uint32)
    requires !slot.Equip? && SplitsOff(content, remaining)
    ensures WriteUnits(Rewrite(slot, content, remaining), id)
         == 0 - Units(content.(quantity := MovedUnits(content, remaining)), id)
  {
  }

  /** The flows of a short transaction, statement by statement. */
  lemma FlowUnrolled(ws: seq<Write>, id: uint32)
    ensures |ws| == 1 ==> UnitsFlow(ws, id) == WriteUnits(ws[0], id) && MoneyFlow(ws) == WriteMoney(ws[0])
    ensures |ws| == 2 ==> UnitsFlow(ws, id) == WriteUnits(ws[0], id) + WriteUnits(ws[1], id)
                          && MoneyFlow(ws) == WriteMoney(ws[0]) + WriteMoney(ws[1])
    ensures |ws| == 3 ==> UnitsFlow(ws, id) == WriteUnits(ws[0], id) + WriteUnits(ws[1], id) + WriteUnits(ws[2], id)
                          && MoneyFlow(ws) == WriteMoney(ws[0]) + WriteMoney(ws[1]) + WriteMoney(ws[2])
  {
    if 1 <= |ws| <= 3 {
      assert |ws| == 1 ==> ws[1..] == [];
      if 2 <= |ws| {
        assert ws[1..][1..] == ws[2..] && (|ws| == 3 ==> ws[2..][1..] == []);
      }
    }
  }

  /** The units a job moves equal its intent for item `id`, less the loss of a wrapped stack or a stack put into
      equipment. */
  function Loss(items: ItemTable, db: Db, ch: int, work: Work, id: uint32): int {
    match work
    case PickUp(_, drop, _, existing, _) => if HasRoom(existing, drop.quantity) || drop.id != id then 0 else WRAP
    case Withdraw(_, existing, _, _, content, remaining) =>
      if HasRoom(existing, MovedUnits(content, remaining)) || content.id != id then 0 else WRAP
    case Deposit(_, content, remaining, _, existing, _) =>
      if HasRoom(existing, MovedUnits(content, remaining)) || content.id != id then 0 else WRAP
    case Buy(_, existing, updated, count, _) => if HasRoom(existing, count) || updated.id != id then 0 else WRAP
    case Move(source, dest, sourceItem, destItem) =>
      if source.Equip? == dest.Equip? then 0
      else if dest.Equip? then UnitsStacked(sourceItem, id) - UnitsStacked(destItem, id)
      else UnitsStacked(destItem, id) - UnitsStacked(sourceItem, id)
    case Delete(slot, content) => if slot.Equip? then 0 - UnitsStacked(Some(content), id) else 0
    case TurnIn(snapshot, quest, order) => AllWrapped(items, db, ch, snapshot, order, quest.rewards, id)
    case _ => 0
  }

  function UnitsStacked(content: Option<Item>, id: uint32): int {
    if Stack(content).Some? && Stack(content).value.0 == id then Stack(content).value.1 else 0
  }

  lemma MoveLoss(items: ItemTable, db: Db, ch: int, work: Work, id: uint32)
    requires work.Move? && WellBuilt(ch, work)
    ensures UnitsFlow(Writes(ch, work), id) == 0 - Loss(items, db, ch, work, id)
  {
    FlowUnrolled(Writes(ch, work), id);
  }

  lemma AppraiseFlow(items: ItemTable, db: Db, ch: int, work: Work, id: uint32)
    requires work.Appraise? && WellBuilt(ch, work) && Plan(items, db, ch, work).Some?
    ensures UnitsFlow(Plan(items, db, ch, work).value.0, id) == 0
  {
    var landed := Land(db, work.candidates, work.money, 0);
    LandRuns(db, work.candidates, work.money, 0);
    AppraisalsKeepUnits(landed, id);
    FlowConcat(LandedWrites(landed), [Spend(Wallet(ch), Fees(landed))], id);
    FlowUnrolled([Spend(Wallet(ch), Fees(landed))], id);
  }

  lemma TransferFlow(items: ItemTable, db: Db, ch: int, work: Work, id: uint32)
    requires (work.Withdraw? || work.Deposit?) && WellBuilt(ch, work)
    ensures UnitsFlow(Writes(ch, work), id) == 0 - Loss(items, db, ch, work, id)
  {
    var moved := MovedUnits(work.content, work.remaining);
    FlowUnrolled(Writes(ch, work), id);
    StackingConserves(work.content, work.existing, moved, id);
    RewriteUnits(if work.Withdraw? then work.vault else work.slot, work.content, work.remaining, id);
  }

  /** Every committed job: units moved are its intent less its loss. */
  lemma FlowIsIntentLessLoss(items: ItemTable, db: Db, ch: int, work: Work, id: uint32)
    requires WellBuilt(ch, work) && Plan(items, db, ch, work).Some?
    ensures CommitFlow(items, db, ch, work, id) == Intent(items, db, ch, work, id) - Loss(items, db, ch, work, id)
  {
    FlowUnrolled(Writes(ch, work), id);
    match work
    case PickUp(_, drop, _, existing, _) => StackingConserves(drop, existing, drop.quantity, id);
    case Move(_, _, _, _) => MoveLoss(items, db, ch, work, id);
    case PutDown(_, slot, content, remaining, _) => RewriteUnits(slot, content, remaining, id);
    case Withdraw(_, _, _, _, _, _) => TransferFlow(items, db, ch, work, id);
    case Deposit(_, _, _, _, _, _) => TransferFlow(items, db, ch, work, id);
    case Buy(_, existing, updated, count, _) =>
      StackingConserves(Item(updated.id, 0, 0, false, 0, 0), existing, count, id);
    case Sell(slot, content, remaining, _, _) => RewriteUnits(slot, content, remaining, id);
    case Appraise(_, _) => AppraiseFlow(items, db, ch, work, id);
    case TurnIn(_, _, _) => TurnInFlow(items, db, ch, work, id);
    case _ =>
  }

  lemma TurnInFlow(items: ItemTable, db: Db, ch: int, work: Work, id: uint32)
    requires work.TurnIn? && Plan(items, db, ch, work).Some?
    ensures UnitsFlow(Plan(items, db, ch, work).value.0, id)
         == Intent(items, db, ch, work, id) - Loss(items, db, ch, work, id)
  {
    hide GrantAll, AllGranted, AllWrapped;
    var ws := GrantAll(items, db, ch, work.snapshot, work.order, work.quest.rewards);
    var pay := if work.quest.cegel != 0 then [Credit(Wallet(ch), work.quest.cegel)] else [];
    RewardsGrant(items, db, ch, work.snapshot, work.order, work.quest.rewards, id);
    FlowConcat(ws, pay, id);
    FlowUnrolled(pay, id);
  }

  /** A committed job moves exactly the intended units of every item if and only if its guard holds. */
  lemma ExactIffLossless(items: ItemTable, db: Db, ch: int, work: Work)
    requires WellBuilt(ch, work) && Plan(items, db, ch, work).Some?
    ensures (forall id :: CommitFlow(items, db, ch, work, id) == Intent(items, db, ch, work, id))
            <==> Lossless(items, db, ch, work)
  {
    hide CommitFlow, Intent, Loss, Lossless, Plan;
    forall id
      ensures CommitFlow(items, db, ch, work, id) == Intent(items, db, ch, work, id)
              <==> Loss(items, db, ch, work, id) == 0
    {
      FlowIsIntentLessLoss(items, db, ch, work, id);
    }
    NoLossIffLossless(items, db, ch, work);
  }

  /** The item whose units go wrong when the guard fails. */
  function LossyItem(work: Work): uint32 {
    match work
    case PickUp(_, drop, _, _, _) => drop.id
    case Withdraw(_, _, _, _, content, _) => content.id
    case Deposit(_, content, _, _, _, _) => content.id
    case Buy(_, _, updated, _, _) => updated.id
    case Delete(_, content) => content.id
    case Move(_, _, sourceItem, destItem) =>
      if Stack(sourceItem).Some? then Stack(sourceItem).value.0
      else if Stack(destItem).Some? then Stack(destItem).value.0 else 0
    case _ => 0
  }

  lemma NoLossIffLossless(items: ItemTable, db: Db, ch: int, work: Work)
    requires WellBuilt(ch, work)
    ensures (forall id: uint32 :: Loss(items, db, ch, work, id) == 0) <==> Lossless(items, db, ch, work)
  {
    hide AllFit, AllWrapped;
    if work.TurnIn? {
      FitMeansNoneWrapped(items, db, ch, work.snapshot, work.order, work.quest.rewards);
      assert forall id: uint32 :: Loss(items, db, ch, work, id)
                            == AllWrapped(items, db, ch, work.snapshot, work.order, work.quest.rewards, id);
    } else if !Lossless(items, db, ch, work) {
      assert Loss(items, db, ch, work, LossyItem(work)) != 0;
    }
  }

  /** A stack of five moved into an equipment slot is gone from the tables. */
  lemma StackLostInEquipment()
    ensures var stack := Item(7, 5, 0, false, 0, 0);
            var work := Move(Bag(1, 0), Equip(1, 4), Some(stack), None);
            var db := Db(map[Bag(1, 0) := Columns(Bag(1, 0), Some(stack))], map[], {});
            WellBuilt(1, work) && Perform(map[], db, 1, work).Some? && CommitFlow(map[], db, 1, work, 7) == -5
  {
    var stack := Item(7, 5, 0, false, 0, 0);
    var work := Move(Bag(1, 0), Equip(1, 4), Some(stack), None);
    var db := Db(map[Bag(1, 0) := Columns(Bag(1, 0), Some(stack))], map[], {});
    FlowIsIntentLessLoss(map[], db, 1, work, 7);
    var ws := Writes(1, work);
    var saved := RunWrite(db, ws[0]).value;
    assert ws[1..][1..] == [] && RunAll(saved, ws[1..]) == RunWrite(saved, ws[1]);
  }

  /** A reward of one joining a full stack of 2^32 - 1 leaves nothing of either. */
  lemma RewardLostInWrap()
    ensures var stack := Item(7, 0xFFFF_FFFF, 0, false, 0, 0);
            var items := map[7 := ItemRecord(0, 0, true, 0)];
            var work := TurnIn(map[Bag(1, 0) := stack], Quest(0, [Reward(7, 1)], 0, false), [0]);
            var db := Db(map[Bag(1, 0) := Columns(Bag(1, 0), Some(stack))], map[], {});
            WellBuilt(1, work) && Rooted(db, 1, work) && Perform(items, db, 1, work).Some?
                && !Lossless(items, db, 1, work)
            && CommitFlow(items, db, 1, work, 7) == Intent(items, db, 1, work, 7) - WRAP == 1 - WRAP
  {
    var stack := Item(7, 0xFFFF_FFFF, 0, false, 0, 0);
    var items := map[7 := ItemRecord(0, 0, true, 0)];
    var snapshot := map[Bag(1, 0) := stack];
    var reward := Reward(7, 1);
    var work := TurnIn(snapshot, Quest(0, [reward], 0, false), [0]);
    var db := Db(map[Bag(1, 0) := Columns(Bag(1, 0), Some(stack))], map[], {});
    assert StackSlot(1, snapshot, [0], 7) == Some(Bag(1, 0));
    var ws := Grant(items, db, 1, snapshot, [0], reward);
    assert ws == [Save(Bag(1, 0), Some(stack), Item(7, 0, 0, false, 0, 0))] && ws[1..] == [];
    assert RunAll(db, ws) == RunWrite(db, ws[0]);
    assert [reward][1..] == [];
    assert GrantAll(items, db, 1, snapshot, [0], [reward]) == ws;
    assert AllGranted(items, db, 1, snapshot, [0], [reward], 7) == 1;
    assert AllWrapped(items, db, 1, snapshot, [0], [reward], 7) == WRAP;
    assert Plan(items, db, 1, work).value.0 == ws;
    FlowIsIntentLessLoss(items, db, 1, work, 7);
  }

  // ---- Over runs -----------------------------------------------------------------------------------------

  function StepIntent(items: ItemTable, s: State, step: Step, id: uint32): int {
    if Commits(items, s, step) then Intent(items, s.db, s.jobs[0].src.ch, s.jobs[0].work, id)
    else if step.Expire? && step.spot in s.ground then 0 - Units(s.ground[step.spot], id)
    else 0
  }

  function RunIntent(items: ItemTable, s: State, steps: seq<Step>, id: uint32): int
    decreases |steps|
  {
    if steps == [] then 0
    else StepIntent(items, s, steps[0], id) + RunIntent(items, Next(items, s, steps[0]), steps[1..], id)
  }

  function RunLoss(items: ItemTable, s: State, steps: seq<Step>, id: uint32): int
    decreases |steps|
  {
    if steps == [] then 0
    else (if Commits(items, s, steps[0]) then Loss(items, s.db, s.jobs[0].src.ch, s.jobs[0].work, id) else 0)
         + RunLoss(items, Next(items, s, steps[0]), steps[1..], id)
  }

  lemma StepFlowIsIntentLessLoss(items: ItemTable, s: State, step: Step, id: uint32)
    requires Built(s)
    ensures StepFlow(items, s, step, id)
         == StepIntent(items, s, step, id)
            - if Commits(items, s, step) then Loss(items, s.db, s.jobs[0].src.ch, s.jobs[0].work, id) else 0
  {
    hide CommitFlow, Intent, Loss, WellBuilt;
    if Commits(items, s, step) {
      assert s.jobs[0] in s.jobs;
      FlowIsIntentLessLoss(items, s.db, s.jobs[0].src.ch, s.jobs[0].work, id);
    }
  }

  lemma {:induction false} RunFlowIsIntentLessLoss(items: ItemTable, s: State, steps: seq<Step>, id: uint32)
    requires Built(s)
    ensures RunFlow(items, s, steps, id) == RunIntent(items, s, steps, id) - RunLoss(items, s, steps, id)
    decreases |steps|
  {
    hide Built, Next, StepIntent, Loss, StepFlow;
    if steps != [] {
      StepKeepsBuilt(items, s, steps[0]);
      StepFlowIsIntentLessLoss(items, s, steps[0], id);
      RunFlowIsIntentLessLoss(items, Next(items, s, steps[0]), steps[1..], id);
    }
  }

  /** Over every run whatsoever the world's units of each item change by what was bought, sold, deleted, granted and
      expired, less what wrapped stacks and equipment rows dropped, and by what was conjured in slots without a row. */
  lemma UnitsAccounted(items: ItemTable, s: State, steps: seq<Step>, id: uint32)
    requires DropsUnique(s) && Built(s)
    ensures WorldUnits(Run(items, s, steps), id)
         == WorldUnits(s, id) + RunIntent(items, s, steps, id) - RunLoss(items, s, steps, id)
            + RunConjured(items, s, steps, id)
  {
    hide DropsUnique, Built, WorldUnits, Run, RunFlow, RunIntent, RunLoss, RunConjured;
    RunAccounts(items, s, steps, id);
    RunFlowIsIntentLessLoss(items, s, steps, id);
  }

  /** The request passes the guard of its job when it is handled. */
  predicate Admitted(items: ItemTable, s: State, step: Step) {
    if step.Message? && step.conn in s.players && WorkFor(items, s, s.players[step.conn], step.req).Some?
    then HasRoomFor(items, WorkFor(items, s, s.players[step.conn], step.req).value) else true
  }

  predicate AdmittedRun(items: ItemTable, s: State, steps: seq<Step>)
    decreases |steps|
  {
    steps == [] || (Admitted(items, s, steps[0]) && AdmittedRun(items, Next(items, s, steps[0]), steps[1..]))
  }

  ghost predicate QueueHasRoom(items: ItemTable, s: State) {
    forall job | job in s.jobs && job.Task? :: HasRoomFor(items, job.work)
  }

  lemma QueueKeepsRoom(items: ItemTable, s: State, step: Step)
    requires QueueHasRoom(items, s) && Admitted(items, s, step)
    ensures QueueHasRoom(items, Next(items, s, step))
  {
    hide HasRoomFor, Perform, LoadCharacter;
    var next := Next(items, s, step);
    assert forall job | job in next.jobs ::
             job in s.jobs || (step.Enter? && job.Load?) || (step.Message? && job == next.jobs[|s.jobs|]);
  }

  lemma {:induction false} AdmittedRunsLoseNothing(items: ItemTable, s: State, steps: seq<Step>, id: uint32)
    requires Built(s) && QueueHasRoom(items, s) && AdmittedRun(items, s, steps)
    ensures RunLoss(items, s, steps, id) == 0
    decreases |steps|
  {
    hide Next, Loss, Lossless, HasRoomFor, Perform, WellBuilt;
    if steps != [] {
      if Commits(items, s, steps[0]) {
        assert s.jobs[0] in s.jobs;
        RoomIsLossless(items, s.db, s.jobs[0].src.ch, s.jobs[0].work);
        NoLossIffLossless(items, s.db, s.jobs[0].src.ch, s.jobs[0].work);
      }
      StepKeepsBuilt(items, s, steps[0]);
      QueueKeepsRoom(items, s, steps[0]);
      AdmittedRunsLoseNothing(items, Next(items, s, steps[0]), steps[1..], id);
    }
  }

  /** Over any run whose requests pass their guards, the world's units of all items change by exactly the units bought,
      sold, deleted, expired and granted if and only if every job that commits is backed: then pickups, drops, moves,
      deposits, withdrawals and rejections change nothing. */
  lemma UnitsConservedIffBacked(items: ItemTable, s: State, steps: seq<Step>)
    requires DropsUnique(s) && Built(s) && QueueHasRoom(items, s) && AdmittedRun(items, s, steps)
    ensures (forall id: uint32 ::
               WorldUnits(Run(items, s, steps), id) == WorldUnits(s, id) + RunIntent(items, s, steps, id))
       <==> BackedRun(items, s, steps)
  {
    hide DropsUnique, Built, QueueHasRoom, AdmittedRun, WorldUnits, Run, RunIntent, RunLoss, RunConjured, BackedRun;
    forall id: uint32
      ensures WorldUnits(Run(items, s, steps), id) == WorldUnits(s, id) + RunIntent(items, s, steps, id)
         <==> RunConjured(items, s, steps, id) == 0
    {
      UnitsAccounted(items, s, steps, id);
      AdmittedRunsLoseNothing(items, s, steps, id);
    }
    NothingConjuredIffBacked(items, s, steps);
  }

  lemma SoundIsBuilt(s: State)
    requires Sound(s)
    ensures Built(s)
  {
    forall job | job in s.jobs && job.Task? ensures WellBuilt(job.src.ch, job.work) {
      assert JobRooted(s.db, job);
    }
    forall cb | cb in s.done && cb.Loaded? ensures OwnSlots(cb.ch, cb.character.slots) {
      assert CallbackRooted(s.db, cb);
    }
    forall c | c in s.players ensures OwnSlots(s.players[c].session.ch, s.players[c].character.slots) {
      assert PlayerRooted(s.db, s.players[c]);
    }
  }

  /** Orderly runs are backed, so in them that is all that changes. */
  lemma UnitsConserved(items: ItemTable, s: State, steps: seq<Step>, id: uint32)
    requires Sound(s) && Separated(s) && OrderlyRun(items, s, steps)
    requires QueueHasRoom(items, s) && AdmittedRun(items, s, steps)
    ensures WorldUnits(Run(items, s, steps), id) == WorldUnits(s, id) + RunIntent(items, s, steps, id)
  {
    hide AllRooted, Built, QueueHasRoom, AdmittedRun, Separated, WorldUnits, Run, RunIntent, BackedRun;
    SoundIsBuilt(s);
    OrderlyRunsAreBacked(items, s, steps);
    UnitsConservedIffBacked(items, s, steps);
  }

  // ---- Money ---------------------------------------------------------------------------------------------

  /** What a committed job adds to the sum of all wallets and banks. */
  function Price(db: Db, work: Work): int {
    match work
    case Withdraw(_, _, _, _, _, _) => 0 - WITHDRAWAL_FEE
    case Buy(_, _, _, _, cost) => 0 - cost
    case Sell(_, _, _, _, earned) => earned
    case Appraise(candidates, money) => 0 - Fees(Land(db, candidates, money, 0))
    case TurnIn(_, quest, _) => quest.cegel
    case _ => 0
  }

  lemma {:induction false} SavesCostNothing(ws: seq<Write>)
    requires forall w | w in ws :: w.Save?
    ensures MoneyFlow(ws) == 0
  {
    if ws != [] {
      assert ws[0] in ws;
      SavesCostNothing(ws[1..]);
    }
  }

  /** Deposits and withdrawals of money move it, everything else prices itself: the run law's money flow, job by job. */
  lemma MoneyFlowIsPrice(items: ItemTable, db: Db, ch: int, work: Work)
    requires Plan(items, db, ch, work).Some?
    ensures MoneyFlow(Plan(items, db, ch, work).value.0) == Price(db, work)
  {
    var plan := Plan(items, db, ch, work).value.0;
    match work
    case Appraise(candidates, money) =>
      var landed := Land(db, candidates, money, 0);
      LandedWritesAre(landed);
      SavesCostNothing(LandedWrites(landed));
      FlowConcat(LandedWrites(landed), [Spend(Wallet(ch), Fees(landed))], 0);
      FlowUnrolled([Spend(Wallet(ch), Fees(landed))], 0);
    case TurnIn(snapshot, quest, order) =>
      var ws := GrantAll(items, db, ch, snapshot, order, quest.rewards);
      var pay := if quest.cegel != 0 then [Credit(Wallet(ch), quest.cegel)] else [];
      RewardsAreSaved(items, db, ch, snapshot, order, quest.rewards);
      SavesCostNothing(ws);
      FlowConcat(ws, pay, 0);
      FlowUnrolled(pay, 0);
    case _ => FlowUnrolled(plan, 0);
  }

  /** What a purchase or sale the server queues costs or earns is the table's price for each unit it moves. */
  lemma TradesArePricedPerUnit(items: ItemTable, s: State, p: Player, req: Request, db: Db)
    requires (req.BuyItem? || req.SellItem?) && WorkFor(items, s, p, req).Some?
    requires Plan(items, db, p.session.ch, WorkFor(items, s, p, req).value).Some?
    ensures var work := WorkFor(items, s, p, req).value;
            var id := if work.Buy? then work.updated.id else work.content.id;
            id in items
            && Price(db, work) == 0 - (if req.BuyItem? then items[id].buyPrice else items[id].sellPrice)
                                      * Intent(items, db, p.session.ch, work, id)
  {
    hide Plan;
  }

  function RunPrice(items: ItemTable, s: State, steps: seq<Step>): int
    decreases |steps|
  {
    if steps == [] then 0
    else (if Commits(items, s, steps[0]) then Price(s.db, s.jobs[0].work) else 0)
         + RunPrice(items, Next(items, s, steps[0]), steps[1..])
  }

  /** Over every run whatsoever all wallets and banks together change by exactly the sales and quest rewards committed
      in it, less its purchases and its withdrawal and appraisal fees. */
  lemma MoneyConserved(items: ItemTable, s: State, steps: seq<Step>)
    ensures DbMoney(Run(items, s, steps).db) == DbMoney(s.db) + RunPrice(items, s, steps)
  {
    RunPays(items, s, steps);
    RunMoneyIsPrice(items, s, steps);
    hide DbMoney, Run, RunMoney, RunPrice;
  }

  lemma {:induction false} RunMoneyIsPrice(items: ItemTable, s: State, steps: seq<Step>)
    ensures RunMoney(items, s, steps) == RunPrice(items, s, steps)
    decreases |steps|
  {
    hide Next, MoneyFlow, Price, RunAll, Report, Plan;
    if steps != [] {
      if Commits(items, s, steps[0]) {
        MoneyFlowIsPrice(items, s.db, s.jobs[0].src.ch, s.jobs[0].work);
      }
      RunMoneyIsPrice(items, Next(items, s, steps[0]), steps[1..]);
    }
  }
}
