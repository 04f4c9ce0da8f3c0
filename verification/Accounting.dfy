/** The accounts of every run whatsoever: where each unit and each coin went, with no assumption on how requests, jobs,
    callbacks, entries and departures interleave. */
module Accounting {
  import opened Wrappers
  import opened Items
  import opened SlotRows
  import opened Protocol
  import opened Ledger
  import opened Plans

  // ---- Flows -----------------------------------------------------------------------------------------------

  /** What a committed job adds to the world's units: its statements' balance, less a claimed pickup, plus a drop to
      spawn. */
  function CommitFlow(items: ItemTable, db: Db, ch: int, work: Work, id: uint32): int
    requires Plan(items, db, ch, work).Some?
  {
    UnitsFlow(Plan(items, db, ch, work).value.0, id)
    - (if work.PickUp? then Units(work.drop, id) else 0)
    + (if work.PutDown? then Units(work.dropped, id) else 0)
  }

  predicate Commits(items: ItemTable, s: State, step: Step) {
    step.NextJob? && !step.throws && s.jobs != [] && s.jobs[0].Task?
    && Perform(items, s.db, s.jobs[0].src.ch, s.jobs[0].work).Some?
  }

  /** The statements of the job a step commits. */
  function Landed(items: ItemTable, s: State, step: Step): seq<Write>
    requires Commits(items, s, step)
  {
    Plan(items, s.db, s.jobs[0].src.ch, s.jobs[0].work).value.0
  }

  function StepFlow(items: ItemTable, s: State, step: Step, id: uint32): int {
    if Commits(items, s, step) then CommitFlow(items, s.db, s.jobs[0].src.ch, s.jobs[0].work, id)
    else if step.Expire? && step.spot in s.ground then 0 - Units(s.ground[step.spot], id)
    else 0
  }

  function StepMoney(items: ItemTable, s: State, step: Step): int {
    if Commits(items, s, step) then MoneyFlow(Landed(items, s, step)) else 0
  }

  function StepConjured(items: ItemTable, s: State, step: Step, id: uint32): nat {
    if Commits(items, s, step) then AllConjured(s.db, Landed(items, s, step), id) else 0
  }

  function RunFlow(items: ItemTable, s: State, steps: seq<Step>, id: uint32): int
    decreases |steps|
  {
    if steps == [] then 0
    else StepFlow(items, s, steps[0], id) + RunFlow(items, Next(items, s, steps[0]), steps[1..], id)
  }

  function RunMoney(items: ItemTable, s: State, steps: seq<Step>): int
    decreases |steps|
  {
    if steps == [] then 0
    else StepMoney(items, s, steps[0]) + RunMoney(items, Next(items, s, steps[0]), steps[1..])
  }

  function RunConjured(items: ItemTable, s: State, steps: seq<Step>, id: uint32): nat
    decreases |steps|
  {
    if steps == [] then 0
    else StepConjured(items, s, steps[0], id) + RunConjured(items, Next(items, s, steps[0]), steps[1..], id)
  }

  /** Every job that commits in the run takes for granted only what a row could hold. */
  predicate BackedRun(items: ItemTable, s: State, steps: seq<Step>)
    decreases |steps|
  {
    steps == [] || ((Commits(items, s, steps[0]) ==> AllBacked(s.db, Landed(items, s, steps[0])))
                    && BackedRun(items, Next(items, s, steps[0]), steps[1..]))
  }

  // ---- Drops exist at most once, and units are where the accounts say -----------------------------------------

  /** Fewer copies of every drop, the same id generator: drops stay unique. */
  lemma FewerCopies(s: State, next: State)
    requires DropsUnique(s) && s.nextId <= next.nextId
    requires forall spot :: Copies(next, spot) <= Copies(s, spot)
    ensures DropsUnique(next)
  {
    forall spot ensures Copies(next, spot) <= 1 && (Copies(next, spot) == 1 ==> spot.id < next.nextId) {
      assert Copies(next, spot) <= Copies(s, spot);
    }
  }

  /** Queueing a job moves a claimed drop from the ground into the queue and nothing else. */
  lemma QueueCounts(s: State, job: Job, ground: map<Spot, Item>, id: uint32)
    requires DropsUnique(s)
    requires if job.Task? && job.work.PickUp?
             then job.work.spot in s.ground && job.work.drop == s.ground[job.work.spot]
                  && ground == s.ground - {job.work.spot}
             else ground == s.ground
    ensures var next := s.(jobs := s.jobs + [job], ground := ground);
            DropsUnique(next) && WorldUnits(next, id) == WorldUnits(s, id)
  {
    var next := s.(jobs := s.jobs + [job], ground := ground);
    forall spot ensures Copies(next, spot) <= Copies(s, spot) {
      JobsAppend(s.jobs, job, id, spot);
    }
    FewerCopies(s, next);
    JobsAppend(s.jobs, job, id, Spot(0, 0));
    if job.Task? && job.work.PickUp? {
      GroundChange(s.ground, job.work.spot, job.work.drop, id);
    }
  }

  lemma MessageCounts(items: ItemTable, s: State, conn: int, req: Request, id: uint32)
    requires DropsUnique(s)
    ensures var next := Handle(items, s, conn, req);
            DropsUnique(next) && next.db == s.db && WorldUnits(next, id) == WorldUnits(s, id)
  {
    if conn in s.players {
      var p := s.players[conn];
      if req.StoreClose? {
        QuietCounts(s, s.players[conn := p.(bank := None)], s.connected, id);
      } else if WorkFor(items, s, p, req).Some? {
        var work := WorkFor(items, s, p, req).value;
        QueueCounts(s, Task(p.session, work), if work.PickUp? then s.ground - {work.spot} else s.ground, id);
      }
    }
  }

  /** Changes to memory that touch neither queues, tables nor ground. */
  lemma QuietCounts(s: State, players: map<int, Player>, connected: set<int>, id: uint32)
    requires DropsUnique(s)
    ensures var next := s.(players := players, connected := connected);
            DropsUnique(next) && WorldUnits(next, id) == WorldUnits(s, id)
  {
    var next := s.(players := players, connected := connected);
    forall spot ensures Copies(next, spot) <= Copies(s, spot) {
    }
    FewerCopies(s, next);
  }

  /** Popping a job and posting its callback; a put-back is only posted for the claim it answers. */
  lemma AnswerCounts(s: State, db: Db, cb: Callback, id: uint32)
    requires DropsUnique(s) && s.jobs != []
    requires forall spot :: PutBacks(cb, spot) <= Claims(s.jobs[0], spot)
    ensures var next := s.(db := db, jobs := s.jobs[1..], done := s.done + [cb]);
            DropsUnique(next)
            && WorldUnits(next, id) == WorldUnits(s, id) - DbUnits(s.db, id) + DbUnits(db, id)
                                       - ClaimedUnits(s.jobs[0], id) + PendingUnits(cb, id)
  {
    hide DbUnits;
    var next := s.(db := db, jobs := s.jobs[1..], done := s.done + [cb]);
    forall spot ensures Copies(next, spot) <= Copies(s, spot) {
      DoneAppend(s.done, cb, id, spot);
      assert PutBacks(cb, spot) <= Claims(s.jobs[0], spot);
    }
    FewerCopies(s, next);
    DoneAppend(s.done, cb, id, Spot(0, 0));
  }

  lemma SilentJobCounts(s: State, id: uint32)
    requires DropsUnique(s) && s.jobs != [] && s.jobs[0].Load?
    ensures DropsUnique(s.(jobs := s.jobs[1..])) && WorldUnits(s.(jobs := s.jobs[1..]), id) == WorldUnits(s, id)
  {
    var next := s.(jobs := s.jobs[1..]);
    forall spot ensures Copies(next, spot) <= Copies(s, spot) {
    }
    FewerCopies(s, next);
  }

  lemma CommitCounts(items: ItemTable, s: State, id: uint32)
    requires DropsUnique(s) && s.jobs != [] && s.jobs[0].Task?
    requires Perform(items, s.db, s.jobs[0].src.ch, s.jobs[0].work).Some?
    ensures var Task(src, work) := s.jobs[0];
            var (db, effects) := Perform(items, s.db, src.ch, work).value;
            var plan := Plan(items, s.db, src.ch, work).value.0;
            var next := s.(db := db, jobs := s.jobs[1..], done := s.done + [Committed(src, work, effects)]);
            DropsUnique(next)
            && WorldUnits(next, id) == WorldUnits(s, id) + CommitFlow(items, s.db, src.ch, work, id)
                                       + AllConjured(s.db, plan, id)
  {
    var Task(src, work) := s.jobs[0];
    var (db, effects) := Perform(items, s.db, src.ch, work).value;
    CommitTotals(s.db, Plan(items, s.db, src.ch, work).value.0, id);
    hide WorldUnits, AllConjured, RunAll, Plan, Report, Copies;
    AnswerCounts(s, db, Committed(src, work, effects), id);
  }

  lemma JobCounts(items: ItemTable, s: State, mapId: int, throws: bool, id: uint32)
    requires DropsUnique(s) && s.jobs != []
    ensures var next := RunJob(items, s, mapId, throws);
            var step := NextJob(mapId, throws);
            DropsUnique(next)
            && WorldUnits(next, id)
               == WorldUnits(s, id) + StepFlow(items, s, step, id) + StepConjured(items, s, step, id)
  {
    hide WorldUnits, Perform, CommitFlow, DbUnits, LoadCharacter, DropsUnique, AllConjured;
    match s.jobs[0]
    case Load(conn, ch, account) =>
      if throws || Wallet(ch) !in s.db.money {
        SilentJobCounts(s, id);
      } else {
        AnswerCounts(s, s.db, Loaded(conn, ch, account, mapId, LoadCharacter(s.db, ch)), id);
      }
    case Task(src, work) =>
      if Commits(items, s, NextJob(mapId, throws)) {
        CommitCounts(items, s, id);
      } else {
        AnswerCounts(s, s.db, Refused(src, work), id);
      }
  }

  /** Running a callback: memory changes, and a pending drop lands on a free spot. */
  lemma SettleCounts(s: State, players: map<int, Player>, nextId: nat, spot: Spot, item: Item, landing: bool,
                     id: uint32)
    requires DropsUnique(s) && s.done != [] && s.nextId <= nextId
    requires PendingUnits(s.done[0], id) == if landing then Units(item, id) else 0
    requires landing ==> spot !in s.ground && spot.id < nextId
    requires forall k :: PutBacks(s.done[0], k) <= if landing && k == spot then 1 else 0
    requires landing ==> PutBacks(s.done[0], spot) == 1 || Copies(s, spot) == 0
    ensures var next := s.(done := s.done[1..], players := players, nextId := nextId,
                           ground := if landing then Place(s.ground, spot, item) else s.ground);
            DropsUnique(next) && WorldUnits(next, id) == WorldUnits(s, id)
  {
    var next := s.(done := s.done[1..], players := players, nextId := nextId,
                   ground := if landing then Place(s.ground, spot, item) else s.ground);
    if landing {
      GroundChange(s.ground, spot, item, id);
    }
    forall k ensures Copies(next, k) <= 1 && (Copies(next, k) == 1 ==> k.id < next.nextId) {
      assert Copies(s, k) <= 1;
    }
  }

  const NOTHING := Item(0, 0, 0, false, 0, 0)

  lemma CommittedCounts(s: State, id: uint32)
    requires DropsUnique(s) && s.done != [] && s.done[0].Committed?
    ensures DropsUnique(RunCallback(s)) && WorldUnits(RunCallback(s), id) == WorldUnits(s, id)
  {
    hide DbUnits, GroundUnits;
    var next := RunCallback(s);
    var work := s.done[0].work;
    var spot := Spot(if work.PutDown? then work.mapId else 0, s.nextId);
    assert Copies(s, spot) == 0;
    if work.PutDown? {
      SettleCounts(s, next.players, s.nextId + 1, spot, work.dropped, true, id);
    } else {
      SettleCounts(s, next.players, s.nextId, spot, NOTHING, false, id);
    }
  }

  lemma RefusedCounts(s: State, id: uint32)
    requires DropsUnique(s) && s.done != [] && s.done[0].Refused?
    ensures DropsUnique(RunCallback(s)) && WorldUnits(RunCallback(s), id) == WorldUnits(s, id)
  {
    hide DbUnits, GroundUnits;
    var work := s.done[0].work;
    if work.PickUp? {
      assert Copies(s, work.spot) == 1;
      SettleCounts(s, s.players, s.nextId, work.spot, work.drop, true, id);
    } else {
      SettleCounts(s, s.players, s.nextId, Spot(0, s.nextId), NOTHING, false, id);
    }
  }

  /** Whichever session the callback meets. */
  lemma CallbackCounts(s: State, id: uint32)
    requires DropsUnique(s) && s.done != []
    ensures var next := RunCallback(s);
            DropsUnique(next) && next.db == s.db && WorldUnits(next, id) == WorldUnits(s, id)
  {
    hide WorldUnits, DropsUnique;
    match s.done[0]
    case Committed(_, _, _) => CommittedCounts(s, id);
    case Refused(_, _) => RefusedCounts(s, id);
    case Loaded(_, _, _, _, _) =>
      SettleCounts(s, RunCallback(s).players, RunCallback(s).nextId, Spot(0, s.nextId), NOTHING, false, id);
  }

  lemma ExpiryCounts(s: State, spot: Spot, id: uint32)
    requires DropsUnique(s)
    ensures var next := s.(ground := s.ground - {spot});
            DropsUnique(next)
            && WorldUnits(next, id) == WorldUnits(s, id) - (if spot in s.ground then Units(s.ground[spot], id) else 0)
  {
    var next := s.(ground := s.ground - {spot});
    if spot in s.ground {
      GroundChange(s.ground, spot, s.ground[spot], id);
    } else {
      assert next.ground == s.ground;
    }
    forall k ensures Copies(next, k) <= Copies(s, k) {
    }
    FewerCopies(s, next);
  }

  /** Connecting, entering, leaving and expiry. */
  lemma OuterStepCounts(items: ItemTable, s: State, step: Step, id: uint32)
    requires DropsUnique(s) && !step.Message? && !step.NextJob? && !step.NextCallback?
    ensures var next := Next(items, s, step);
            DropsUnique(next) && next.db == s.db
            && WorldUnits(next, id) == WorldUnits(s, id) + StepFlow(items, s, step, id)
  {
    match step
    case Expire(spot) => ExpiryCounts(s, spot, id);
    case Enter(conn, ch, account) => QueueCounts(s, Load(conn, ch, account), s.ground, id);
    case Connect(conn) => QuietCounts(s, s.players, s.connected + {conn}, id);
    case Exit(conn, disconnected) =>
      QuietCounts(s, s.players - {conn}, if disconnected then s.connected - {conn} else s.connected, id);
  }

  /** Every step keeps drops unique and moves the units of every item by its own flow and what it conjures. */
  lemma StepCounts(items: ItemTable, s: State, step: Step, id: uint32)
    requires DropsUnique(s)
    ensures var next := Next(items, s, step);
            DropsUnique(next)
            && WorldUnits(next, id)
               == WorldUnits(s, id) + StepFlow(items, s, step, id) + StepConjured(items, s, step, id)
  {
    hide DropsUnique, WorldUnits, Handle, Perform, CommitFlow, AllConjured;
    if step.Message? {
      MessageCounts(items, s, step.conn, step.req, id);
    } else if step.NextJob? {
      if s.jobs != [] {
        JobCounts(items, s, step.mapId, step.throws, id);
      }
    } else if step.NextCallback? {
      if s.done != [] {
        CallbackCounts(s, id);
      }
    } else {
      OuterStepCounts(items, s, step, id);
    }
  }

  /** The exact law of units over every run whatsoever. */
  lemma {:induction false} RunAccounts(items: ItemTable, s: State, steps: seq<Step>, id: uint32)
    requires DropsUnique(s)
    ensures DropsUnique(Run(items, s, steps))
    ensures WorldUnits(Run(items, s, steps), id)
         == WorldUnits(s, id) + RunFlow(items, s, steps, id) + RunConjured(items, s, steps, id)
    decreases |steps|
  {
    hide DropsUnique, WorldUnits, Next, StepFlow, StepConjured;
    if steps != [] {
      StepCounts(items, s, steps[0], id);
      RunAccounts(items, Next(items, s, steps[0]), steps[1..], id);
    }
  }

  lemma {:induction false} NothingConjuredIffBacked(items: ItemTable, s: State, steps: seq<Step>)
    ensures BackedRun(items, s, steps) ==> forall id: uint32 :: RunConjured(items, s, steps, id) == 0
    ensures !BackedRun(items, s, steps) ==> exists id: uint32 :: RunConjured(items, s, steps, id) > 0
    decreases |steps|
  {
    hide Next, AllConjured, AllBacked, Landed, Commits;
    if steps != [] {
      var next := Next(items, s, steps[0]);
      if Commits(items, s, steps[0]) {
        ConjuresNothingIffBacked(s.db, Landed(items, s, steps[0]));
      }
      NothingConjuredIffBacked(items, next, steps[1..]);
      if !BackedRun(items, next, steps[1..]) {
        var id: uint32 :| RunConjured(items, next, steps[1..], id) > 0;
        assert RunConjured(items, s, steps, id) > 0;
      } else if !BackedRun(items, s, steps) {
        var id: uint32 :| AllConjured(s.db, Landed(items, s, steps[0]), id) > 0;
        assert RunConjured(items, s, steps, id) > 0;
      }
    }
  }

  /** So over any run the units of all items follow the flows if and only if every job that commits is backed. */
  lemma UnitsFollowFlowsIffBacked(items: ItemTable, s: State, steps: seq<Step>)
    requires DropsUnique(s)
    ensures (forall id: uint32 ::
               WorldUnits(Run(items, s, steps), id) == WorldUnits(s, id) + RunFlow(items, s, steps, id))
       <==> BackedRun(items, s, steps)
  {
    hide WorldUnits, RunFlow, RunConjured, Run, BackedRun, DropsUnique;
    forall id: uint32
      ensures WorldUnits(Run(items, s, steps), id) == WorldUnits(s, id) + RunFlow(items, s, steps, id)
         <==> RunConjured(items, s, steps, id) == 0
    {
      RunAccounts(items, s, steps, id);
    }
    NothingConjuredIffBacked(items, s, steps);
  }

  // ---- Money --------------------------------------------------------------------------------------------------

  lemma StepPays(items: ItemTable, s: State, step: Step)
    ensures DbMoney(Next(items, s, step).db) == DbMoney(s.db) + StepMoney(items, s, step)
  {
    hide DbMoney, RunAll, LoadCharacter, Report;
    if Commits(items, s, step) {
      CommitTotals(s.db, Landed(items, s, step), 0);
      SameMoney(RunAll(s.db, Landed(items, s, step)).value, Next(items, s, step).db);
    }
  }

  lemma SameMoney(db: Db, after: Db)
    requires db.money == after.money
    ensures DbMoney(db) == DbMoney(after)
  {
  }

  /** The exact law of money over every run whatsoever. */
  lemma {:induction false} RunPays(items: ItemTable, s: State, steps: seq<Step>)
    ensures DbMoney(Run(items, s, steps).db) == DbMoney(s.db) + RunMoney(items, s, steps)
    decreases |steps|
  {
    hide DbMoney, Next, StepMoney;
    if steps != [] {
      StepPays(items, s, steps[0]);
      RunPays(items, Next(items, s, steps[0]), steps[1..]);
    }
  }

  /** No queued transfer would move a negative sum. */
  predicate QueueTransfersForward(s: State) {
    forall job | job in s.jobs && job.Task? :: TransfersForward(job.work)
  }

  lemma StepKeepsTables(items: ItemTable, s: State, step: Step)
    requires QueueTransfersForward(s)
    ensures QueueTransfersForward(Next(items, s, step))
    ensures Solvent(s.db) ==> Solvent(Next(items, s, step).db)
    ensures RowsWellFormed(s.db) ==> RowsWellFormed(Next(items, s, step).db)
  {
    hide LoadCharacter, Report, RunAll, Plan, TransfersForward;
    var next := Next(items, s, step);
    if Commits(items, s, step) {
      var job := s.jobs[0];
      assert job in s.jobs;
      PlanCreditsForward(items, s.db, job.src.ch, job.work);
      CommitKeepsTables(s.db, Landed(items, s, step));
    }
    if step.Message? && |next.jobs| > |s.jobs| {
      QueuedForward(items, s, step.conn, step.req);
    }
  }

  lemma QueuedForward(items: ItemTable, s: State, conn: int, req: Request)
    requires QueueTransfersForward(s)
    ensures QueueTransfersForward(Handle(items, s, conn, req))
  {
    hide WorkFor, TransfersForward;
    if conn in s.players && WorkFor(items, s, s.players[conn], req).Some? {
      WorkGoesForward(items, s, s.players[conn], req);
    }
  }

  lemma WorkGoesForward(items: ItemTable, s: State, p: Player, req: Request)
    requires WorkFor(items, s, p, req).Some?
    ensures TransfersForward(WorkFor(items, s, p, req).value)
  {
  }

  /** Over every run whatsoever no balance is driven below zero and no row loses its shape. */
  lemma {:induction false} RunKeepsTables(items: ItemTable, s: State, steps: seq<Step>)
    requires QueueTransfersForward(s)
    ensures Solvent(s.db) ==> Solvent(Run(items, s, steps).db)
    ensures RowsWellFormed(s.db) ==> RowsWellFormed(Run(items, s, steps).db)
    decreases |steps|
  {
    hide QueueTransfersForward, Next, Solvent, RowsWellFormed;
    if steps != [] {
      StepKeepsTables(items, s, steps[0]);
      RunKeepsTables(items, Next(items, s, steps[0]), steps[1..]);
    }
  }

  // ---- Well-built work ------------------------------------------------------------------------------------------

  lemma {:induction false} EffectsKeepOwn(p: Player, es: seq<Effect>)
    requires OwnSlots(p.session.ch, p.character.slots)
    ensures var q := ApplyEffects(p, es); q.session == p.session && OwnSlots(q.session.ch, q.character.slots)
    decreases |es|
  {
    if es != [] {
      EffectsKeepOwn(ApplyEffect(p, es[0]), es[1..]);
    }
  }

  lemma MessageKeepsBuilt(items: ItemTable, s: State, conn: int, req: Request)
    requires Built(s)
    ensures Built(Handle(items, s, conn, req))
  {
    hide WellBuilt, WorkFor, OwnSlots;
    if conn in s.players && WorkFor(items, s, s.players[conn], req).Some? {
      ValidationBuilds(items, s, s.players[conn], req);
    }
  }

  lemma LoadKeepsOwn(db: Db, ch: int)
    ensures OwnSlots(ch, LoadCharacter(db, ch).slots)
  {
  }

  lemma CallbackKeepsBuilt(s: State)
    requires Built(s) && s.done != []
    ensures Built(RunCallback(s))
  {
    hide WellBuilt, OwnSlots;
    var cb := s.done[0];
    assert cb in s.done;
    if cb.Committed? && cb.src.conn in s.players {
      EffectsKeepOwn(s.players[cb.src.conn], cb.effects);
    }
  }

  /** Every step keeps queued work well-built, whoever its callback meets. */
  lemma StepKeepsBuilt(items: ItemTable, s: State, step: Step)
    requires Built(s)
    ensures Built(Next(items, s, step))
  {
    hide WellBuilt, OwnSlots, Perform, LoadCharacter;
    if step.Message? {
      MessageKeepsBuilt(items, s, step.conn, step.req);
    } else if step.NextCallback? && s.done != [] {
      CallbackKeepsBuilt(s);
    } else if step.NextJob? && s.jobs != [] && s.jobs[0].Load? {
      LoadKeepsOwn(s.db, s.jobs[0].ch);
    }
  }
}
