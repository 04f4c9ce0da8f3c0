/** Orderly runs conserve: every belief about a slot comes from a row, so nothing is conjured, and units and money
    change only by what the committed jobs and expired drops say. */
module Conservation {
  import opened Wrappers
  import opened Items
  import opened SlotRows
  import opened Protocol
  import opened Ledger
  import opened Sessions
  import opened Plans
  import opened Accounting

  // ---- Each orderly step keeps beliefs rooted --------------------------------------------------------------

  lemma RootedGrows(s: State, db: Db)
    requires AllRooted(s) && s.db.rows.Keys <= db.rows.Keys
    ensures AllRooted(s.(db := db))
  {
    forall job | job in s.jobs ensures JobRooted(db, job) {
      assert JobRooted(s.db, job);
      if job.Task? && !job.work.Appraise? && !job.work.TurnIn? {
        assert forall w | w in Writes(job.src.ch, job.work) :: GroundedWrite(s.db, w);
        assert forall w :: GroundedWrite(s.db, w) ==> GroundedWrite(db, w);
      }
    }
    forall cb | cb in s.done ensures CallbackRooted(db, cb) {
      assert CallbackRooted(s.db, cb);
      if cb.Committed? {
        assert forall e | e in cb.effects :: EffectRooted(s.db, e, cb.src.ch) && EffectRooted(db, e, cb.src.ch);
      }
    }
    forall c | c in s.players ensures PlayerRooted(db, s.players[c]) {
      assert PlayerRooted(s.db, s.players[c]);
    }
  }

  lemma {:induction false} EffectsKeepRooted(db: Db, p: Player, es: seq<Effect>)
    requires PlayerRooted(db, p) && forall e | e in es :: EffectRooted(db, e, p.session.ch)
    ensures PlayerRooted(db, ApplyEffects(p, es))
    decreases |es|
  {
    if es != [] {
      var e := es[0];
      assert e in es && EffectRooted(db, e, p.session.ch);
      var q := ApplyEffect(p, e);
      assert PlayerRooted(db, q);
      assert forall f | f in es[1..] :: f in es;
      EffectsKeepRooted(db, q, es[1..]);
    }
  }

  lemma MessageKeepsRooted(items: ItemTable, s: State, conn: int, req: Request)
    requires AllRooted(s)
    ensures AllRooted(Handle(items, s, conn, req))
  {
    hide WorkFor, WellBuilt, Rooted;
    if conn in s.players {
      var p := s.players[conn];
      assert PlayerRooted(s.db, p);
      if WorkFor(items, s, p, req).Some? {
        ValidationIsSound(items, s, p, req);
      }
    }
  }

  lemma LoadIsRooted(db: Db, conn: int, ch: int, account: int, mapId: int)
    ensures CallbackRooted(db, Loaded(conn, ch, account, mapId, LoadCharacter(db, ch)))
  {
  }

  lemma CommitIsRooted(items: ItemTable, db: Db, src: Session, work: Work)
    requires WellBuilt(src.ch, work) && Rooted(db, src.ch, work) && Perform(items, db, src.ch, work).Some?
    ensures var (after, effects) := Perform(items, db, src.ch, work).value;
            db.rows.Keys <= after.rows.Keys && CallbackRooted(after, Committed(src, work, effects))
  {
    hide WellBuilt, Rooted, Plan, RunAll, Report, EffectRooted;
    RowsStay(db, Plan(items, db, src.ch, work).value.0);
    ReportIsRooted(items, db, src.ch, work);
  }

  lemma RefusalIsRooted(db: Db, src: Session, work: Work)
    requires JobRooted(db, Task(src, work))
    ensures CallbackRooted(db, Refused(src, work))
  {
  }

  /** Popping a job and posting its callback. */
  lemma AnswerKeepsRooted(s: State, db: Db, cb: Callback)
    requires AllRooted(s) && s.jobs != [] && s.db.rows.Keys <= db.rows.Keys && CallbackRooted(db, cb)
    ensures AllRooted(s.(db := db, jobs := s.jobs[1..], done := s.done + [cb]))
  {
    RootedGrows(s, db);
    hide JobRooted, CallbackRooted, PlayerRooted;
  }

  lemma JobKeepsRooted(items: ItemTable, s: State, mapId: int, throws: bool)
    requires AllRooted(s) && s.jobs != []
    ensures AllRooted(RunJob(items, s, mapId, throws))
  {
    hide Perform, LoadCharacter, CallbackRooted, WellBuilt, Rooted;
    var job := s.jobs[0];
    assert job in s.jobs && JobRooted(s.db, job);
    match job
    case Load(conn, ch, account) =>
      LoadIsRooted(s.db, conn, ch, account, mapId);
      AnswerKeepsRooted(s, s.db, Loaded(conn, ch, account, mapId, LoadCharacter(s.db, ch)));
    case Task(src, work) =>
      var result := if throws then None else Perform(items, s.db, src.ch, work);
      if result.Some? {
        CommitIsRooted(items, s.db, src, work);
        AnswerKeepsRooted(s, result.value.0, Committed(src, work, result.value.1));
      } else {
        RefusalIsRooted(s.db, src, work);
        AnswerKeepsRooted(s, s.db, Refused(src, work));
      }
  }

  /** Here the order matters: the effects a callback applies must be those of the session it meets. */
  lemma CallbackKeepsRooted(s: State)
    requires AllRooted(s) && Separated(s) && s.done != []
    ensures AllRooted(RunCallback(s))
  {
    hide JobRooted, EffectRooted, PlayerRooted, WellBuilt;
    CallbackFindsItsSession(s);
    var cb := s.done[0];
    assert cb in s.done && CallbackRooted(s.db, cb);
    if cb.Committed? && cb.src.conn in s.players {
      EffectsKeepRooted(s.db, s.players[cb.src.conn], cb.effects);
    } else if cb.Loaded? {
      JoinIsRooted(s.db, cb, s.nextId);
    }
  }

  lemma JoinIsRooted(db: Db, cb: Callback, inst: nat)
    requires cb.Loaded? && CallbackRooted(db, cb)
    ensures PlayerRooted(db, Player(Session(cb.conn, inst, cb.ch), cb.account, cb.mapId, cb.character, None))
  {
  }

  lemma StepKeepsRooted(items: ItemTable, s: State, step: Step)
    requires AllRooted(s) && Separated(s)
    ensures AllRooted(Next(items, s, step))
  {
    if step.Message? {
      MessageKeepsRooted(items, s, step.conn, step.req);
    } else if step.NextJob? && s.jobs != [] {
      JobKeepsRooted(items, s, step.mapId, step.throws);
    } else if step.NextCallback? && s.done != [] {
      CallbackKeepsRooted(s);
    }
    hide JobRooted, CallbackRooted, PlayerRooted, Handle, RunJob, RunCallback, Separated;
  }

  /** A rooted job takes for granted only what rows hold. */
  lemma RootedIsBacked(items: ItemTable, s: State, step: Step)
    requires AllRooted(s) && Commits(items, s, step)
    ensures AllBacked(s.db, Landed(items, s, step))
  {
    hide WellBuilt, Rooted, Plan, RunAll, Report, AllGrounded, AllBacked;
    var job := s.jobs[0];
    assert job in s.jobs && JobRooted(s.db, job);
    PlanIsGrounded(items, s.db, job.src.ch, job.work);
    GroundedIsBacked(s.db, Landed(items, s, step));
  }

  lemma RootedGoesForward(s: State)
    requires AllRooted(s)
    ensures QueueTransfersForward(s)
  {
    forall job | job in s.jobs && job.Task? ensures TransfersForward(job.work) {
      assert JobRooted(s.db, job);
    }
  }

  /** Every orderly step keeps the invariant and moves the totals by its own flow. */
  lemma StepConserves(items: ItemTable, s: State, step: Step, id: uint32)
    requires Sound(s) && Separated(s) && Orderly(s, step)
    ensures Sound(Next(items, s, step)) && Separated(Next(items, s, step))
    ensures WorldUnits(Next(items, s, step), id) == WorldUnits(s, id) + StepFlow(items, s, step, id)
    ensures DbMoney(Next(items, s, step).db) == DbMoney(s.db) + StepMoney(items, s, step)
  {
    hide DropsUnique, AllRooted, RowsWellFormed, Solvent, Separated, WorldUnits, Next, CommitFlow, MoneyFlow, DbMoney,
        AllConjured, AllBacked, Commits, QueueTransfersForward;
    StepKeepsSeparated(items, s, step);
    StepKeepsRooted(items, s, step);
    RootedGoesForward(s);
    StepKeepsTables(items, s, step);
    StepCounts(items, s, step, id);
    StepPays(items, s, step);
    if Commits(items, s, step) {
      RootedIsBacked(items, s, step);
      ConjuresNothingIffBacked(s.db, Landed(items, s, step));
    }
  }

  // ---- Over runs -------------------------------------------------------------------------------------

  /** Orderly runs keep the invariant, and nothing is conjured in them. */
  lemma {:induction false} OrderlyRunsAreBacked(items: ItemTable, s: State, steps: seq<Step>)
    requires Sound(s) && Separated(s) && OrderlyRun(items, s, steps)
    ensures Sound(Run(items, s, steps)) && Separated(Run(items, s, steps)) && BackedRun(items, s, steps)
    decreases |steps|
  {
    hide DropsUnique, AllRooted, RowsWellFormed, Solvent, Separated, Orderly, Next, AllBacked, Commits, WorldUnits,
        DbMoney, StepFlow, StepMoney;
    if steps != [] {
      StepConserves(items, s, steps[0], 0);
      if Commits(items, s, steps[0]) {
        RootedIsBacked(items, s, steps[0]);
      }
      OrderlyRunsAreBacked(items, Next(items, s, steps[0]), steps[1..]);
    }
  }

  /** So over every orderly run of any number of pipelined requests units and money follow the flows. */
  lemma RunConserves(items: ItemTable, s: State, steps: seq<Step>, id: uint32)
    requires Sound(s) && Separated(s) && OrderlyRun(items, s, steps)
    ensures Sound(Run(items, s, steps)) && Separated(Run(items, s, steps))
    ensures WorldUnits(Run(items, s, steps), id) == WorldUnits(s, id) + RunFlow(items, s, steps, id)
    ensures DbMoney(Run(items, s, steps).db) == DbMoney(s.db) + RunMoney(items, s, steps)
  {
    hide AllRooted, Separated, Run, RunFlow, RunMoney, WorldUnits, BackedRun, DbMoney;
    OrderlyRunsAreBacked(items, s, steps);
    NothingConjuredIffBacked(items, s, steps);
    RunAccounts(items, s, steps, id);
    RunPays(items, s, steps);
  }
}
