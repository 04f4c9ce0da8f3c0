/** Cache agreement over all orderly runs. */
module CacheRuns {
  import opened Wrappers
  import opened SlotRows
  import opened Protocol
  import opened Ledger
  import opened Sessions
  import opened Plans
  import opened Conservation
  import opened CacheAgreement

  // ---- One commit, seen by its own character and by the others ----------------------------------------

  predicate OwnWrite(ch: int, w: Write) {
    match w
    case Save(slot, _, _) => slot.Vault? || slot.owner == ch
    case Clear(slot, _) => slot.Vault? || slot.owner == ch
    case Spend(account, _) => account.Safe? || account.owner == ch
    case Credit(account, _) => account.Safe? || account.owner == ch
  }

  lemma PlanWritesOwn(items: ItemTable, db: Db, ch: int, work: Work)
    requires WellBuilt(ch, work) && Rooted(db, ch, work) && Plan(items, db, ch, work).Some?
    ensures forall w | w in Plan(items, db, ch, work).value.0 :: OwnWrite(ch, w)
  {
    match work
    case Appraise(candidates, money) =>
      LandRuns(db, candidates, money, 0);
      LandedWritesAre(Land(db, candidates, money, 0));
    case TurnIn(snapshot, quest, order) => RewardsLand(items, db, ch, snapshot, order, quest.rewards);
    case _ =>
  }

  lemma {:induction false} OthersUntouched(db: Db, ch: int, other: int, ws: seq<Write>)
    requires RunAll(db, ws).Some? && ch != other && forall w | w in ws :: OwnWrite(ch, w)
    ensures forall s: Slot | !s.Vault? && s.owner == other :: RowAt(RunAll(db, ws).value, s) == RowAt(db, s)
    ensures BalanceAt(RunAll(db, ws).value, Wallet(other)) == BalanceAt(db, Wallet(other))
    decreases |ws|
  {
    if ws != [] {
      assert ws[0] in ws && OwnWrite(ch, ws[0]) && (forall w | w in ws[1..] :: w in ws);
      OthersUntouched(RunWrite(db, ws[0]).value, ch, other, ws[1..]);
    }
  }

  /** A commit and its callback keep the issuing character's memory in agreement. */
  lemma CommitAgrees(items: ItemTable, db: Db, ch: int, character: Character, work: Work)
    requires WellBuilt(ch, work) && Rooted(db, ch, work) && Perform(items, db, ch, work).Some?
    requires Agrees(db, ch, character)
    ensures var (after, report) := Perform(items, db, ch, work).value;
            Agrees(after, ch, Remember(ch, character, report))
  {
    var plan := Plan(items, db, ch, work).value.0;
    var (after, report) := Perform(items, db, ch, work).value;
    PlanWritesOwn(items, db, ch, work);
    ReportMirrorsPlan(items, db, ch, work);
    ReportTellsWealth(items, db, ch, character, work);
    EchoesAgree(db, ch, character, plan);
    SlotsOnlySuffice(ch, character, character, report);
    var landed := RunAll(db, plan).value;
    assert SlotsAgree(landed, ch, Remember(ch, character, SlotEffects(plan)).slots);
    assert forall s: Slot :: RowAt(after, s) == RowAt(landed, s);
  }

  /** Nobody else's memory is contradicted by it. */
  lemma CommitSparesOthers(items: ItemTable, db: Db, ch: int, other: int, character: Character, work: Work)
    requires WellBuilt(ch, work) && Rooted(db, ch, work) && Perform(items, db, ch, work).Some?
    requires ch != other && Agrees(db, other, character)
    ensures Agrees(Perform(items, db, ch, work).value.0, other, character)
  {
    var plan := Plan(items, db, ch, work).value.0;
    PlanWritesOwn(items, db, ch, work);
    OthersUntouched(db, ch, other, plan);
    var landed := RunAll(db, plan).value;
    var after := Perform(items, db, ch, work).value.0;
    assert forall s: Slot :: RowAt(after, s) == RowAt(landed, s);
  }

  lemma LoadAgrees(db: Db, ch: int)
    requires RowsWellFormed(db)
    ensures Agrees(db, ch, LoadCharacter(db, ch))
  {
    var slots := LoadCharacter(db, ch).slots;
    forall s: Slot | !s.Vault? && s.owner == ch ensures Columns(s, Lookup(slots, s)) == RowAt(db, s) {
      if s in db.rows {
        RowRoundTrip(s, db.rows[s], None);
      }
    }
  }

  // ---- The pending callbacks of a session ---------------------------------------------------------------

  /** The character after every callback of its session still on its way; None when one of them takes it out of the
      world. */
  function Settled(src: Session, character: Character, done: seq<Callback>): Option<Character>
    decreases |done|
  {
    if done == [] then Some(character)
    else if done[0].Committed? && done[0].src == src then
      if Warps(done[0].work) then None
      else Settled(src, Remember(src.ch, character, done[0].effects), done[1..])
    else Settled(src, character, done[1..])
  }

  lemma {:induction false} SettledAppend(src: Session, character: Character, done: seq<Callback>, cb: Callback)
    ensures Settled(src, character, done + [cb])
         == (var r := Settled(src, character, done);
             if r.None? || !cb.Committed? || cb.src != src then r
             else if Warps(cb.work) then None else Some(Remember(src.ch, r.value, cb.effects)))
    decreases |done|
  {
    if done == [] {
      assert [cb][1..] == [] && [] + [cb] == [cb];
    } else {
      assert (done + [cb])[1..] == done[1..] + [cb];
      if done[0].Committed? && done[0].src == src {
        SettledAppend(src, Remember(src.ch, character, done[0].effects), done[1..], cb);
      } else {
        SettledAppend(src, character, done[1..], cb);
      }
    }
  }

  lemma {:induction false} SettledByOthers(src: Session, character: Character, done: seq<Callback>)
    requires forall cb | cb in done && cb.Committed? :: cb.src != src
    ensures Settled(src, character, done) == Some(character)
    decreases |done|
  {
    if done != [] {
      assert done[0] in done && (forall cb | cb in done[1..] :: cb in done);
      SettledByOthers(src, character, done[1..]);
    }
  }

  ghost predicate PlayerFollows(s: State, p: Player) {
    var settled := Settled(p.session, p.character, s.done);
    settled.Some? ==> Agrees(s.db, p.session.ch, settled.value)
  }

  /** Every player's memory, and every loaded character waiting to join, agrees with the tables. */
  ghost predicate Follows(s: State) {
    (forall c | c in s.players :: PlayerFollows(s, s.players[c]))
    && (forall cb | cb in s.done && cb.Loaded? :: Agrees(s.db, cb.ch, cb.character))
  }

  lemma CommitFollows(items: ItemTable, s: State, src: Session, work: Work)
    requires Sound(s) && Separated(s) && Follows(s) && s.jobs != [] && s.jobs[0] == Task(src, work)
    requires Perform(items, s.db, src.ch, work).Some?
    ensures var (db, report) := Perform(items, s.db, src.ch, work).value;
            Follows(s.(db := db, jobs := s.jobs[1..], done := s.done + [Committed(src, work, report)]))
  {
    var (db, report) := Perform(items, s.db, src.ch, work).value;
    var cb := Committed(src, work, report);
    var next := s.(db := db, jobs := s.jobs[1..], done := s.done + [cb]);
    var q, n := Pipeline(s), |s.done|;
    assert s.jobs[0] in s.jobs && JobRooted(s.db, s.jobs[0]);
    assert q[n] == SessionTag(src) && q[n] in q;
    forall c | c in s.players ensures PlayerFollows(next, s.players[c]) {
      var p := s.players[c];
      assert PlayerFollows(s, p);
      SettledAppend(p.session, p.character, s.done, cb);
      var settled := Settled(p.session, p.character, s.done);
      if settled.Some? {
        if p.session == src {
          CommitAgrees(items, s.db, src.ch, settled.value, work);
        } else {
          assert !Shares(q[n], SessionTag(p.session));
          CommitSparesOthers(items, s.db, src.ch, p.session.ch, settled.value, work);
        }
      }
    }
    forall i | 0 <= i < n && s.done[i].Loaded? ensures Agrees(db, s.done[i].ch, s.done[i].character) {
      assert q[i] == CallbackTag(s.done[i]) && q[i].load && !Shares(q[i], q[n]);
      CommitSparesOthers(items, s.db, src.ch, s.done[i].ch, s.done[i].character, work);
    }
  }

  lemma AnswerFollows(s: State, cb: Callback)
    requires Follows(s) && s.jobs != [] && !cb.Committed? && (cb.Loaded? ==> Agrees(s.db, cb.ch, cb.character))
    ensures Follows(s.(jobs := s.jobs[1..], done := s.done + [cb]))
  {
    var next := s.(jobs := s.jobs[1..], done := s.done + [cb]);
    forall c | c in s.players ensures PlayerFollows(next, s.players[c]) {
      assert PlayerFollows(s, s.players[c]);
      SettledAppend(s.players[c].session, s.players[c].character, s.done, cb);
    }
  }

  lemma JobFollows(items: ItemTable, s: State, mapId: int, throws: bool)
    requires Sound(s) && Separated(s) && Follows(s) && s.jobs != []
    ensures Follows(RunJob(items, s, mapId, throws))
  {
    match s.jobs[0]
    case Load(conn, ch, account) =>
      if throws || Wallet(ch) !in s.db.money {
        forall c | c in s.players ensures PlayerFollows(s.(jobs := s.jobs[1..]), s.players[c]) {
          assert PlayerFollows(s, s.players[c]);
        }
      } else {
        LoadAgrees(s.db, ch);
        AnswerFollows(s, Loaded(conn, ch, account, mapId, LoadCharacter(s.db, ch)));
      }
    case Task(src, work) =>
      if !throws && Perform(items, s.db, src.ch, work).Some? {
        CommitFollows(items, s, src, work);
      } else {
        AnswerFollows(s, Refused(src, work));
      }
  }

  lemma JoinFollows(s: State, p: Player)
    requires Separated(s) && Follows(s) && s.done != [] && s.done[0].Loaded?
    requires p.session.conn == s.done[0].conn && p.session.ch == s.done[0].ch && p.character == s.done[0].character
    ensures PlayerFollows(s.(done := s.done[1..]), p)
  {
    var q := Pipeline(s);
    forall cb | cb in s.done[1..] && cb.Committed? ensures cb.src != p.session {
      var i :| 0 <= i < |s.done[1..]| && s.done[1..][i] == cb;
      assert q[0] == CallbackTag(s.done[0]) && q[i + 1] == CallbackTag(cb) && !Shares(q[0], q[i + 1]);
    }
    SettledByOthers(p.session, p.character, s.done[1..]);
    assert s.done[0] in s.done;
  }

  lemma CallbackFollows(s: State)
    requires Separated(s) && Follows(s) && s.done != []
    ensures Follows(RunCallback(s))
  {
    hide Pipeline, Agrees;
    var next := RunCallback(s);
    CallbackFindsItsSession(s);
    assert forall d | d in next.done :: d in s.done;
    forall c | c in next.players ensures PlayerFollows(next, next.players[c]) {
      if c in s.players {
        StayFollows(s, c);
      } else {
        JoinFollows(s, next.players[c]);
      }
    }
  }

  /** A player already in the world has one callback less to wait for, and has been told what it said. */
  lemma StayFollows(s: State, c: int)
    requires Separated(s) && Follows(s) && s.done != [] && c in s.players && c in RunCallback(s).players
    requires !s.done[0].Loaded? && s.done[0].src.conn == c ==> s.players[c].session == s.done[0].src
    requires s.done[0].Loaded? ==> c != s.done[0].conn
    ensures PlayerFollows(RunCallback(s), RunCallback(s).players[c])
  {
    hide Pipeline, Agrees;
    var p, cb := s.players[c], s.done[0];
    assert PlayerFollows(s, p) && p.session.conn == c;
    if cb.Committed? && cb.src.conn == c {
      EffectsRemember(p, cb.effects);
    }
  }

  lemma MessageFollows(items: ItemTable, s: State, conn: int, req: Request)
    requires Follows(s)
    ensures Follows(Handle(items, s, conn, req))
  {
    var next := Handle(items, s, conn, req);
    forall c | c in next.players ensures PlayerFollows(next, next.players[c]) {
      assert PlayerFollows(s, s.players[c]);
    }
  }

  lemma StepFollows(items: ItemTable, s: State, step: Step)
    requires Sound(s) && Separated(s) && Follows(s)
    ensures Follows(Next(items, s, step))
  {
    var next := Next(items, s, step);
    if step.Message? {
      MessageFollows(items, s, step.conn, step.req);
    } else if step.NextJob? {
      if s.jobs != [] {
        JobFollows(items, s, step.mapId, step.throws);
      }
    } else if step.NextCallback? {
      if s.done != [] {
        CallbackFollows(s);
      }
    } else {
      forall c | c in next.players ensures PlayerFollows(next, next.players[c]) {
        assert PlayerFollows(s, s.players[c]);
      }
    }
  }

  /** In every state of every orderly run, running the callbacks on their way gives each player exactly its rows. */
  lemma {:induction false} RunFollows(items: ItemTable, s: State, steps: seq<Step>)
    requires Sound(s) && Separated(s) && Follows(s) && OrderlyRun(items, s, steps)
    ensures Follows(Run(items, s, steps))
    decreases |steps|
  {
    if steps != [] {
      StepFollows(items, s, steps[0]);
      StepConserves(items, s, steps[0], 0);
      RunFollows(items, Next(items, s, steps[0]), steps[1..]);
    }
  }

  /** A server that has just started: tables in shape, nobody online, nothing queued. */
  predicate Started(s: State) {
    s.jobs == [] && s.done == [] && s.players == map[] && s.ground == map[]
  }

  lemma StartedIsSound(s: State)
    requires Started(s) && RowsWellFormed(s.db) && Solvent(s.db)
    ensures Sound(s) && Separated(s) && Follows(s)
  {
  }

  /** When nothing is on its way, memory simply equals the tables; no balance is negative and no row is misshapen. */
  lemma QuietAgreement(items: ItemTable, s: State, steps: seq<Step>, c: int)
    requires Started(s) && RowsWellFormed(s.db) && Solvent(s.db) && OrderlyRun(items, s, steps)
    requires Run(items, s, steps).done == [] && c in Run(items, s, steps).players
    ensures var end := Run(items, s, steps);
            Agrees(end.db, end.players[c].session.ch, end.players[c].character) && Solvent(end.db)
                && RowsWellFormed(end.db)
  {
    StartedIsSound(s);
    RunConserves(items, s, steps, 0);
    RunFollows(items, s, steps);
    var end := Run(items, s, steps);
    assert PlayerFollows(end, end.players[c]);
  }
}
