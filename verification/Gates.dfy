/** Gates under duplicated, pipelined requests: one-time quests, appraisals and banks. */
module Gates {
  import opened Wrappers
  import opened Items
  import opened SlotRows
  import opened Protocol
  import opened Ledger
  import opened Plans
  import opened Accounting

  // ---- One-time quests ----------------------------------------------------------------------------------

  predicate CommitsQuest(items: ItemTable, s: State, step: Step, ch: int, flag: int) {
    Commits(items, s, step) && s.jobs[0].src.ch == ch && s.jobs[0].work.TurnIn? && s.jobs[0].work.quest.flag == flag
  }

  function QuestCommits(items: ItemTable, s: State, steps: seq<Step>, ch: int, flag: int): nat
    decreases |steps|
  {
    if steps == [] then 0
    else (if CommitsQuest(items, s, steps[0], ch, flag) then 1 else 0)
         + QuestCommits(items, Next(items, s, steps[0]), steps[1..], ch, flag)
  }

  function Claimed(s: State, ch: int, flag: int): nat {
    if (ch, flag) in s.db.flags then 1 else 0
  }

  lemma StepClaims(items: ItemTable, s: State, step: Step, ch: int, flag: int)
    requires flag != 0
    ensures Claimed(Next(items, s, step), ch, flag)
         == Claimed(s, ch, flag) + if CommitsQuest(items, s, step, ch, flag) then 1 else 0
  {
    if Commits(items, s, step) {
      var Task(src, work) := s.jobs[0];
      RowsStay(s.db, Plan(items, s.db, src.ch, work).value.0);
    }
  }

  /** Over every run whatsoever, a flagged quest's consequences commit once if the flag got claimed in it, else
      never. */
  lemma {:induction false} QuestCommitsOnce(items: ItemTable, s: State, steps: seq<Step>, ch: int, flag: int)
    requires flag != 0
    ensures QuestCommits(items, s, steps, ch, flag) + Claimed(s, ch, flag)
            == Claimed(Run(items, s, steps), ch, flag) <= 1
    decreases |steps|
  {
    if steps != [] {
      StepClaims(items, s, steps[0], ch, flag);
      QuestCommitsOnce(items, Next(items, s, steps[0]), steps[1..], ch, flag);
    }
  }

  // ---- Appraisals -----------------------------------------------------------------------------------------

  /** A slot whose item is already appraised takes no roll. */
  lemma {:induction false} AppraisedSlotsAreSkipped(db: Db, candidates: seq<Candidate>, money: int, fee: nat,
                                                    slot: Slot)
    requires slot in db.rows && db.rows[slot].bits != NEVER_APPRAISED
    requires forall c | c in candidates :: c.original.bits == NEVER_APPRAISED
    ensures forall c | c in Land(db, candidates, money, fee) :: c.slot != slot
    decreases |candidates|
  {
    if candidates != [] {
      var c := candidates[0];
      assert c in candidates && (forall d | d in candidates[1..] :: d in candidates);
      var next := RunWrite(db, Save(c.slot, Some(c.original), c.appraised));
      if fee + c.fee > money || next.None? {
        AppraisedSlotsAreSkipped(db, candidates[1..], money, fee, slot);
      } else {
        AppraisedSlotsAreSkipped(next.value, candidates[1..], money, fee + c.fee, slot);
      }
    }
  }

  ghost predicate SlotsDistinct(landed: seq<Candidate>) {
    forall i, j | 0 <= i < j < |landed| :: landed[i].slot != landed[j].slot
  }

  ghost predicate CandidatesSound(db: Db, candidates: seq<Candidate>) {
    forall c | c in candidates :: c.slot in db.rows && c.original.bits == NEVER_APPRAISED && c.appraised.bits < WRAP
  }

  /** Even if listed twice, a slot lands at most once, and only where the row still is the never-appraised original. */
  lemma {:induction false} AppraisalLandsOnce(db: Db, candidates: seq<Candidate>, money: int, fee: nat)
    requires CandidatesSound(db, candidates)
    ensures var landed := Land(db, candidates, money, fee);
            SlotsDistinct(landed)
            && (forall c | c in landed :: c in candidates && RowAt(db, c.slot) == Columns(c.slot, Some(c.original)))
    decreases |candidates|
  {
    if candidates != [] {
      var c := candidates[0];
      assert c in candidates && (forall d | d in candidates[1..] :: d in candidates);
      var next := RunWrite(db, Save(c.slot, Some(c.original), c.appraised));
      if fee + c.fee > money || next.None? {
        AppraisalLandsOnce(db, candidates[1..], money, fee);
      } else {
        AppraisedSlotsAreSkipped(next.value, candidates[1..], money, fee + c.fee, c.slot);
        AppraisalLandsOnce(next.value, candidates[1..], money, fee + c.fee);
        assert forall s | s != c.slot :: RowAt(next.value, s) == RowAt(db, s);
      }
    }
  }

  /** Every landed reroll is in its row once the transaction has run. */
  lemma {:induction false} LandedRerollsStand(db: Db, landed: seq<Candidate>)
    requires RunAll(db, LandedWrites(landed)).Some? && SlotsDistinct(landed)
    ensures forall c | c in landed ::
              RowAt(RunAll(db, LandedWrites(landed)).value, c.slot) == Columns(c.slot, Some(c.appraised))
    decreases |landed|
  {
    if landed != [] {
      var next := RunWrite(db, LandedWrites(landed)[0]).value;
      LandedRerollsStand(next, landed[1..]);
      LandedWritesAre(landed[1..]);
      assert forall c | c in landed[1..] :: c.slot != landed[0].slot;
      SlotKept(next, LandedWrites(landed[1..]), landed[0].slot);
    }
  }

  lemma {:induction false} SlotKept(db: Db, ws: seq<Write>, slot: Slot)
    requires RunAll(db, ws).Some? && slot in db.rows && forall w | w in ws :: w.Save? && w.slot != slot
    ensures slot in RunAll(db, ws).value.rows && RunAll(db, ws).value.rows[slot] == db.rows[slot]
    decreases |ws|
  {
    if ws != [] {
      assert ws[0] in ws && (forall w | w in ws[1..] :: w in ws);
      SlotKept(RunWrite(db, ws[0]).value, ws[1..], slot);
    }
  }

  /** An appraisal that commits lands at least one reroll and debits exactly the landed fees, within the wallet it
      saw. */
  lemma AppraisalIsPaid(items: ItemTable, db: Db, ch: int, candidates: seq<Candidate>, money: int)
    requires Perform(items, db, ch, Appraise(candidates, money)).Some?
    ensures var landed := Land(db, candidates, money, 0);
            var after := Perform(items, db, ch, Appraise(candidates, money)).value.0;
            landed != [] && Fees(landed) <= money && Wallet(ch) in db.money && Fees(landed) <= db.money[Wallet(ch)]
            && after.money == db.money[Wallet(ch) := db.money[Wallet(ch)] - Fees(landed)]
            && RunAll(db, LandedWrites(landed)) == Some(after.(money := db.money))
  {
    hide Land, Fees, RunAll, LandedWrites, LandedEffects;
    var landed := Land(db, candidates, money, 0);
    LandRuns(db, candidates, money, 0);
    LandedWritesAre(landed);
    SavesThenSpend(db, LandedWrites(landed), Wallet(ch), Fees(landed));
  }

  lemma SavesThenSpend(db: Db, ws: seq<Write>, account: Account, fee: nat)
    requires RunAll(db, ws).Some? && (forall w | w in ws :: w.Save?) && RunAll(db, ws + [Spend(account, fee)]).Some?
    ensures var after := RunAll(db, ws + [Spend(account, fee)]).value;
            account in db.money && fee <= db.money[account]
            && after.money == db.money[account := db.money[account] - fee]
            && RunAll(db, ws) == Some(after.(money := db.money))
  {
    hide RunAll;
    var spend := Spend(account, fee);
    var saved := RunAll(db, ws).value;
    RunAllConcat(db, ws, [spend]);
    OneWrite(saved, [spend]);
    SavesKeepMoney(db, ws);
  }

  // ---- Banks ------------------------------------------------------------------------------------------------

  /** The withdrawal that empties a bank slot closes the bank for good, until something is deposited there again. */
  lemma EmptyingWithdrawalLocksBank(items: ItemTable, db: Db, ch: int, work: Work)
    requires work.Withdraw? && WellBuilt(ch, work) && work.remaining.None? && Perform(items, db, ch, work).Some?
    ensures Perform(items, Perform(items, db, ch, work).value.0, ch, OpenBank(work.vault.owner)).None?
  {
    var ws := Writes(ch, work);
    var after := Perform(items, db, ch, work).value.0;
    var saved := RunWrite(db, ws[0]).value;
    assert RunAll(saved, ws[1..]) == Some(after);
    var cleared := RunWrite(saved, ws[1..][0]).value;
    assert RunAll(cleared, ws[1..][1..]) == Some(after);
    assert ws[1..][1..] == [ws[2]] && RunAll(cleared, [ws[2]]) == RunWrite(cleared, ws[2]);
    assert work.vault in after.rows && after.rows[work.vault] == EMPTY_ROW;
  }
}
