/** Memory follows the tables: an online character's wallet, bag and equipment equal its rows once the callbacks still
    on their way have run. */
module CacheAgreement {
  import opened Items
  import opened SlotRows
  import opened Protocol
  import opened Ledger
  import opened Plans

  // ---- Agreement ------------------------------------------------------------------------------------

  /** Cached slots equal the rows up to the columns each table has. */
  ghost predicate SlotsAgree(db: Db, ch: int, slots: map<Slot, Item>) {
    forall slot: Slot :: !slot.Vault? && slot.owner == ch ==> Columns(slot, Lookup(slots, slot)) == RowAt(db, slot)
  }

  ghost predicate Agrees(db: Db, ch: int, character: Character) {
    SlotsAgree(db, ch, character.slots) && character.money == BalanceAt(db, Wallet(ch))
  }

  /** What one effect does to the character alone. */
  function RememberOne(ch: int, character: Character, e: Effect): Character {
    match e
    case Put(slot, item) =>
      if slot.Vault? then character else character.(slots := character.slots[slot.(owner := ch) := item])
    case Remove(slot) =>
      if slot.Vault? then character else character.(slots := character.slots - {slot.(owner := ch)})
    case Wealth(money) => character.(money := money)
    case _ => character
  }

  function Remember(ch: int, character: Character, es: seq<Effect>): Character
    decreases |es|
  {
    if es == [] then character else Remember(ch, RememberOne(ch, character, es[0]), es[1..])
  }

  lemma {:induction false} EffectsRemember(p: Player, es: seq<Effect>)
    ensures ApplyEffects(p, es).character == Remember(p.session.ch, p.character, es)
    ensures ApplyEffects(p, es).session == p.session
    decreases |es|
  {
    if es != [] {
      EffectsRemember(ApplyEffect(p, es[0]), es[1..]);
    }
  }

  // ---- Memory effects are the slot statements -------------------------------------------------------

  function Echo(w: Write): seq<Effect> {
    match w
    case Save(slot, _, item) => [Put(slot, item)]
    case Clear(slot, _) => [Remove(slot)]
    case _ => []
  }

  /** The memory effects the slot statements of a transaction call for, in order. */
  function SlotEffects(ws: seq<Write>): seq<Effect> {
    if ws == [] then [] else Echo(ws[0]) + SlotEffects(ws[1..])
  }

  function SlotOnly(e: Effect): seq<Effect> {
    if e.Put? || e.Remove? then [e] else []
  }

  function SlotsOnly(es: seq<Effect>): seq<Effect> {
    if es == [] then [] else SlotOnly(es[0]) + SlotsOnly(es[1..])
  }

  lemma {:induction false} SlotEffectsConcat(a: seq<Write>, b: seq<Write>)
    ensures SlotEffects(a + b) == SlotEffects(a) + SlotEffects(b)
  {
    if a == [] {
      assert a + b == b;
    } else {
      assert (a + b)[1..] == a[1..] + b;
      SlotEffectsConcat(a[1..], b);
    }
  }

  lemma {:induction false} SlotsOnlyConcat(a: seq<Effect>, b: seq<Effect>)
    ensures SlotsOnly(a + b) == SlotsOnly(a) + SlotsOnly(b)
  {
    if a == [] {
      assert a + b == b;
    } else {
      assert (a + b)[1..] == a[1..] + b;
      SlotsOnlyConcat(a[1..], b);
    }
  }

  lemma {:induction false} LandedMirror(landed: seq<Candidate>)
    ensures SlotsOnly(LandedEffects(landed)) == SlotEffects(LandedWrites(landed))
  {
    if landed != [] {
      LandedMirror(landed[1..]);
    }
  }

  lemma {:induction false} SavesMirror(ws: seq<Write>)
    requires forall w | w in ws :: w.Save? || w.Credit?
    ensures SlotsOnly(SaveEffects(ws)) == SlotEffects(ws)
  {
    if ws != [] {
      assert ws[0] in ws && forall w | w in ws[1..] :: w in ws;
      SavesMirror(ws[1..]);
      if ws[0].Save? {
        assert SaveEffects(ws)[1..] == SaveEffects(ws[1..]);
      } else {
        assert SaveEffects(ws) == SaveEffects(ws[1..]);
      }
    }
  }

  lemma WritesUnrolled(ws: seq<Write>)
    ensures ws == [] ==> SlotEffects(ws) == []
    ensures |ws| == 1 ==> SlotEffects(ws) == Echo(ws[0])
    ensures |ws| == 2 ==> SlotEffects(ws) == Echo(ws[0]) + Echo(ws[1])
    ensures |ws| == 3 ==> SlotEffects(ws) == Echo(ws[0]) + Echo(ws[1]) + Echo(ws[2])
  {
    if 1 <= |ws| <= 3 {
      assert |ws| == 1 ==> ws[1..] == [];
      if 2 <= |ws| {
        assert ws[1..][1..] == ws[2..] && (|ws| == 3 ==> ws[2..][1..] == []);
      }
    }
  }

  lemma EffectsUnrolled(es: seq<Effect>)
    ensures es == [] ==> SlotsOnly(es) == []
    ensures |es| == 1 ==> SlotsOnly(es) == SlotOnly(es[0])
    ensures |es| == 2 ==> SlotsOnly(es) == SlotOnly(es[0]) + SlotOnly(es[1])
    ensures |es| == 3 ==> SlotsOnly(es) == SlotOnly(es[0]) + SlotOnly(es[1]) + SlotOnly(es[2])
  {
    if 1 <= |es| <= 3 {
      assert |es| == 1 ==> es[1..] == [];
      if 2 <= |es| {
        assert es[1..][1..] == es[2..] && (|es| == 3 ==> es[2..][1..] == []);
      }
    }
  }

  lemma StaticReportMirrors(ch: int, work: Work, db: Db)
    ensures SlotsOnly(Effects(ch, work, db)) == SlotEffects(Writes(ch, work))
  {
    WritesUnrolled(Writes(ch, work));
    EffectsUnrolled(Effects(ch, work, db));
    hide SlotsOnly, SlotEffects;
  }

  /** Each handler's callback repeats, in order, exactly the slot writes its transaction made. */
  lemma ReportMirrorsPlan(items: ItemTable, db: Db, ch: int, work: Work)
    requires WellBuilt(ch, work) && Rooted(db, ch, work) && Perform(items, db, ch, work).Some?
    ensures SlotsOnly(Perform(items, db, ch, work).value.1) == SlotEffects(Plan(items, db, ch, work).value.0)
  {
    var plan := Plan(items, db, ch, work).value.0;
    var report := Perform(items, db, ch, work).value.1;
    match work
    case Appraise(candidates, money) =>
      var landed := Land(db, candidates, money, 0);
      LandedMirror(landed);
      SlotEffectsConcat(LandedWrites(landed), [Spend(Wallet(ch), Fees(landed))]);
      assert report[1..] == LandedEffects(landed);
    case TurnIn(snapshot, quest, order) =>
      RewardsLand(items, db, ch, snapshot, order, quest.rewards);
      SavesMirror(plan);
      var pay := report[|SaveEffects(plan)|..];
      SlotsOnlyConcat(SaveEffects(plan), pay);
      EffectsUnrolled(pay);
      assert report == SaveEffects(plan) + pay;
    case OpenBank(_) =>
      EffectsUnrolled(report);
    case _ => StaticReportMirrors(ch, work, Perform(items, db, ch, work).value.0);
  }

  // ---- Consequences for one commit ------------------------------------------------------------------

  lemma WriteAgrees(db: Db, ch: int, slots: map<Slot, Item>, w: Write)
    requires SlotsAgree(db, ch, slots) && RunWrite(db, w).Some?
    requires w.Save? || w.Clear? ==> w.slot.Vault? || w.slot.owner == ch
    ensures w.Save? && !w.slot.Vault? ==> SlotsAgree(RunWrite(db, w).value, ch, slots[w.slot := w.item])
    ensures w.Clear? && !w.slot.Vault? ==> SlotsAgree(RunWrite(db, w).value, ch, slots - {w.slot})
    ensures (!w.Save? && !w.Clear?) || w.slot.Vault? ==> SlotsAgree(RunWrite(db, w).value, ch, slots)
  {
    var next := RunWrite(db, w).value;
    if w.Save? || w.Clear? {
      assert forall s: Slot | s != w.slot :: RowAt(next, s) == RowAt(db, s);
    } else {
      assert forall s: Slot :: RowAt(next, s) == RowAt(db, s);
    }
  }

  /** Remembering the echoes of a transaction's statements keeps the slots in agreement. */
  lemma {:induction false} EchoesAgree(db: Db, ch: int, character: Character, ws: seq<Write>)
    requires SlotsAgree(db, ch, character.slots) && RunAll(db, ws).Some?
    requires forall w | w in ws && (w.Save? || w.Clear?) :: w.slot.Vault? || w.slot.owner == ch
    ensures SlotsAgree(RunAll(db, ws).value, ch, Remember(ch, character, SlotEffects(ws)).slots)
    decreases |ws|
  {
    if ws != [] {
      assert ws[0] in ws && forall w | w in ws[1..] :: w in ws;
      WriteAgrees(db, ch, character.slots, ws[0]);
      var echo := Echo(ws[0]);
      var told := if echo == [] then character else RememberOne(ch, character, echo[0]);
      assert SlotsAgree(RunWrite(db, ws[0]).value, ch, told.slots);
      EchoesAgree(RunWrite(db, ws[0]).value, ch, told, ws[1..]);
      if echo == [] {
        assert SlotEffects(ws) == SlotEffects(ws[1..]);
      } else {
        assert SlotEffects(ws)[1..] == SlotEffects(ws[1..]);
      }
    }
  }

  lemma {:induction false} SlotsOnlySuffice(ch: int, a: Character, b: Character, es: seq<Effect>)
    requires a.slots == b.slots
    ensures Remember(ch, a, es).slots == Remember(ch, b, SlotsOnly(es)).slots
    decreases |es|
  {
    if es != [] {
      var head := SlotOnly(es[0]);
      var told := if head == [] then b else RememberOne(ch, b, head[0]);
      SlotsOnlySuffice(ch, RememberOne(ch, a, es[0]), told, es[1..]);
      if head == [] {
        assert SlotsOnly(es) == SlotsOnly(es[1..]);
      } else {
        assert SlotsOnly(es)[1..] == SlotsOnly(es[1..]);
      }
    }
  }

  // ---- Money ------------------------------------------------------------------------------------------

  lemma {:induction false} WealthTold(ch: int, character: Character, es: seq<Effect>, money: int)
    requires forall e | e in es && e.Wealth? :: e.money == money
    requires character.money == money || exists e :: e in es && e.Wealth?
    ensures Remember(ch, character, es).money == money
    decreases |es|
  {
    if es != [] {
      var told := RememberOne(ch, character, es[0]);
      assert es[0] in es && (forall e | e in es[1..] :: e in es);
      if told.money != money {
        var e :| e in es && e.Wealth?;
        assert e in es[1..];
      }
      WealthTold(ch, told, es[1..], money);
    }
  }

  lemma {:induction false} WalletUntouched(db: Db, account: Account, ws: seq<Write>)
    requires RunAll(db, ws).Some? && forall w | w in ws && (w.Spend? || w.Credit?) :: w.account != account
    ensures BalanceAt(RunAll(db, ws).value, account) == BalanceAt(db, account)
    decreases |ws|
  {
    if ws != [] {
      assert ws[0] in ws && (forall w | w in ws[1..] :: w in ws);
      WalletUntouched(RunWrite(db, ws[0]).value, account, ws[1..]);
    }
  }

  lemma StaticWealth(ch: int, work: Work, db: Db)
    ensures forall e | e in Effects(ch, work, db) && e.Wealth? :: e.money == BalanceAt(db, Wallet(ch))
    ensures (exists e :: e in Effects(ch, work, db) && e.Wealth?)
            || forall w | w in Writes(ch, work) && (w.Spend? || w.Credit?) :: w.account != Wallet(ch)
  {
    var es := Effects(ch, work, db);
    if work.Sell? {
      assert es[1] in es;
    } else if |es| > 0 {
      assert es[0] in es;
    }
  }

  /** The wallet a callback reports is the committed one, and a job that reports none did not touch it. */
  lemma ReportTellsWealth(items: ItemTable, db: Db, ch: int, character: Character, work: Work)
    requires WellBuilt(ch, work) && Rooted(db, ch, work) && Perform(items, db, ch, work).Some?
    requires character.money == BalanceAt(db, Wallet(ch))
    ensures var (after, report) := Perform(items, db, ch, work).value;
            Remember(ch, character, report).money == BalanceAt(after, Wallet(ch))
  {
    var plan := Plan(items, db, ch, work).value.0;
    var (after, report) := Perform(items, db, ch, work).value;
    match work {
      case Appraise(candidates, money) =>
        LandedWritesAre(Land(db, candidates, money, 0));
        assert report[0] in report;
      case TurnIn(snapshot, quest, order) =>
        RewardsLand(items, db, ch, snapshot, order, quest.rewards);
        SaveEffectsAre(plan);
        if quest.cegel != 0 {
          assert report[|report| - 1] in report && report[|report| - 1].Wealth?;
        } else {
          WalletUntouched(db, Wallet(ch), plan);
        }
      case OpenBank(_) =>
      case _ =>
        StaticWealth(ch, work, after);
        if forall w | w in plan && (w.Spend? || w.Credit?) :: w.account != Wallet(ch) {
          WalletUntouched(db, Wallet(ch), plan);
        }
    }
    WealthTold(ch, character, report, BalanceAt(after, Wallet(ch)));
  }
}
