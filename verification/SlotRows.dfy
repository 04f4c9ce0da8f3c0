/** Item rows, balances and claimed quest flags: the tables, their guarded statements and transactions. */
module SlotRows {
  import opened Wrappers
  import opened Items
  import opened Sums

  /** A row key: the three item tables, each with its owner and its slot number. */
  datatype Slot = Equip(owner: int, index: uint32) | Bag(owner: int, index: uint32) | Vault(owner: int, index: uint32)

  /** SQL NULL is None; item level and option bits are NOT NULL columns that are 0 when the slot is empty. */
  datatype Row = Row(itemId: Option<uint32>, quantity: Option<uint32>, refine: Option<uint32>, level: int, bits: nat)

  const EMPTY_ROW := Row(None, None, None, 0, 0)

  datatype Account = Wallet(owner: int) | Safe(owner: int)

  datatype Db = Db(rows: map<Slot, Row>, money: map<Account, int>, flags: set<(int, int)>)

  /** One guarded or relative statement of a transaction. */
  datatype Write =
    | Save(slot: Slot, expected: Option<Item>, item: Item)
    | Clear(slot: Slot, expected: Option<Item>)
    | Spend(account: Account, amount: int)
    | Credit(account: Account, amount: int)

  /** The columns bound for `content`, both as the new value and as the guard's expected value.
      Equipment rows have no quantity column, bank rows no level column. */
  function Columns(slot: Slot, content: Option<Item>): Row {
    if content.None? then EMPTY_ROW
    else
      var item := content.value;
      Row(Some(item.id),
          if slot.Equip? || item.equippable then None else Some(item.quantity),
          if item.equippable then Some(item.refine) else None,
          if slot.Vault? then 0 else item.level,
          item.bits)
  }

  /** What a load makes of a row. */
  function Decode(row: Row): Option<Item> {
    if row.itemId.None? then None
    else Some(Item(row.itemId.value,
                   if row.quantity.Some? then row.quantity.value else 0,
                   if row.refine.Some? then row.refine.value else 0,
                   row.refine.Some?, row.level, row.bits))
  }

  /** A row some statement could have written. */
  predicate WellFormed(slot: Slot, row: Row) {
    (row.itemId.None? ==> row == EMPTY_ROW)
    && (slot.Equip? ==> row.quantity.None?)
    && (slot.Vault? ==> row.level == 0)
    && (row.itemId.Some? && !slot.Equip? ==> row.quantity.Some? != row.refine.Some?)
  }

  /** Decoding a well-formed row and binding it again gives the row back, and every bound row is well-formed. */
  lemma RowRoundTrip(slot: Slot, row: Row, content: Option<Item>)
    ensures WellFormed(slot, Columns(slot, content))
    ensures WellFormed(slot, row) <==> Columns(slot, Decode(row)) == row
  {
  }

  function RowUnits(row: Row, id: uint32): nat {
    if row.itemId != Some(id) then 0
    else if row.refine.Some? then 1
    else if row.quantity.Some? then row.quantity.value else 0
  }

  /** A bag or bank row holds exactly the item's units; an equipment row holds none of a stack's. */
  lemma ColumnsUnits(slot: Slot, content: Option<Item>, id: uint32)
    ensures RowUnits(Columns(slot, content), id)
         == if slot.Equip? && content.Some? && !content.value.equippable then 0 else UnitsOf(content, id)
  {
  }

  /** The content a slot really has: a missing row counts as empty. */
  function RowAt(db: Db, slot: Slot): Row {
    if slot in db.rows then db.rows[slot] else EMPTY_ROW
  }

  function BalanceAt(db: Db, account: Account): int {
    if account in db.money then db.money[account] else 0
  }

  /** One statement; None means it matched no row, so the transaction gives up. */
  function RunWrite(db: Db, w: Write): Option<Db> {
    match w
    case Save(slot, expected, item) =>
      // INSERT ... ON CONFLICT DO UPDATE ... WHERE: the guard is only looked at when the row exists.
      if slot !in db.rows || db.rows[slot] == Columns(slot, expected)
      then Some(db.(rows := db.rows[slot := Columns(slot, Some(item))])) else None
    case Clear(slot, expected) =>
      if slot in db.rows && db.rows[slot] == Columns(slot, expected)
      then Some(db.(rows := db.rows[slot := EMPTY_ROW])) else None
    case Spend(account, amount) =>
      if account in db.money && amount <= db.money[account]
      then Some(db.(money := db.money[account := db.money[account] - amount])) else None
    case Credit(account, amount) =>
      // No row to read the new balance from: the statement throws, which also rolls back.
      if account in db.money
      then Some(db.(money := db.money[account := db.money[account] + amount])) else None
  }

  /** A transaction: all statements land in order, or none does. */
  function RunAll(db: Db, ws: seq<Write>): Option<Db>
    decreases |ws|
  {
    if ws == [] then Some(db)
    else
      var next := RunWrite(db, ws[0]);
      if next.None? then None else RunAll(next.value, ws[1..])
  }

  lemma {:induction false} RunAllConcat(db: Db, ws: seq<Write>, more: seq<Write>)
    ensures RunAll(db, ws + more) == (var r := RunAll(db, ws); if r.None? then None else RunAll(r.value, more))
    decreases |ws|
  {
    if ws == [] {
      assert ws + more == more;
    } else {
      assert (ws + more)[1..] == ws[1..] + more;
      var next := RunWrite(db, ws[0]);
      if next.Some? {
        RunAllConcat(next.value, ws[1..], more);
      }
    }
  }

  lemma TwoWrites(db: Db, ws: seq<Write>)
    requires |ws| == 2
    ensures RunAll(db, ws) == (var r := RunWrite(db, ws[0]); if r.None? then None else RunWrite(r.value, ws[1]))
  {
    assert ws[1..][1..] == [];
    var r := RunWrite(db, ws[0]);
    if r.Some? {
      OneWrite(r.value, ws[1..]);
    }
  }

  lemma OneWrite(db: Db, ws: seq<Write>)
    requires |ws| == 1
    ensures RunAll(db, ws) == RunWrite(db, ws[0])
  {
    assert ws[1..] == [];
  }

  // ---- Compare-and-swap -------------------------------------------------------------------

  /** Abstract compare-and-swap on the slot's real content. */
  function Swap(db: Db, slot: Slot, expected: Option<Item>, content: Option<Item>): Option<Db> {
    if RowAt(db, slot) == Columns(slot, expected)
    then Some(db.(rows := db.rows[slot := Columns(slot, content)])) else None
  }

  /** Where the belief "this slot holds something" came from a row that is still there. */
  predicate Grounded(db: Db, slot: Slot, expected: Option<Item>) {
    expected.Some? ==> slot in db.rows
  }

  /** The guarded upsert is an exact compare-and-swap if and only if the expected content does not name
      something in a slot that never had a row. */
  lemma SaveIsCompareAndSwap(db: Db, slot: Slot, expected: Option<Item>, item: Item)
    ensures RunWrite(db, Save(slot, expected, item)) == Swap(db, slot, expected, Some(item))
            <==> Grounded(db, slot, expected)
  {
  }

  /** The guarded clear is one as long as a row exists or something is expected there. */
  lemma ClearIsCompareAndSwap(db: Db, slot: Slot, expected: Option<Item>)
    ensures RunWrite(db, Clear(slot, expected)) == Swap(db, slot, expected, None) <==> slot in db.rows || expected.Some?
  {
  }

  // ---- What a committed transaction does to totals ------------------------------------------

  ghost function DbUnits(db: Db, id: uint32): int {
    Total(map s | s in db.rows :: RowUnits(db.rows[s], id))
  }

  ghost function DbMoney(db: Db): int {
    Total(db.money)
  }

  function WriteUnits(w: Write, id: uint32): int {
    match w
    case Save(slot, expected, item) => RowUnits(Columns(slot, Some(item)), id) - RowUnits(Columns(slot, expected), id)
    case Clear(slot, expected) => 0 - RowUnits(Columns(slot, expected), id)
    case _ => 0
  }

  function WriteMoney(w: Write): int {
    match w
    case Spend(_, amount) => -amount
    case Credit(_, amount) => amount
    case _ => 0
  }

  function UnitsFlow(ws: seq<Write>, id: uint32): int {
    if ws == [] then 0 else WriteUnits(ws[0], id) + UnitsFlow(ws[1..], id)
  }

  function MoneyFlow(ws: seq<Write>): int {
    if ws == [] then 0 else WriteMoney(ws[0]) + MoneyFlow(ws[1..])
  }

  predicate GroundedWrite(db: Db, w: Write) {
    w.Save? || w.Clear? ==> Grounded(db, w.slot, w.expected)
  }

  /** Every statement's belief is grounded in the tables it runs against. */
  predicate AllGrounded(db: Db, ws: seq<Write>)
    decreases |ws|
  {
    ws == [] || (GroundedWrite(db, ws[0])
                 && (RunWrite(db, ws[0]).Some? ==> AllGrounded(RunWrite(db, ws[0]).value, ws[1..])))
  }

  lemma {:induction false} GroundedBefore(db: Db, now: Db, ws: seq<Write>)
    requires forall w | w in ws :: GroundedWrite(db, w)
    requires db.rows.Keys <= now.rows.Keys
    ensures AllGrounded(now, ws)
    decreases |ws|
  {
    if ws != [] && GroundedWrite(db, ws[0]) && RunWrite(now, ws[0]).Some? {
      GroundedBefore(db, RunWrite(now, ws[0]).value, ws[1..]);
    }
  }

  lemma {:induction false} GroundedConcat(db: Db, ws: seq<Write>, more: seq<Write>)
    requires AllGrounded(db, ws)
    requires RunAll(db, ws).Some? ==> AllGrounded(RunAll(db, ws).value, more)
    ensures AllGrounded(db, ws + more)
    decreases |ws|
  {
    if ws == [] {
      assert ws + more == more;
    } else {
      assert (ws + more)[1..] == ws[1..] + more;
      if RunWrite(db, ws[0]).Some? {
        GroundedConcat(RunWrite(db, ws[0]).value, ws[1..], more);
      }
    }
  }

  lemma {:induction false} FlowConcat(ws: seq<Write>, more: seq<Write>, id: uint32)
    ensures UnitsFlow(ws + more, id) == UnitsFlow(ws, id) + UnitsFlow(more, id)
    ensures MoneyFlow(ws + more) == MoneyFlow(ws) + MoneyFlow(more)
  {
    if ws == [] {
      assert ws + more == more;
    } else {
      assert (ws + more)[1..] == ws[1..] + more;
      FlowConcat(ws[1..], more, id);
    }
  }

  /** No statement deletes a row, an account or a flag. */
  lemma {:induction false} RowsStay(db: Db, ws: seq<Write>)
    requires RunAll(db, ws).Some?
    ensures db.rows.Keys <= RunAll(db, ws).value.rows.Keys
    ensures db.money.Keys == RunAll(db, ws).value.money.Keys
    ensures db.flags == RunAll(db, ws).value.flags
    decreases |ws|
  {
    if ws != [] {
      RowsStay(RunWrite(db, ws[0]).value, ws[1..]);
    }
  }

  lemma {:induction false} SavesKeepMoney(db: Db, ws: seq<Write>)
    requires RunAll(db, ws).Some? && forall w | w in ws :: w.Save?
    ensures RunAll(db, ws).value.money == db.money
    decreases |ws|
  {
    if ws != [] {
      assert ws[0] in ws && (forall w | w in ws[1..] :: w in ws);
      SavesKeepMoney(RunWrite(db, ws[0]).value, ws[1..]);
    }
  }

  /** What the upsert's insert branch makes out of nothing: the units it takes for granted in a slot that never had
      a row. */
  function Conjured(db: Db, w: Write, id: uint32): nat {
    if w.Save? && w.slot !in db.rows then RowUnits(Columns(w.slot, w.expected), id) else 0
  }

  function AllConjured(db: Db, ws: seq<Write>, id: uint32): nat
    decreases |ws|
  {
    if ws == [] then 0
    else
      var next := RunWrite(db, ws[0]);
      Conjured(db, ws[0], id) + if next.None? then 0 else AllConjured(next.value, ws[1..], id)
  }

  lemma WriteTotals(db: Db, w: Write, id: uint32)
    requires RunWrite(db, w).Some?
    ensures DbUnits(RunWrite(db, w).value, id) == DbUnits(db, id) + WriteUnits(w, id) + Conjured(db, w, id)
    ensures DbMoney(RunWrite(db, w).value) == DbMoney(db) + WriteMoney(w)
  {
    var next := RunWrite(db, w).value;
    var units := map s | s in db.rows :: RowUnits(db.rows[s], id);
    match w
    case Save(slot, expected, item) =>
      TotalUpdate(units, slot, RowUnits(next.rows[slot], id));
      assert (map s | s in next.rows :: RowUnits(next.rows[s], id)) == units[slot := RowUnits(next.rows[slot], id)];
    case Clear(slot, expected) =>
      TotalUpdate(units, slot, RowUnits(next.rows[slot], id));
      assert (map s | s in next.rows :: RowUnits(next.rows[s], id)) == units[slot := RowUnits(next.rows[slot], id)];
    case Spend(account, amount) =>
      TotalUpdate(db.money, account, next.money[account]);
    case Credit(account, amount) =>
      TotalUpdate(db.money, account, next.money[account]);
  }

  /** A commit moves all money by exactly what its statements say, and the units of every item by that and what they
      conjure, whatever else is in the tables. */
  lemma {:induction false} CommitTotals(db: Db, ws: seq<Write>, id: uint32)
    requires RunAll(db, ws).Some?
    ensures DbUnits(RunAll(db, ws).value, id) == DbUnits(db, id) + UnitsFlow(ws, id) + AllConjured(db, ws, id)
    ensures DbMoney(RunAll(db, ws).value) == DbMoney(db) + MoneyFlow(ws)
    decreases |ws|
  {
    if ws != [] {
      WriteTotals(db, ws[0], id);
      CommitTotals(RunWrite(db, ws[0]).value, ws[1..], id);
    }
  }

  /** The guard of the insert branch that the statement does not check: the slot has a row, or nothing that counts is
      expected in it. */
  predicate Backed(db: Db, w: Write) {
    w.Save? && w.slot !in db.rows && w.expected.Some?
    ==> !w.expected.value.equippable && (w.slot.Equip? || w.expected.value.quantity == 0)
  }

  predicate AllBacked(db: Db, ws: seq<Write>)
    decreases |ws|
  {
    ws == [] || (Backed(db, ws[0]) && (RunWrite(db, ws[0]).Some? ==> AllBacked(RunWrite(db, ws[0]).value, ws[1..])))
  }

  /** The item a statement conjures when it is not backed. */
  function Taken(w: Write): uint32 {
    if w.Save? && w.expected.Some? then w.expected.value.id else 0
  }

  lemma ConjuresIffUnbacked(db: Db, w: Write)
    ensures Backed(db, w) ==> forall id: uint32 :: Conjured(db, w, id) == 0
    ensures !Backed(db, w) ==> Conjured(db, w, Taken(w)) > 0
  {
  }

  /** Statements conjure nothing of any item if and only if all of them are backed. */
  lemma {:induction false} ConjuresNothingIffBacked(db: Db, ws: seq<Write>)
    ensures AllBacked(db, ws) ==> forall id: uint32 :: AllConjured(db, ws, id) == 0
    ensures !AllBacked(db, ws) ==> exists id: uint32 :: AllConjured(db, ws, id) > 0
    decreases |ws|
  {
    hide Conjured, Backed, RunWrite, Taken;
    if ws != [] {
      ConjuresIffUnbacked(db, ws[0]);
      var next := RunWrite(db, ws[0]);
      if !Backed(db, ws[0]) {
        assert AllConjured(db, ws, Taken(ws[0])) > 0;
      } else if next.Some? {
        ConjuresNothingIffBacked(next.value, ws[1..]);
        if !AllBacked(next.value, ws[1..]) {
          var id: uint32 :| AllConjured(next.value, ws[1..], id) > 0;
          assert AllConjured(db, ws, id) > 0;
        }
      }
    }
  }

  lemma {:induction false} GroundedIsBacked(db: Db, ws: seq<Write>)
    requires AllGrounded(db, ws)
    ensures AllBacked(db, ws)
    decreases |ws|
  {
    if ws != [] && RunWrite(db, ws[0]).Some? {
      GroundedIsBacked(RunWrite(db, ws[0]).value, ws[1..]);
    }
  }

  ghost predicate Solvent(db: Db) {
    forall a | a in db.money :: 0 <= db.money[a]
  }

  ghost predicate RowsWellFormed(db: Db) {
    forall s | s in db.rows :: WellFormed(s, db.rows[s])
  }

  /** No row loses its shape, and no balance is driven below zero by credits that are not negative, whatever is
      interleaved. */
  lemma {:induction false} CommitKeepsTables(db: Db, ws: seq<Write>)
    requires RunAll(db, ws).Some?
    ensures RowsWellFormed(db) ==> RowsWellFormed(RunAll(db, ws).value)
    ensures Solvent(db) && (forall w | w in ws && w.Credit? :: 0 <= w.amount) ==> Solvent(RunAll(db, ws).value)
    decreases |ws|
  {
    if ws != [] {
      assert ws[0] in ws && (forall w | w in ws[1..] :: w in ws);
      CommitKeepsTables(RunWrite(db, ws[0]).value, ws[1..]);
    }
  }
}
