/** Why entering must be orderly: two runs in which a second character is entered while a first one's work is on its
    way, over the same connection. */
module Disorder {
  import opened Wrappers
  import opened Items
  import opened Sums
  import opened SlotRows
  import opened Protocol
  import opened Ledger
  import opened Sessions
  import opened Requests
  import opened Accounting
  import opened Conservation
  import opened CacheAgreement
  import opened CacheRuns

  lemma {:induction false} RunConcat(items: ItemTable, s: State, a: seq<Step>, b: seq<Step>)
    ensures Run(items, s, a + b) == Run(items, Run(items, s, a), b)
    decreases |a|
  {
    if a == [] {
      assert a + b == b;
    } else {
      assert (a + b)[1..] == a[1..] + b;
      RunConcat(items, Next(items, s, a[0]), a[1..], b);
    }
  }

  lemma TwoSteps(s: State, a: Step, b: Step)
    ensures Run(map[], s, [a, b]) == Next(map[], Next(map[], s, a), b)
  {
    var next := Next(map[], s, a);
    assert [a, b][1..] == [b] && [b][1..] == [];
    assert Run(map[], next, [b]) == Run(map[], Next(map[], next, b), []);
  }

  // ---- Memory that contradicts its rows ------------------------------------------------------------------------

  // A run: two characters are entered over one connection; the first asks to delete its item and leaves.

  const SWORD := Item(7, 1, 0, false, 0, 0)
  const SHIELD := Item(8, 1, 0, false, 0, 0)
  const TWO_BAGS := Db(map[Bag(1, 0) := Columns(Bag(1, 0), Some(SWORD)), Bag(2, 0) := Columns(Bag(2, 0), Some(SHIELD))],
                       map[Wallet(1) := 0, Wallet(2) := 0], {})
  const BEFORE := State(TWO_BAGS, [], [], map[], map[], {9}, 1)
  const FIRST := Session(9, 1, 1)
  const ERASE := Delete(Bag(1, 0), SWORD)

  function BothLoaded(): State {
    BEFORE.(done := [Loaded(9, 1, 1, 5, LoadCharacter(TWO_BAGS, 1)), Loaded(9, 2, 1, 5, LoadCharacter(TWO_BAGS, 2))])
  }

  function SecondJoined(): State {
    BEFORE.(jobs := [Task(FIRST, ERASE)], nextId := 3,
            players := map[9 := Player(Session(9, 2, 2), 1, 5, LoadCharacter(TWO_BAGS, 2), None)])
  }

  lemma LoadingBoth()
    ensures Run(map[], Run(map[], BEFORE, [Enter(9, 1, 1), Enter(9, 2, 1)]), [NextJob(5, false), NextJob(5, false)])
            == BothLoaded()
  {
    TwoSteps(BEFORE, Enter(9, 1, 1), Enter(9, 2, 1));
    var s := Next(map[], Next(map[], BEFORE, Enter(9, 1, 1)), Enter(9, 2, 1));
    TwoSteps(s, NextJob(5, false), NextJob(5, false));
    assert s.jobs == [Load(9, 1, 1), Load(9, 2, 1)];
    assert Next(map[], s, NextJob(5, false)).jobs == [Load(9, 2, 1)];
  }

  lemma JoiningBoth()
    ensures Run(map[], Run(map[], BothLoaded(), [NextCallback, Message(9, DeleteItem(13))]),
                [Exit(9, false), NextCallback]) == SecondJoined()
  {
    var s := BothLoaded();
    TwoSteps(s, NextCallback, Message(9, DeleteItem(13)));
    var joined := Next(map[], s, NextCallback);
    assert joined.players == map[9 := Player(FIRST, 1, 5, LoadCharacter(TWO_BAGS, 1), None)];
    var asked := Next(map[], joined, Message(9, DeleteItem(13)));
    assert asked.jobs == [Task(FIRST, ERASE)];
    TwoSteps(asked, Exit(9, false), NextCallback);
    assert Next(map[], asked, Exit(9, false)).players == map[];
  }

  lemma ErasingTheWrongCache()
    ensures var end := Run(map[], SecondJoined(), [NextJob(5, false), NextCallback]);
            end.done == [] && end.jobs == [] && 9 in end.players && end.players[9].session.ch == 2
            && !Agrees(end.db, 2, end.players[9].character)
  {
    var s := SecondJoined();
    TwoSteps(s, NextJob(5, false), NextCallback);
    var ran := Next(map[], s, NextJob(5, false));
    assert Writes(1, ERASE)[1..] == [];
    assert ran.done == [Committed(FIRST, ERASE, [Remove(Bag(1, 0))])];
    var end := Next(map[], ran, NextCallback);
    var es := [Remove(Bag(1, 0))];
    assert es[1..] == [];
    assert end.players[9] == ApplyEffect(s.players[9], es[0]);
    assert Lookup(end.players[9].character.slots, Bag(2, 0)).None?;
    assert RowAt(end.db, Bag(2, 0)) == Columns(Bag(2, 0), Some(SHIELD));
  }

  const ENTERS := [Enter(9, 1, 1), Enter(9, 2, 1)]
  const LOADS := [NextJob(5, false), NextJob(5, false)]
  const ASKING := [NextCallback, Message(9, DeleteItem(13))]
  const CHANGING := [Exit(9, false), NextCallback]
  const ERASING := [NextJob(5, false), NextCallback]

  lemma MixedRun()
    ensures Run(map[], BEFORE, ENTERS + (LOADS + (ASKING + (CHANGING + ERASING))))
            == Run(map[], SecondJoined(), ERASING)
  {
    RunConcat(map[], BEFORE, ENTERS, LOADS + (ASKING + (CHANGING + ERASING)));
    RunConcat(map[], Run(map[], BEFORE, ENTERS), LOADS, ASKING + (CHANGING + ERASING));
    LoadingBoth();
    RunConcat(map[], BothLoaded(), ASKING, CHANGING + ERASING);
    RunConcat(map[], Run(map[], BothLoaded(), ASKING), CHANGING, ERASING);
    JoiningBoth();
  }

  /** With two loads in flight on one connection the first character's deletion reaches the second one's memory. */
  lemma UnorderlyEnterConfusesMemory()
    ensures Started(BEFORE) && RowsWellFormed(BEFORE.db) && Solvent(BEFORE.db)
    ensures !OrderlyRun(map[], BEFORE, ENTERS)
    ensures var end := Run(map[], BEFORE, ENTERS + (LOADS + (ASKING + (CHANGING + ERASING))));
            end.done == [] && end.jobs == [] && 9 in end.players
            && !Agrees(end.db, end.players[9].session.ch, end.players[9].character)
  {
    MixedRun();
    ErasingTheWrongCache();
    var entered := Next(map[], BEFORE, ENTERS[0]);
    assert Pipeline(entered)[0] == Tag(true, 9, 0, 1) && Pipeline(entered)[0] in Pipeline(entered);
    assert !Orderly(entered, ENTERS[1..][0]);
  }

  // ---- Units out of nothing ------------------------------------------------------------------------------------

  // A run: character 1 asks to move its stack and leaves while character 2 is loading over the same connection. The
  // move's completion puts the stack into the memory of character 2, in a slot that has no row, and a drop from it is
  // inserted.

  const STACK := Item(7, 5, 0, false, 0, 0)
  const LEFT := Item(7, 4, 0, false, 0, 0)
  const ONE := Item(7, 1, 0, false, 0, 0)
  const OWNED := Db(map[Bag(1, 0) := Columns(Bag(1, 0), Some(STACK))], map[Wallet(1) := 0, Wallet(2) := 0], {})
  const ALONE := State(OWNED, [], [], map[], map[], {9}, 1)
  const OWNER := Session(9, 1, 1)
  const HEIR := Session(9, 2, 2)
  const MOVE := Move(Bag(1, 0), Bag(1, 5), Some(STACK), None)
  const DROP := PutDown(5, Bag(2, 5), STACK, Some(LEFT), ONE)
  const MOVED := OWNED.(rows := map[Bag(1, 0) := EMPTY_ROW, Bag(1, 5) := Columns(Bag(1, 5), Some(STACK))])

  const ENTERING := [Enter(9, 1, 1), NextJob(5, false)]
  const OVERLAPPING := [NextCallback, Enter(9, 2, 1)]
  const MOVING := [Message(9, MoveItem(13, 18)), Exit(9, false)]
  const SETTLING := [NextJob(5, false), NextCallback]
  const DROPPING := [Message(9, DropItem(18, 1)), NextJob(5, false)]

  function Loading(): State {
    ALONE.(done := [Loaded(9, 1, 1, 5, Character(map[Bag(1, 0) := STACK], 0))])
  }

  function Overlapped(): State {
    ALONE.(jobs := [Load(9, 2, 1)], nextId := 2,
           players := map[9 := Player(OWNER, 1, 5, Character(map[Bag(1, 0) := STACK], 0), None)])
  }

  function Asked(): State {
    ALONE.(jobs := [Load(9, 2, 1), Task(OWNER, MOVE)], nextId := 2)
  }

  function Inherited(): State {
    ALONE.(jobs := [Task(OWNER, MOVE)], nextId := 3, players := map[9 := Player(HEIR, 1, 5, Character(map[], 0), None)])
  }

  function Mistaken(): State {
    Inherited().(db := MOVED, jobs := [],
                 players := map[9 := Player(HEIR, 1, 5, Character(map[Bag(2, 5) := STACK], 0), None)])
  }

  function Doubled(): State {
    Mistaken().(db := MOVED.(rows := MOVED.rows[Bag(2, 5) := Columns(Bag(2, 5), Some(LEFT))]),
                done := [Committed(HEIR, DROP, [Put(Bag(2, 5), LEFT)])])
  }

  /** Where a pair of steps leads and what it does to the units of item 7. */
  predicate Pair(s: State, steps: seq<Step>, next: State, conjured: nat) {
    Run(map[], s, steps) == next && RunFlow(map[], s, steps, 7) == 0 && RunConjured(map[], s, steps, 7) == conjured
  }

  lemma TwoFlows(s: State, a: Step, b: Step, id: uint32)
    ensures var next := Next(map[], s, a);
            Run(map[], s, [a, b]) == Next(map[], next, b)
            && RunFlow(map[], s, [a, b], id) == StepFlow(map[], s, a, id) + StepFlow(map[], next, b, id)
            && RunConjured(map[], s, [a, b], id) == StepConjured(map[], s, a, id) + StepConjured(map[], next, b, id)
  {
    hide Next, StepFlow, StepConjured;
    var next := Next(map[], s, a);
    TwoSteps(s, a, b);
    assert [a, b][1..] == [b] && [b][1..] == [];
    assert RunFlow(map[], next, [b], id) == StepFlow(map[], next, b, id) + RunFlow(map[], Next(map[], next, b), [], id);
    assert RunConjured(map[], next, [b], id)
        == StepConjured(map[], next, b, id) + RunConjured(map[], Next(map[], next, b), [], id);
  }

  lemma {:induction false} FlowsConcat(items: ItemTable, s: State, a: seq<Step>, b: seq<Step>, id: uint32)
    ensures RunFlow(items, s, a + b, id) == RunFlow(items, s, a, id) + RunFlow(items, Run(items, s, a), b, id)
    ensures RunConjured(items, s, a + b, id)
         == RunConjured(items, s, a, id) + RunConjured(items, Run(items, s, a), b, id)
    decreases |a|
  {
    hide Next, StepFlow, StepConjured;
    if a == [] {
      assert a + b == b;
    } else {
      assert (a + b)[1..] == a[1..] + b;
      FlowsConcat(items, Next(items, s, a[0]), a[1..], b, id);
    }
  }

  lemma PairThen(s: State, steps: seq<Step>, next: State, more: seq<Step>, end: State, conjured: nat)
    requires Pair(s, steps, next, 0) && Pair(next, more, end, conjured)
    ensures Pair(s, steps + more, end, conjured)
  {
    RunConcat(map[], s, steps, more);
    FlowsConcat(map[], s, steps, more, 7);
  }

  lemma EnteringPair()
    ensures Pair(ALONE, ENTERING, Loading(), 0)
  {
    TwoFlows(ALONE, ENTERING[0], ENTERING[1], 7);
    assert LoadCharacter(OWNED, 1) == Character(map[Bag(1, 0) := STACK], 0);
  }

  lemma OverlappingPair()
    ensures Pair(Loading(), OVERLAPPING, Overlapped(), 0)
  {
    TwoFlows(Loading(), OVERLAPPING[0], OVERLAPPING[1], 7);
  }

  lemma MovingPair()
    ensures Pair(Overlapped(), MOVING, Asked(), 0)
  {
    TwoFlows(Overlapped(), MOVING[0], MOVING[1], 7);
    var asked := Next(map[], Overlapped(), MOVING[0]);
    assert asked.jobs == [Load(9, 2, 1), Task(OWNER, MOVE)];
    assert Next(map[], asked, MOVING[1]).players == map[];
  }

  lemma JoiningPair()
    ensures Pair(Asked(), SETTLING, Inherited(), 0)
  {
    TwoFlows(Asked(), SETTLING[0], SETTLING[1], 7);
    assert LoadCharacter(OWNED, 2) == Character(map[], 0);
  }

  lemma MovePlan()
    ensures RunAll(OWNED, Writes(1, MOVE)) == Some(MOVED) && UnitsFlow(Writes(1, MOVE), 7) == 0
    ensures AllConjured(OWNED, Writes(1, MOVE), 7) == 0
  {
    var ws := Writes(1, MOVE);
    TwoWrites(OWNED, ws);
    assert ws[1..] == [ws[1]] && ws[1..][1..] == [];
    var saved := RunWrite(OWNED, ws[0]).value;
    assert RunWrite(saved, ws[1]).value.rows == MOVED.rows;
    assert UnitsFlow(ws[1..], 7) == WriteUnits(ws[1], 7);
    assert AllConjured(saved, ws[1..], 7) == 0;
  }

  lemma MoveReachesTheHeir()
    ensures ApplyEffects(Inherited().players[9], Effects(1, MOVE, MOVED)) == Mistaken().players[9]
  {
    var p, es := Inherited().players[9], Effects(1, MOVE, MOVED);
    TwoEffects(p, es);
    assert ApplyEffects(p, es).character.slots == map[Bag(2, 5) := STACK];
  }

  lemma OwnersMoveCommits()
    ensures Next(map[], Inherited(), SETTLING[0])
         == Inherited().(db := MOVED, jobs := [], done := [Committed(OWNER, MOVE, Effects(1, MOVE, MOVED))])
    ensures StepFlow(map[], Inherited(), SETTLING[0], 7) == 0 && StepConjured(map[], Inherited(), SETTLING[0], 7) == 0
  {
    hide ApplyEffects, Effects, Writes;
    MovePlan();
  }

  lemma MovedPair()
    ensures Pair(Inherited(), SETTLING, Mistaken(), 0)
  {
    hide ApplyEffects, Effects, Perform;
    TwoFlows(Inherited(), SETTLING[0], SETTLING[1], 7);
    OwnersMoveCommits();
    MoveReachesTheHeir();
  }

  lemma DropPlan()
    ensures RunAll(MOVED, Writes(2, DROP)) == Some(Doubled().db)
    ensures UnitsFlow(Writes(2, DROP), 7) == -1 && AllConjured(MOVED, Writes(2, DROP), 7) == 5
  {
    var ws := Writes(2, DROP);
    assert ws == [Save(Bag(2, 5), Some(STACK), LEFT)] && ws[1..] == [];
    OneWrite(MOVED, ws);
  }

  lemma DroppingPair()
    ensures Pair(Mistaken(), DROPPING, Doubled(), 5)
  {
    hide Writes;
    TwoFlows(Mistaken(), DROPPING[0], DROPPING[1], 7);
    var asked := Next(map[], Mistaken(), DROPPING[0]);
    assert asked.jobs == [Task(HEIR, DROP)];
    DropPlan();
  }

  lemma BareGround(ground: map<Spot, Item>, id: uint32)
    ensures ground == map[] ==> GroundUnits(ground, id) == 0
  {
    var units := map spot | spot in ground :: Units(ground[spot], id);
    assert ground == map[] ==> units == map[];
  }

  lemma OwnedUnits()
    ensures WorldUnits(ALONE, 7) == 5
  {
    var units := map s | s in OWNED.rows :: RowUnits(OWNED.rows[s], 7);
    assert units == map[Bag(1, 0) := 5];
    TotalSplit(units, Bag(1, 0));
    assert units - {Bag(1, 0)} == map[];
    BareGround(ALONE.ground, 7);
  }

  const DOUBLING := ENTERING + (OVERLAPPING + (MOVING + (SETTLING + (SETTLING + DROPPING))))

  /** Five units become ten: four and five in two bags' rows and one about to be dropped, although no trade, reward or
      expiry took place and no committed job says so. */
  lemma UnorderlyEnterDoublesUnits()
    ensures Started(ALONE) && RowsWellFormed(ALONE.db) && Solvent(ALONE.db)
    ensures var end := Run(map[], ALONE, DOUBLING);
            end == Doubled() && WorldUnits(ALONE, 7) == 5 && WorldUnits(end, 7) == 10
            && RunFlow(map[], ALONE, DOUBLING, 7) == 0 && RunConjured(map[], ALONE, DOUBLING, 7) == 5
    ensures !BackedRun(map[], ALONE, DOUBLING) && !OrderlyRun(map[], ALONE, DOUBLING)
  {
    hide Run, RunFlow, RunConjured, BackedRun, OrderlyRun, WorldUnits, Next;
    DoublingRuns();
    OwnedUnits();
    StartedIsSound(ALONE);
    RunAccounts(map[], ALONE, DOUBLING, 7);
    NothingConjuredIffBacked(map[], ALONE, DOUBLING);
    if OrderlyRun(map[], ALONE, DOUBLING) {
      OrderlyRunsAreBacked(map[], ALONE, DOUBLING);
    }
  }

  lemma DoublingRuns()
    ensures Pair(ALONE, DOUBLING, Doubled(), 5)
  {
    hide Pair, ENTERING, OVERLAPPING, MOVING, SETTLING, DROPPING;
    EnteringPair();
    OverlappingPair();
    MovingPair();
    JoiningPair();
    MovedPair();
    DroppingPair();
    var dropped := SETTLING + DROPPING;
    PairThen(Inherited(), SETTLING, Mistaken(), DROPPING, Doubled(), 5);
    PairThen(Asked(), SETTLING, Inherited(), dropped, Doubled(), 5);
    PairThen(Overlapped(), MOVING, Asked(), SETTLING + dropped, Doubled(), 5);
    PairThen(Loading(), OVERLAPPING, Overlapped(), MOVING + (SETTLING + dropped), Doubled(), 5);
    PairThen(ALONE, ENTERING, Loading(), OVERLAPPING + (MOVING + (SETTLING + dropped)), Doubled(), 5);
  }
}
