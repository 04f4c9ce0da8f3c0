/** Experience: what a level-up check consumes, what a kill grants, and how the saved row follows memory. */
module LevelUp {
  import opened Items

  const MAX_INT64 := 0x7FFF_FFFF_FFFF_FFFF

  datatype LevelRecord = LevelRecord(exp: int, statPoints: int, sp: int)

  type LevelTable = map<int, LevelRecord>

  /** A character's progress; the two point totals are thirty-two bits wide and wrap around. */
  datatype Progress = Progress(level: int, exp: int, statPoints: uint32, sp: uint32)

  /** The rows still ahead, which every level gained leaves one behind. */
  function Ahead(table: LevelTable, level: int): set<int> {
    set l | l in table && l >= level
  }

  lemma OneRowFewer(table: LevelTable, level: int)
    requires level in table
    ensures |Ahead(table, level + 1)| < |Ahead(table, level)|
  {
    assert Ahead(table, level) == Ahead(table, level + 1) + {level};
  }

  predicate CanRise(table: LevelTable, p: Progress) {
    p.level in table && p.exp > table[p.level].exp
  }

  function Risen(table: LevelTable, p: Progress): Progress
    requires p.level in table
  {
    var row := table[p.level];
    Progress(p.level + 1, p.exp - row.exp, (p.statPoints + row.statPoints) % WRAP, (p.sp + row.sp) % WRAP)
  }

  /** Levels are crossed while the experience exceeds the next threshold. */
  function Checked(table: LevelTable, p: Progress): (q: Progress)
    ensures !CanRise(table, q) && p.level <= q.level
    decreases |Ahead(table, p.level)|
  {
    if CanRise(table, p) then
      OneRowFewer(table, p.level);
      Checked(table, Risen(table, p))
    else p
  }

  /** The thresholds from one level up to another. */
  function Thresholds(table: LevelTable, low: int, high: int): int
    requires forall l | low <= l < high :: l in table
    decreases high - low
  {
    if low >= high then 0 else table[low].exp + Thresholds(table, low + 1, high)
  }

  /** Experience before a check is experience after it plus the thresholds crossed. */
  lemma {:induction false} CheckConservesExp(table: LevelTable, p: Progress)
    ensures var q := Checked(table, p);
            (forall l | p.level <= l < q.level :: l in table)
            && p.exp == q.exp + Thresholds(table, p.level, q.level)
    decreases |Ahead(table, p.level)|
  {
    if CanRise(table, p) {
      OneRowFewer(table, p.level);
      CheckConservesExp(table, Risen(table, p));
    }
  }

  /** What the rows from one level up to another award in one of the two columns. */
  function Awards(table: LevelTable, low: int, high: int, ofStats: bool): int
    requires forall l | low <= l < high :: l in table
    decreases high - low
  {
    if low >= high then 0
    else (if ofStats then table[low].statPoints else table[low].sp) + Awards(table, low + 1, high, ofStats)
  }

  /** A check crosses exactly the levels whose threshold the experience left exceeds, and awards the points of those
      levels. */
  lemma {:induction false} CheckCrossesExactly(table: LevelTable, p: Progress)
    ensures var q := Checked(table, p);
            (forall l | p.level <= l < q.level :: l in table)
            && (forall l | p.level <= l < q.level :: p.exp - Thresholds(table, p.level, l) > table[l].exp)
            && (q.level in table ==> p.exp - Thresholds(table, p.level, q.level) <= table[q.level].exp)
            && q.statPoints == (p.statPoints + Awards(table, p.level, q.level, true)) % WRAP
            && q.sp == (p.sp + Awards(table, p.level, q.level, false)) % WRAP
    decreases |Ahead(table, p.level)|
  {
    CheckConservesExp(table, p);
    if CanRise(table, p) {
      OneRowFewer(table, p.level);
      var next := Risen(table, p);
      CheckCrossesExactly(table, next);
      var q := Checked(table, next);
      WrapsOnce(p.statPoints + table[p.level].statPoints, Awards(table, next.level, q.level, true));
      WrapsOnce(p.sp + table[p.level].sp, Awards(table, next.level, q.level, false));
    }
  }

  /** Checking, adding experience and checking again is adding it first and checking once. */
  lemma {:induction false} CheckTwiceIsCheckOnce(table: LevelTable, p: Progress, more: nat)
    ensures var q := Checked(table, p);
            Checked(table, q.(exp := q.exp + more)) == Checked(table, p.(exp := p.exp + more))
    decreases |Ahead(table, p.level)|
  {
    if CanRise(table, p) {
      OneRowFewer(table, p.level);
      CheckTwiceIsCheckOnce(table, Risen(table, p), more);
    }
  }

  // ---- Gaining -----------------------------------------------------------------------------------------------

  function Max0(n: int): nat {
    if n < 0 then 0 else n
  }

  /** A reward is granted up to the largest sixty-four bit number; negative experience and rewards count as none. */
  function Gained(exp: int, reward: int): (after: int)
    ensures exp <= MAX_INT64 ==> exp <= after <= MAX_INT64
  {
    var current := Max0(exp);
    current + if Max0(reward) <= MAX_INT64 - current then Max0(reward) else MAX_INT64 - current
  }

  function GainedBy(p: Progress, reward: int): Progress {
    p.(exp := Gained(p.exp, reward))
  }

  /** A check before the reward makes the difference that the two saturated rewards make, and no other. */
  lemma OrdersAgreeIffGainsDo(table: LevelTable, p: Progress, reward: int)
    requires p.exp <= MAX_INT64 && Checked(table, p).exp <= MAX_INT64
    ensures var q := Checked(table, p);
            Checked(table, GainedBy(q, reward)) == Checked(table, GainedBy(p, reward))
            <==> Gained(q.exp, reward) - q.exp == Gained(p.exp, reward) - p.exp
  {
    var q := Checked(table, p);
    var late, early := Gained(q.exp, reward) - q.exp, Gained(p.exp, reward) - p.exp;
    hide Gained, Checked;
    CheckTwiceIsCheckOnce(table, p, late);
    assert GainedBy(q, reward) == q.(exp := q.exp + late) && GainedBy(p, reward) == p.(exp := p.exp + early);
    ChecksTellExpApart(table, p, late, early);
  }

  lemma ChecksTellExpApart(table: LevelTable, p: Progress, a: int, b: int)
    ensures Checked(table, p.(exp := p.exp + a)) == Checked(table, p.(exp := p.exp + b)) <==> a == b
  {
    CheckConservesExp(table, p.(exp := p.exp + a));
    CheckConservesExp(table, p.(exp := p.exp + b));
    hide Checked, Thresholds;
  }

  /** What a check takes off the experience: the thresholds it crosses, summed by walking up the table. */
  function Toll(table: LevelTable, level: int, exp: int): int
    decreases |Ahead(table, level)|
  {
    if level in table && exp > table[level].exp then
      OneRowFewer(table, level);
      table[level].exp + Toll(table, level + 1, exp - table[level].exp)
    else 0
  }

  lemma {:induction false} CheckTakesTheToll(table: LevelTable, p: Progress)
    ensures Checked(table, p).exp == p.exp - Toll(table, p.level, p.exp)
    ensures Toll(table, p.level, p.exp) != 0 ==> Checked(table, p).exp > 0
    decreases |Ahead(table, p.level)|
  {
    if CanRise(table, p) {
      OneRowFewer(table, p.level);
      CheckTakesTheToll(table, Risen(table, p));
    }
  }

  /** On any table, negative thresholds included: the order of a check and a reward makes no difference if and only if
      the check leaves the experience as it is, or it was not negative and the reward fits both before and after it. */
  lemma LevelUpIsConfluentIff(table: LevelTable, p: Progress, reward: int)
    requires p.exp <= MAX_INT64 && p.exp - Toll(table, p.level, p.exp) <= MAX_INT64
    ensures var toll := Toll(table, p.level, p.exp);
            Checked(table, GainedBy(Checked(table, p), reward)) == Checked(table, GainedBy(p, reward))
            <==> toll == 0 || (0 <= p.exp && p.exp + Max0(reward) <= MAX_INT64
                               && p.exp - toll + Max0(reward) <= MAX_INT64)
  {
    CheckTakesTheToll(table, p);
    OrdersAgreeIffGainsDo(table, p, reward);
    hide Checked, Toll;
  }

  predicate NoNegativeThreshold(table: LevelTable) {
    forall l | l in table :: table[l].exp >= 0
  }

  /** The first threshold ahead that costs anything is exceeded; free levels are crossed on the way to it. */
  predicate MustPay(table: LevelTable, level: int, exp: int)
    decreases |Ahead(table, level)|
  {
    level in table && exp > table[level].exp
    && (table[level].exp > 0 || (OneRowFewer(table, level); MustPay(table, level + 1, exp)))
  }

  /** Without negative thresholds: if and only if the check has something to pay and the reward, granted first, would be
      cut off at the largest number. */
  lemma LevelUpIsConfluentIffItFits(table: LevelTable, p: Progress, reward: int)
    requires p.exp <= MAX_INT64 && NoNegativeThreshold(table)
    ensures Checked(table, GainedBy(Checked(table, p), reward)) == Checked(table, GainedBy(p, reward))
            <==> !MustPay(table, p.level, p.exp) || p.exp + Max0(reward) <= MAX_INT64
  {
    CheckLowersIffItPays(table, p);
    CheckTakesTheToll(table, p);
    LevelUpIsConfluentIff(table, p, reward);
    hide Checked, MustPay, Toll;
  }

  lemma {:induction false} CheckLowersIffItPays(table: LevelTable, p: Progress)
    requires NoNegativeThreshold(table)
    ensures Max0(p.exp) >= Checked(table, p).exp && (p.exp < 0 ==> Checked(table, p) == p)
            && (0 <= p.exp ==> 0 <= Checked(table, p).exp)
    ensures Checked(table, p).exp < p.exp <==> MustPay(table, p.level, p.exp)
    decreases |Ahead(table, p.level)|
  {
    if CanRise(table, p) {
      OneRowFewer(table, p.level);
      CheckLowersIffItPays(table, Risen(table, p));
    }
  }

  /** One point short of the largest number, a check for 100 leaves room for a reward of 50; the reward first is cut
      to one. */
  lemma SaturatedRewardDependsOnOrder()
    ensures var table := map[1 := LevelRecord(100, 0, 0)];
            var p := Progress(1, MAX_INT64 - 1, 0, 0);
            Checked(table, GainedBy(Checked(table, p), 50)).exp == MAX_INT64 - 51
            && Checked(table, GainedBy(p, 50)).exp == MAX_INT64 - 100
  {
    var table := map[1 := LevelRecord(100, 0, 0)];
    var p := Progress(1, MAX_INT64 - 1, 0, 0);
    assert Checked(table, p) == Risen(table, p);
    assert Checked(table, GainedBy(p, 50)) == Risen(table, GainedBy(p, 50));
  }

  // ---- The character, the queue and the row -----------------------------------------------------------------

  /** What the handlers queue: a relative credit for a kill, an absolute save after a level-up. */
  datatype ExpJob = AddExp(amount: int) | SaveLevel(level: int, exp: int)

  datatype Row = Row(level: int, exp: int)

  function Saved(row: Row, job: ExpJob): Row {
    match job
    case AddExp(amount) => row.(exp := row.exp + amount)
    case SaveLevel(level, exp) => Row(level, exp)
  }

  function AllSaved(row: Row, jobs: seq<ExpJob>): Row {
    if jobs == [] then row else Saved(AllSaved(row, jobs[..|jobs| - 1]), jobs[|jobs| - 1])
  }

  lemma {:induction false} FirstJobFirst(row: Row, jobs: seq<ExpJob>)
    requires jobs != []
    ensures AllSaved(row, jobs) == AllSaved(Saved(row, jobs[0]), jobs[1..])
    decreases |jobs|
  {
    if |jobs| > 1 {
      FirstJobFirst(row, jobs[..|jobs| - 1]);
      assert jobs[..|jobs| - 1][1..] == jobs[1..][..|jobs| - 2];
    }
  }

  class Account {
    const table: LevelTable
    var memory: Progress
    var row: Row
    var queue: seq<ExpJob>

    /** The queued jobs will bring the row to what memory holds. */
    predicate Valid()
      reads this
    {
      AllSaved(row, queue) == Row(memory.level, memory.exp)
    }

    constructor (table: LevelTable, loaded: Progress)
      ensures Valid() && this.table == table && memory == loaded && queue == []
    {
      this.table, memory, row, queue := table, loaded, Row(loaded.level, loaded.exp), [];
    }

    method Append(job: ExpJob)
      modifies this`queue
      ensures queue == old(queue) + [job] && AllSaved(row, queue) == Saved(AllSaved(row, old(queue)), job)
    {
      queue := queue + [job];
      assert queue[..|queue| - 1] == old(queue);
    }

    /** A kill's reward goes to memory at once and to the row later, as the amount granted; that loses a negative
        experience, which memory counts as none. */
    method GainExperience(reward: int)
      requires Valid() && memory.exp <= MAX_INT64
      modifies this`memory, this`queue
      ensures memory == GainedBy(old(memory), reward) && old(memory).exp <= memory.exp <= MAX_INT64
      ensures Valid() <==> 0 <= old(memory).exp
    {
      var current := Max0(memory.exp);
      var available := MAX_INT64 - current;
      var granted := if Max0(reward) <= available then Max0(reward) else available;
      memory := memory.(exp := current + granted);
      if granted > 0 {
        Append(AddExp(granted));
      }
    }

    /** The check as a loop, on any table: points are added up first and cast once. */
    method HandleLevelUpCheck() returns (leveledUp: bool)
      requires Valid()
      modifies this`memory, this`queue
      ensures Valid() && memory == Checked(table, old(memory)) && leveledUp == (memory.level > old(memory).level)
      ensures queue == old(queue) + if leveledUp then [SaveLevel(memory.level, memory.exp)] else []
    {
      var level, exp, statPointsGained, spGained := memory.level, memory.exp, 0, 0;
      leveledUp := false;
      while level in table && exp > table[level].exp
        invariant memory == old(memory) && queue == old(queue)
        invariant leveledUp == (level > memory.level) && level >= memory.level
        invariant leveledUp || (exp == memory.exp && statPointsGained == spGained == 0)
        invariant Checked(table, Progress(level, exp, (memory.statPoints + statPointsGained) % WRAP,
                                          (memory.sp + spGained) % WRAP))
               == Checked(table, memory)
        decreases |Ahead(table, level)|
      {
        var record := table[level];
        OneRowFewer(table, level);
        WrapsOnce(memory.statPoints + statPointsGained, record.statPoints);
        WrapsOnce(memory.sp + spGained, record.sp);
        exp := exp - record.exp;
        level := level + 1;
        statPointsGained := statPointsGained + record.statPoints;
        spGained := spGained + record.sp;
        leveledUp := true;
      }
      if !leveledUp {
        return;
      }
      memory := Progress(level, exp, (memory.statPoints + statPointsGained) % WRAP, (memory.sp + spGained) % WRAP);
      Append(SaveLevel(level, exp));
    }

    /** Jobs run first in, first out; once none is left the row is what memory holds. */
    method RunNextJob()
      requires Valid() && queue != []
      modifies this`row, this`queue
      ensures Valid() && queue == old(queue[1..]) && (queue == [] ==> row == Row(memory.level, memory.exp))
    {
      FirstJobFirst(row, queue);
      row := Saved(row, queue[0]);
      queue := queue[1..];
    }
  }

  /** Adding the points up first and casting once wraps as adding them one level at a time does. */
  lemma WrapsOnce(total: int, points: int)
    ensures (total % WRAP + points) % WRAP == (total + points) % WRAP
  {
  }
}
