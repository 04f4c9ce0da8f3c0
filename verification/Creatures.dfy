/** A monster's life: damage, death, the respawn clock, and the attack that drives it. */
module Creatures {
  import opened Wrappers
  import opened LevelUp

  datatype Template = Template(hp: int, defense: int, expReward: int, respawnTime: int)

  datatype DamageResult = DamageResult(damage: nat, targetHp: nat, expReward: nat, killed: bool)

  /** What the creature publishes. */
  datatype LifeEvent = Killed(killer: nat, expReward: nat) | Respawned

  /** The part of a creature its life cycle changes; the clock runs in milliseconds while it is dead. */
  datatype Life = Life(hp: int, respawnIn: Option<int>)

  predicate Alive(l: Life) {
    l.hp > 0
  }

  /** A spawn point and a positive respawn time; without them a death is terminal. */
  predicate Returns(t: Template, hasSpawn: bool) {
    hasSpawn && t.respawnTime > 0
  }

  function Least(a: int, b: int): int {
    if a < b then a else b
  }

  /** One hit: nothing on the dead; otherwise at most the remaining hp, and the death when it takes all of them. */
  function Hit(t: Template, hasSpawn: bool, l: Life, requested: nat): (Life, Option<DamageResult>) {
    if !Alive(l) then (l, None)
    else
      var applied := Least(requested, l.hp);
      if applied == l.hp then
        (Life(0, if Returns(t, hasSpawn) then Some(1000 * t.respawnTime) else l.respawnIn),
         Some(DamageResult(applied, 0, Max0(t.expReward), true)))
      else (l.(hp := l.hp - applied), Some(DamageResult(applied, l.hp - applied, 0, false)))
  }

  /** One tick of the clock; true when the monster came back. */
  function Ticked(t: Template, hasSpawn: bool, l: Life, delta: nat): (Life, bool) {
    if Alive(l) || !hasSpawn || l.respawnIn.None? then (l, false)
    else if l.respawnIn.value > delta then (l.(respawnIn := Some(l.respawnIn.value - delta)), false)
    else (Life(t.hp, None), true)
  }

  // ---- Lives over a run ---------------------------------------------------------------------------------------

  function Born(t: Template): Life {
    Life(t.hp, None)
  }

  datatype Act = Strike(requested: nat) | Pass(delta: nat)

  datatype Tally = Tally(damage: nat, kills: nat, rewards: nat, comebacks: nat)

  function Acted(t: Template, hasSpawn: bool, l: Life, act: Act): Life {
    match act
    case Strike(requested) => Hit(t, hasSpawn, l, requested).0
    case Pass(delta) => Ticked(t, hasSpawn, l, delta).0
  }

  function Counted(t: Template, hasSpawn: bool, l: Life, act: Act, n: Tally): Tally {
    match act
    case Strike(requested) => (
      match Hit(t, hasSpawn, l, requested).1
      case None => n
      case Some(r) => Tally(n.damage + r.damage, n.kills + (if r.killed then 1 else 0), n.rewards + r.expReward,
                            n.comebacks))
    case Pass(delta) => if Ticked(t, hasSpawn, l, delta).1 then n.(comebacks := n.comebacks + 1) else n
  }

  function After(t: Template, hasSpawn: bool, l: Life, acts: seq<Act>): Life {
    if acts == [] then l else Acted(t, hasSpawn, After(t, hasSpawn, l, acts[..|acts| - 1]), acts[|acts| - 1])
  }

  function Totals(t: Template, hasSpawn: bool, l: Life, acts: seq<Act>): Tally {
    if acts == [] then Tally(0, 0, 0, 0)
    else
      var before := acts[..|acts| - 1];
      Counted(t, hasSpawn, After(t, hasSpawn, l, before), acts[|acts| - 1], Totals(t, hasSpawn, l, before))
  }

  /** The kills, rewards and returns among published events. */
  function Published(events: seq<LifeEvent>): Tally {
    if events == [] then Tally(0, 0, 0, 0)
    else
      var n := Published(events[..|events| - 1]);
      match events[|events| - 1]
      case Killed(_, reward) => n.(kills := n.kills + 1, rewards := n.rewards + reward)
      case Respawned => n.(comebacks := n.comebacks + 1)
  }

  lemma OneActMore(t: Template, hasSpawn: bool, acts: seq<Act>, act: Act)
    ensures var l := After(t, hasSpawn, Born(t), acts);
            After(t, hasSpawn, Born(t), acts + [act]) == Acted(t, hasSpawn, l, act)
            && Totals(t, hasSpawn, Born(t), acts + [act])
               == Counted(t, hasSpawn, l, act, Totals(t, hasSpawn, Born(t), acts))
  {
    assert (acts + [act])[..|acts|] == acts;
  }

  lemma OneEventMore(events: seq<LifeEvent>, e: LifeEvent)
    ensures var n := Published(events);
            Published(events + [e])
            == match e case Killed(_, reward) => n.(kills := n.kills + 1, rewards := n.rewards + reward)
                       case Respawned => n.(comebacks := n.comebacks + 1)
  {
    assert (events + [e])[..|events|] == events;
  }

  // ---- The creature -------------------------------------------------------------------------------------------

  class Creature {
    const template: Template
    const hasSpawn: bool
    var hp: int
    var respawnIn: Option<int>
    var events: seq<LifeEvent>
    var x: nat
    var y: nat
    /** All hits and ticks so far. */
    ghost var acts: seq<Act>

    function Now(): Life
      reads this`hp, this`respawnIn
    {
      Life(hp, respawnIn)
    }

    /** The creature is what its hits and ticks make of a new one, and has published exactly their kills, rewards
        and returns. */
    ghost predicate Valid()
      reads this
    {
      Now() == After(template, hasSpawn, Born(template), acts)
      && Published(events) == Totals(template, hasSpawn, Born(template), acts).(damage := 0)
    }

    constructor (template: Template, hasSpawn: bool, x: nat, y: nat)
      ensures Valid() && this.template == template && this.hasSpawn == hasSpawn && acts == [] && events == []
    {
      this.template, this.hasSpawn, this.x, this.y := template, hasSpawn, x, y;
      hp, respawnIn, events, acts := template.hp, None, [], [];
    }

    /** Publishes exactly one kill, and only when the last hp go. */
    method TakeDamage(requested: nat, killer: nat) returns (r: Option<DamageResult>)
      requires Valid()
      modifies this`hp, this`respawnIn, this`events, this`acts
      ensures Valid() && acts == old(acts) + [Strike(requested)]
      ensures (Now(), r) == Hit(template, hasSpawn, old(Now()), requested)
      ensures events == old(events) + if r.Some? && r.value.killed then [Killed(killer, r.value.expReward)] else []
    {
      hide After, Totals, Published;
      OneActMore(template, hasSpawn, acts, Strike(requested));
      acts := acts + [Strike(requested)];
      if hp <= 0 {
        return None;
      }
      var applied := if requested < hp then requested else hp;
      if applied == hp {
        var result := Kill(killer, applied);
        OneEventMore(old(events), Killed(killer, result.expReward));
        return Some(result);
      }
      hp := hp - applied;
      r := Some(DamageResult(applied, hp, 0, false));
    }

    /** A second call on the dead does nothing. */
    method Kill(killer: nat, damage: nat) returns (r: DamageResult)
      modifies this`hp, this`respawnIn, this`events
      ensures old(hp) <= 0 ==> r == DamageResult(0, 0, 0, false) && Now() == old(Now()) && events == old(events)
      ensures old(hp) > 0 ==>
                r == DamageResult(damage, 0, Max0(template.expReward), true) && hp == 0
                && respawnIn == (if Returns(template, hasSpawn) then Some(1000 * template.respawnTime)
                                 else old(respawnIn))
                && events == old(events) + [Killed(killer, Max0(template.expReward))]
    {
      if hp <= 0 {
        return DamageResult(0, 0, 0, false);
      }
      hp := 0;
      if hasSpawn && template.respawnTime > 0 {
        respawnIn := Some(1000 * template.respawnTime);
      }
      var expReward := Max0(template.expReward);
      events := events + [Killed(killer, expReward)];
      r := DamageResult(damage, 0, expReward, true);
    }

    method Tick(delta: nat)
      requires Valid()
      modifies this`hp, this`respawnIn, this`events, this`acts
      ensures Valid() && acts == old(acts) + [Pass(delta)]
      ensures Now() == Ticked(template, hasSpawn, old(Now()), delta).0
      ensures events == old(events) + if Ticked(template, hasSpawn, old(Now()), delta).1 then [Respawned] else []
    {
      hide After, Totals, Published;
      OneActMore(template, hasSpawn, acts, Pass(delta));
      acts := acts + [Pass(delta)];
      if hp > 0 || !hasSpawn || respawnIn.None? {
        return;
      }
      if respawnIn.value > delta {
        respawnIn := Some(respawnIn.value - delta);
        return;
      }
      hp, respawnIn := template.hp, None;
      events := events + [Respawned];
      OneEventMore(old(events), Respawned);
    }
  }

  // ---- Attacking ----------------------------------------------------------------------------------------------

  const MAX_UINT32 := 0xFFFF_FFFF
  const BASIC_ATTACK_RANGE := 1

  function Between(a: nat, b: nat): nat {
    if a < b then b - a else a - b
  }

  /** Orthogonal and diagonal neighbours are one tile away. */
  function Distance(x: nat, y: nat, u: nat, v: nat): nat {
    if Between(x, u) < Between(y, v) then Between(y, v) else Between(x, u)
  }

  function AttackDamage(power: int, defense: int): (damage: nat)
    ensures 1 <= damage <= MAX_UINT32
  {
    var net := (if power < 1 then 1 else power) - Max0(defense);
    Least(if net < 1 then 1 else net, MAX_UINT32)
  }

  /** Without a defense a hit takes the attacker's power, as far as it fits thirty-two bits; while it takes more
      than one and fits, every further point of defense takes exactly one off; a defense of at least the power leaves
      one. */
  lemma DefenseTakesOff(power: int, defense: int)
    ensures defense <= 0 ==> AttackDamage(power, defense)
                             == if power < 1 then 1 else if power > MAX_UINT32 then MAX_UINT32 else power
    ensures 0 <= defense && 1 < AttackDamage(power, defense) < MAX_UINT32
            ==> AttackDamage(power, defense + 1) == AttackDamage(power, defense) - 1
    ensures power <= defense && 0 <= defense ==> AttackDamage(power, defense) == 1
    ensures 0 <= defense && power - defense > MAX_UINT32 ==> AttackDamage(power, defense) == MAX_UINT32
  {
  }

  /** The same hit over and over. */
  function Strikes(damage: nat, hits: nat): (acts: seq<Act>)
    ensures |acts| == hits
  {
    seq(hits, i requires 0 <= i < hits => Strike(damage))
  }

  /** A new monster of `hp` falls to exactly the hits whose damage adds up to it, rounded up. */
  lemma {:induction false} FallsToEnoughHits(t: Template, hasSpawn: bool, damage: nat, hits: nat)
    requires damage > 0
    ensures Alive(After(t, hasSpawn, Born(t), Strikes(damage, hits))) <==> hits * damage < t.hp
    ensures hits * damage < t.hp ==> After(t, hasSpawn, Born(t), Strikes(damage, hits)).hp == t.hp - hits * damage
    decreases hits
  {
    if hits > 0 {
      var acts := Strikes(damage, hits);
      assert acts[..|acts| - 1] == Strikes(damage, hits - 1);
      FallsToEnoughHits(t, hasSpawn, damage, hits - 1);
      assert hits * damage == (hits - 1) * damage + damage;
    }
  }

  /** In attacks: a monster of `hp` is alive after `hits` of them if and only if they are fewer than hp / damage,
      rounded up. */
  lemma AttacksNeeded(t: Template, hasSpawn: bool, power: int, hits: nat)
    ensures var damage := AttackDamage(power, t.defense);
            Alive(After(t, hasSpawn, Born(t), Strikes(damage, hits)))
            <==> t.hp > 0 && hits < (t.hp + damage - 1) / damage
  {
    var damage := AttackDamage(power, t.defense);
    FallsToEnoughHits(t, hasSpawn, damage, hits);
    if t.hp > 0 {
      RoundedUp(t.hp, damage, hits);
    } else {
      assert hits * damage >= 0;
    }
  }

  lemma RoundedUp(n: nat, d: nat, k: nat)
    requires n > 0 && d > 0
    ensures k * d < n <==> k < (n + d - 1) / d
  {
    var q, r := (n + d - 1) / d, (n + d - 1) % d;
    assert n + d - 1 == d * q + r;
    if k < q {
      Grows(d, k + 1, q);
      assert d * (k + 1) == k * d + d;
    } else {
      Grows(d, q, k);
      assert d * k == k * d;
    }
  }

  lemma Grows(d: nat, a: nat, b: nat)
    requires a <= b
    ensures d * a <= d * b
  {
  }

  class Player {
    const instance: nat
    var exp: int
    var x: nat
    var y: nat
    var power: int

    constructor (instance: nat, exp: int, x: nat, y: nat, power: int)
    {
      this.instance, this.exp, this.x, this.y, this.power := instance, exp, x, y, power;
    }

    /** A misplaced or distant attack changes nothing; a killing blow grants its reward once, to the attacker. */
    method Attack(target: Creature, reportedX: nat, reportedY: nat) returns (r: Option<DamageResult>, expGain: nat)
      requires exp <= MAX_INT64 && target.Valid()
      modifies this`exp, target`hp, target`respawnIn, target`events, target`acts
      ensures target.Valid()
      ensures var near := reportedX == x && reportedY == y && Distance(x, y, target.x, target.y) <= BASIC_ATTACK_RANGE;
              var damage := AttackDamage(power, target.template.defense);
              if near then (target.Now(), r) == Hit(target.template, target.hasSpawn, old(target.Now()), damage)
                           && target.acts == old(target.acts) + [Strike(damage)]
              else r.None? && target.Now() == old(target.Now()) && target.acts == old(target.acts)
      ensures target.events
           == old(target.events) + if r.Some? && r.value.killed then [Killed(instance, r.value.expReward)] else []
      ensures exp == (if r.Some? && r.value.killed then Gained(old(exp), r.value.expReward) else old(exp))
      ensures expGain == if r.Some? && r.value.killed then exp - Max0(old(exp)) else 0
    {
      if reportedX != x || reportedY != y || Distance(reportedX, reportedY, target.x, target.y) > BASIC_ATTACK_RANGE {
        return None, 0;
      }
      r := target.TakeDamage(AttackDamage(power, target.template.defense), instance);
      expGain := 0;
      if r.Some? && r.value.killed {
        var current := Max0(exp);
        exp := Gained(exp, r.value.expReward);
        expGain := exp - current;
      }
    }
  }

  lemma Distribute(a: int, k: nat)
    ensures a * (k + 1) == a * k + a
  {
  }

  /**
   * Over any run of attacks and ticks: each life takes damage adding up to the template's hp, ends in one kill that
   * yields the reward once, and is followed by another only through a return.
   */
  lemma {:induction false} LivesAddUp(t: Template, hasSpawn: bool, acts: seq<Act>)
    ensures var l := After(t, hasSpawn, Born(t), acts);
            var n := Totals(t, hasSpawn, Born(t), acts);
            n.damage == Max0(t.hp) * n.kills + (if Alive(l) then t.hp - l.hp else 0)
            && n.rewards == Max0(t.expReward) * n.kills
            && n.kills == n.comebacks + (if Alive(l) || t.hp <= 0 then 0 else 1)
            && (Alive(l) ==> l.hp <= t.hp && l.respawnIn == None)
            && (l.respawnIn.Some? ==> Returns(t, hasSpawn) && t.hp > 0 && 0 < l.respawnIn.value)
  {
    if acts != [] {
      var before := acts[..|acts| - 1];
      LivesAddUp(t, hasSpawn, before);
      var n := Totals(t, hasSpawn, Born(t), before);
      Distribute(Max0(t.hp), n.kills);
      Distribute(Max0(t.expReward), n.kills);
      hide After, Totals;
    }
  }

  function Elapsed(acts: seq<Act>): nat {
    if acts == [] then 0
    else Elapsed(acts[..|acts| - 1]) + match acts[|acts| - 1] case Pass(delta) => delta case Strike(_) => 0
  }

  /** The dead come back on the first tick by which their respawn time has passed, and the terminally dead never. */
  lemma {:induction false} ReturnsOnTime(t: Template, hasSpawn: bool, l: Life, acts: seq<Act>)
    requires !Alive(l) && t.hp > 0 && (l.respawnIn.Some? ==> hasSpawn && l.respawnIn.value > 0)
    ensures l.respawnIn.None? ==> After(t, hasSpawn, l, acts) == l
    ensures l.respawnIn.Some? && Elapsed(acts) < l.respawnIn.value
            ==> After(t, hasSpawn, l, acts) == l.(respawnIn := Some(l.respawnIn.value - Elapsed(acts)))
    ensures acts != [] && l.respawnIn.Some? && Elapsed(acts[..|acts| - 1]) < l.respawnIn.value <= Elapsed(acts)
            ==> After(t, hasSpawn, l, acts) == Born(t)
  {
    if acts != [] {
      ReturnsOnTime(t, hasSpawn, l, acts[..|acts| - 1]);
    }
  }

  /** A monster killed after any hits and ticks returns, as new, on the first tick by which the whole respawn time
      has passed since the killing blow, or never. */
  lemma KilledReturnsOnTime(t: Template, hasSpawn: bool, before: seq<Act>, requested: nat, acts: seq<Act>)
    requires var l := After(t, hasSpawn, Born(t), before); Alive(l) && l.hp <= requested
    ensures var killed := After(t, hasSpawn, Born(t), before + [Strike(requested)]);
            !Alive(killed)
            && (!Returns(t, hasSpawn) ==> After(t, hasSpawn, killed, acts) == killed)
            && (Returns(t, hasSpawn) && Elapsed(acts) < 1000 * t.respawnTime
                ==> !Alive(After(t, hasSpawn, killed, acts)))
            && (Returns(t, hasSpawn) && acts != []
                && Elapsed(acts[..|acts| - 1]) < 1000 * t.respawnTime <= Elapsed(acts)
                ==> After(t, hasSpawn, killed, acts) == Born(t))
  {
    LivesAddUp(t, hasSpawn, before);
    var all := before + [Strike(requested)];
    assert all[..|all| - 1] == before;
    ReturnsOnTime(t, hasSpawn, After(t, hasSpawn, Born(t), all), acts);
  }
}
