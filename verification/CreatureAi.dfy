/** Monster behaviour: who is noticed, and the wander, chase and attack decisions taken whenever the timer runs out. */
module CreatureAi {
  import opened Wrappers
  import opened LevelUp
  import opened Creatures
  import opened VisibilityIndex

  datatype Placement = Placement(x: nat, y: nat)

  function DistanceTo(a: Placement, b: Placement): nat {
    Distance(a.x, a.y, b.x, b.y)
  }

  predicate OnGrid(p: Placement) {
    p.x < GRID_SIZE && p.y < GRID_SIZE
  }

  function Apart(a: int, b: int): nat {
    if a < b then b - a else a - b
  }

  /** A template value clamped to the grid: the nearest one on it. */
  function Normalized(value: int): (n: nat)
    ensures n < GRID_SIZE
    ensures forall m: nat | m < GRID_SIZE :: Apart(n, value) <= Apart(m, value)
  {
    if value < 0 then 0 else if value >= GRID_SIZE then GRID_SIZE - 1 else value
  }

  /** The template values behaviour depends on. */
  datatype Habits = Habits(aggroRange: int, attackRange: int, wanderSteps: int)

  // ---- Noticing -----------------------------------------------------------------------------------------------

  datatype Sighted = Sighted(id: nat, hp: nat, at: Placement)

  predicate Noticed(self: Placement, range: nat, p: Sighted) {
    p.hp > 0 && DistanceTo(self, p.at) <= range
  }

  /** Closer, or as close with a lower id. */
  predicate Precedes(self: Placement, p: Sighted, q: Sighted) {
    DistanceTo(self, p.at) < DistanceTo(self, q.at)
        || (DistanceTo(self, p.at) == DistanceTo(self, q.at) && p.id <= q.id)
  }

  ghost predicate IsNearest(self: Placement, range: nat, players: seq<Sighted>, r: Option<Sighted>) {
    match r
    case None => range == 0 || forall p | p in players :: !Noticed(self, range, p)
    case Some(n) => range > 0 && n in players && Noticed(self, range, n)
                    && forall p | p in players && Noticed(self, range, p) :: Precedes(self, n, p)
  }

  /** The best of the players in the order listed, one by one. */
  function Choice(self: Placement, range: nat, players: seq<Sighted>): (best: Option<Sighted>)
    ensures IsNearest(self, range, players, best)
  {
    if players == [] || range == 0 then None
    else
      var front, p := players[..|players| - 1], players[|players| - 1];
      assert players == front + [p];
      var best := Choice(self, range, front);
      if Noticed(self, range, p) && (best.None? || !Precedes(self, best.value, p)) then Some(p) else best
  }

  method SelectAggroCandidate(self: Placement, habits: Habits, players: seq<Sighted>) returns (nearest: Option<Sighted>)
    ensures nearest == Choice(self, Normalized(habits.aggroRange), players)
    ensures IsNearest(self, Normalized(habits.aggroRange), players, nearest)
  {
    var aggroRange := Normalized(habits.aggroRange);
    if aggroRange == 0 {
      return None;
    }
    nearest := None;
    var nearestDistance := aggroRange + 1;
    for i := 0 to |players|
      invariant nearestDistance == (if nearest.Some? then DistanceTo(self, nearest.value.at) else aggroRange + 1)
      invariant nearest == Choice(self, aggroRange, players[..i])
    {
      var p := players[i];
      assert players[..i + 1][..i] == players[..i];
      if p.hp == 0 {
        continue;
      }
      var distance := DistanceTo(self, p.at);
      if distance > aggroRange {
        continue;
      }
      if distance < nearestDistance || (distance == nearestDistance && (nearest.None? || p.id < nearest.value.id)) {
        nearest, nearestDistance := Some(p), distance;
      }
    }
    assert players[..|players|] == players;
  }

  /** The choice does not depend on the order the pool lists its players in. */
  lemma ChoiceIgnoresOrder(self: Placement, range: nat, a: seq<Sighted>, b: seq<Sighted>, r: Option<Sighted>,
                           s: Option<Sighted>)
    requires IsNearest(self, range, a, r) && IsNearest(self, range, b, s)
    requires forall p :: p in a <==> p in b
    requires forall p, q | p in a && q in a && p.id == q.id :: p == q
    ensures r == s
  {
    if r.Some? && s.Some? {
      assert Precedes(self, r.value, s.value) && Precedes(self, s.value, r.value);
    }
  }

  // ---- Deciding -----------------------------------------------------------------------------------------------

  datatype Kind = Idle | Wander | Chase | Attacking

  datatype Ai = Ai(kind: Kind, timer: int, steps: nat, target: nat)

  type Sign = d: int | -1 <= d <= 1

  datatype Intent = Rest | Stroll(dx: Sign, dy: Sign) | Pursue(to: Placement) | Assault(id: nat)

  const STEP_DELAY := 500
  const ATTACK_DELAY := 1000

  /** The random draws of one decision: whether to wander, where to, and the extra delay. */
  datatype Draws = Draws(wander: bool, dx: Sign, dy: Sign, jitter: nat)

  function EnterIdle(delay: nat): Ai {
    Ai(Idle, delay, 0, 0)
  }

  function EnterChase(target: nat, delayed: bool): Ai {
    Ai(Chase, if delayed then STEP_DELAY else 0, 0, target)
  }

  function EnterAttacking(target: nat): Ai {
    Ai(Attacking, ATTACK_DELAY, 0, target)
  }

  /** What is sensed for the decision: the best candidate when idle, the current target when it lives. */
  datatype Perception = Perception(candidate: Option<nat>, target: Option<Placement>)

  /** Where the player with this id is, if it is on the map and alive. */
  function Seen(players: seq<Sighted>, id: nat): Option<Placement> {
    if players == [] then None
    else if players[0].id == id then (if players[0].hp > 0 then Some(players[0].at) else None)
    else Seen(players[1..], id)
  }

  /** Ids are unique in a pool, so the player seen is the one there is, and it is alive. */
  lemma {:induction false} SeenIffThere(players: seq<Sighted>, id: nat, at: Placement)
    requires forall p, q | p in players && q in players && p.id == q.id :: p == q
    ensures Seen(players, id) == Some(at) <==> exists p :: p in players && p.id == id && p.hp > 0 && p.at == at
  {
    if players != [] {
      assert players[0] in players && forall p | p in players[1..] :: p in players;
      if players[0].id != id {
        SeenIffThere(players[1..], id, at);
        assert forall p | p in players && p.id == id :: p in players[1..];
      }
    }
  }

  /** An idle creature looks for a target, a hunting one after its own, a wandering one at nothing. */
  function Perceive(habits: Habits, ai: Ai, self: Placement, players: seq<Sighted>): Perception {
    match ai.kind
    case Idle =>
      var best := Choice(self, Normalized(habits.aggroRange), players);
      Perception(if best.Some? then Some(best.value.id) else None, None)
    case Wander => Perception(None, None)
    case Chase => Perception(None, Seen(players, ai.target))
    case Attacking => Perception(None, Seen(players, ai.target))
  }

  function Pursuit(habits: Habits, ai: Ai, self: Placement, seen: Perception): (Intent, Ai) {
    if seen.target.None? then (Rest, EnterIdle(0))
    else
      var distance := DistanceTo(self, seen.target.value);
      var aggroRange := Normalized(habits.aggroRange);
      if aggroRange == 0 || distance > aggroRange then (Rest, EnterIdle(0))
      else if distance > Normalized(habits.attackRange) then (Pursue(seen.target.value), EnterChase(ai.target, true))
      else (Assault(ai.target), EnterAttacking(ai.target))
  }

  /** A decision whose timer ran out; a wander keeps its data until the map reports the attempt. */
  function Decide(habits: Habits, ai: Ai, self: Placement, seen: Perception, d: Draws): (Intent, Ai) {
    match ai.kind
    case Idle =>
      if seen.candidate.Some? then (Rest, EnterChase(seen.candidate.value, false))
      else if Normalized(habits.wanderSteps) > 0 && d.wander then
        (Rest, Ai(Wander, 0, Normalized(habits.wanderSteps), 0))
      else (Rest, EnterIdle(2000 + d.jitter))
    case Wander => if ai.steps == 0 then (Rest, EnterIdle(0)) else (Stroll(d.dx, d.dy), ai)
    case Chase => Pursuit(habits, ai, self, seen)
    case Attacking => Pursuit(habits, ai, self, seen)
  }

  function CompleteWanderStep(ai: Ai, d: Draws): Ai
    requires ai.kind == Wander
  {
    var left := if ai.steps > 0 then ai.steps - 1 else 0;
    if left == 0 then EnterIdle(0) else ai.(steps := left, timer := 5000 + d.jitter)
  }

  /** One coordinate moved and clamped to the grid. */
  function Step(coordinate: nat, delta: int): (c: nat)
    ensures c < GRID_SIZE
  {
    Normalized(coordinate + delta)
  }

  function Toward(a: nat, b: nat): Sign {
    if b < a then -1 else if b > a then 1 else 0
  }

  /** Where an intent takes the creature. */
  function Moved(self: Placement, intent: Intent): Placement {
    match intent
    case Stroll(dx, dy) => Placement(Step(self.x, dx), Step(self.y, dy))
    case Pursue(p) => Placement(Step(self.x, Toward(self.x, p.x)), Step(self.y, Toward(self.y, p.y)))
    case Rest => self
    case Assault(_) => self
  }

  datatype Beast = Beast(ai: Ai, at: Placement)

  /** One tick: nothing until the timer has run out, then a decision and what it does. */
  function TickedAi(habits: Habits, b: Beast, delta: nat, players: seq<Sighted>, d: Draws): (Beast, Option<Intent>) {
    if b.ai.timer > delta then (b.(ai := b.ai.(timer := b.ai.timer - delta)), None)
    else
      var (intent, next) := Decide(habits, b.ai.(timer := 0), b.at, Perceive(habits, b.ai, b.at, players), d);
      var ai := if intent.Stroll? then CompleteWanderStep(next, d) else next;
      (Beast(ai, Moved(b.at, intent)), Some(intent))
  }

  /** The coordinator a creature owns: the current state and its data, replaced whenever a state is entered. */
  class Coordinator {
    var kind: Kind
    var timer: int
    var steps: nat
    var target: nat

    function Now(): Ai
      reads this
    {
      Ai(kind, timer, steps, target)
    }

    constructor ()
      ensures Now() == EnterIdle(0)
    {
      kind, timer, steps, target := Idle, 0, 0, 0;
    }

    method Enter(next: Ai)
      modifies this
      ensures Now() == next
    {
      kind, timer, steps, target := next.kind, next.timer, next.steps, next.target;
    }

    method Advance(delta: nat) returns (due: bool)
      modifies this`timer
      ensures due == (old(timer) <= delta) && timer == if due then 0 else old(timer) - delta
    {
      due := timer <= delta;
      timer := if due then 0 else timer - delta;
    }

    /** Chase and attack share their tests: the target gone, out of sight, out of reach, or in reach. */
    method DecidePursuit(habits: Habits, self: Placement, seen: Perception) returns (intent: Intent)
      modifies this
      ensures (intent, Now()) == Pursuit(habits, old(Now()), self, seen)
    {
      if seen.target.None? {
        Enter(EnterIdle(0));
        return Rest;
      }
      var id, distance, aggroRange := target, DistanceTo(self, seen.target.value), Normalized(habits.aggroRange);
      if aggroRange == 0 || distance > aggroRange {
        Enter(EnterIdle(0));
        return Rest;
      }
      if distance > Normalized(habits.attackRange) {
        Enter(EnterChase(id, true));
        return Pursue(seen.target.value);
      }
      Enter(EnterAttacking(id));
      intent := Assault(id);
    }

    method TakeDecision(habits: Habits, self: Placement, seen: Perception, d: Draws) returns (intent: Intent)
      modifies this
      ensures (intent, Now()) == Decide(habits, old(Now()), self, seen, d)
    {
      intent := Rest;
      match kind {
        case Idle =>
          var wanderSteps := Normalized(habits.wanderSteps);
          if seen.candidate.Some? {
            Enter(EnterChase(seen.candidate.value, false));
          } else if wanderSteps > 0 && d.wander {
            Enter(Ai(Wander, 0, wanderSteps, 0));
          } else {
            Enter(EnterIdle(2000 + d.jitter));
          }
        case Wander =>
          if steps == 0 {
            Enter(EnterIdle(0));
          } else {
            intent := Stroll(d.dx, d.dy);
          }
        case Chase => intent := DecidePursuit(habits, self, seen);
        case Attacking => intent := DecidePursuit(habits, self, seen);
      }
    }

    method CompleteStep(d: Draws)
      requires kind == Wander
      modifies this
      ensures Now() == CompleteWanderStep(old(Now()), d)
    {
      if steps > 0 {
        steps := steps - 1;
      }
      if steps == 0 {
        Enter(EnterIdle(0));
      } else {
        timer := 5000 + d.jitter;
      }
    }
  }

  class Monster {
    const habits: Habits
    const brain: Coordinator
    var at: Placement

    constructor (habits: Habits, at: Placement)
      ensures this.habits == habits && this.at == at && fresh(brain) && brain.Now() == EnterIdle(0)
    {
      this.habits, this.at := habits, at;
      brain := new Coordinator();
    }

    /** What the current state asks the map for. */
    method BuildCreaturePerception(players: seq<Sighted>) returns (seen: Perception)
      ensures seen == Perceive(habits, brain.Now(), at, players)
    {
      var kind := brain.kind;
      if kind == Idle {
        var candidate := SelectAggroCandidate(at, habits, players);
        return Perception(if candidate.Some? then Some(candidate.value.id) else None, None);
      }
      if kind == Wander {
        return Perception(None, None);
      }
      seen := Perception(None, Seen(players, brain.target));
    }

    method TickCreatureAi(delta: nat, players: seq<Sighted>, d: Draws) returns (intent: Option<Intent>)
      modifies this`at, brain
      ensures (Beast(brain.Now(), at), intent) == TickedAi(habits, Beast(old(brain.Now()), old(at)), delta, players, d)
    {
      var due := brain.Advance(delta);
      if !due {
        return None;
      }
      var seen := BuildCreaturePerception(players);
      var chosen := brain.TakeDecision(habits, at, seen, d);
      at := Moved(at, chosen);
      if chosen.Stroll? {
        brain.CompleteStep(d);
      }
      intent := Some(chosen);
    }
  }

  // ---- Over many ticks ----------------------------------------------------------------------------------------

  /** One tick of the map: the time passed, the players on it and the draws. */
  datatype Moment = Moment(delta: nat, players: seq<Sighted>, draws: Draws)

  function Lived(habits: Habits, b: Beast, m: Moment): (Beast, Option<Intent>) {
    TickedAi(habits, b, m.delta, m.players, m.draws)
  }

  /** Every decision taken over a list of ticks, in order. */
  function Decisions(habits: Habits, b: Beast, moments: seq<Moment>): seq<Intent>
    decreases |moments|
  {
    if moments == [] then []
    else
      var (next, intent) := Lived(habits, b, moments[0]);
      (if intent.Some? then [intent.value] else []) + Decisions(habits, next, moments[1..])
  }

  function After(habits: Habits, b: Beast, moments: seq<Moment>): Beast
    decreases |moments|
  {
    if moments == [] then b else After(habits, Lived(habits, b, moments[0]).0, moments[1..])
  }

  lemma OneStepAtATime(habits: Habits, b: Beast, m: Moment)
    requires OnGrid(b.at)
    ensures var (next, intent) := Lived(habits, b, m);
            OnGrid(next.at) && DistanceTo(b.at, next.at) <= if intent.Some? then 1 else 0
  {
  }

  lemma DistancesAdd(a: Placement, b: Placement, c: Placement)
    ensures DistanceTo(a, c) <= DistanceTo(a, b) + DistanceTo(b, c)
  {
  }

  /** Over any ticks a creature stays on the grid and gets no farther than one tile for each decision. */
  lemma {:induction false} StaysOnGridAndClose(habits: Habits, b: Beast, moments: seq<Moment>)
    requires OnGrid(b.at)
    ensures var end := After(habits, b, moments);
            OnGrid(end.at) && DistanceTo(b.at, end.at) <= |Decisions(habits, b, moments)|
    decreases |moments|
  {
    hide Lived;
    if moments != [] {
      var next := Lived(habits, b, moments[0]).0;
      OneStepAtATime(habits, b, moments[0]);
      StaysOnGridAndClose(habits, next, moments[1..]);
      DistancesAdd(b.at, next.at, After(habits, b, moments).at);
    }
  }

  // ---- Chasing ------------------------------------------------------------------------------------------------

  /** A step towards a target on the grid closes the distance by exactly one. */
  lemma StepCloses(self: Placement, target: Placement)
    requires OnGrid(self) && OnGrid(target)
    ensures var next := Moved(self, Pursue(target));
            OnGrid(next) && DistanceTo(next, target) == if self == target then 0 else DistanceTo(self, target) - 1
  {
  }

  /** The player stays where it is and alive, in every moment. */
  predicate Stays(moments: seq<Moment>, id: nat, target: Placement) {
    forall i | 0 <= i < |moments| :: Seen(moments[i].players, id) == Some(target)
  }

  /** The moves still needed before the target is in attack range. */
  function MovesLeft(habits: Habits, b: Beast, target: Placement): nat {
    Max0(DistanceTo(b.at, target) - Normalized(habits.attackRange))
  }

  predicate Hunting(habits: Habits, b: Beast, id: nat, target: Placement) {
    (b.ai.kind == Chase || b.ai.kind == Attacking) && b.ai.target == id && OnGrid(b.at) && OnGrid(target)
    && 0 < Normalized(habits.aggroRange) && DistanceTo(b.at, target) <= Normalized(habits.aggroRange)
  }

  lemma HuntStep(habits: Habits, b: Beast, m: Moment, id: nat, target: Placement)
    requires Hunting(habits, b, id, target) && Seen(m.players, id) == Some(target)
    ensures var (next, intent) := Lived(habits, b, m);
            Hunting(habits, next, id, target)
            && match intent
               case None => next.at == b.at && MovesLeft(habits, next, target) == MovesLeft(habits, b, target)
               case Some(i) =>
                 next.ai.timer == (if i.Pursue? then STEP_DELAY else ATTACK_DELAY)
                 && if MovesLeft(habits, b, target) > 0
                 then i == Pursue(target) && MovesLeft(habits, next, target) == MovesLeft(habits, b, target) - 1
                 else i == Assault(id) && next.at == b.at && MovesLeft(habits, next, target) == 0
  {
    StepCloses(b.at, target);
  }

  /** First the moves, then nothing but attacks. */
  predicate MovesThenAttacks(made: seq<Intent>, moves: nat, id: nat, target: Placement) {
    forall i | 0 <= i < |made| :: made[i] == if i < moves then Pursue(target) else Assault(id)
  }

  /**
   * Against a target that stays within aggro range the hunt makes exactly the missing moves and then only attacks,
   * however the ticks fall.
   */
  lemma {:induction false} HuntReachesTheTarget(habits: Habits, b: Beast, moments: seq<Moment>, id: nat,
                                                target: Placement)
    requires Hunting(habits, b, id, target) && Stays(moments, id, target)
    ensures MovesThenAttacks(Decisions(habits, b, moments), MovesLeft(habits, b, target), id, target)
    decreases |moments|
  {
    if moments != [] {
      var m := moments[0];
      HuntStep(habits, b, m, id, target);
      var (next, intent) := Lived(habits, b, m);
      HuntReachesTheTarget(habits, next, moments[1..], id, target);
      hide Lived, Hunting, MovesLeft;
    }
  }

  function Elapsed(moments: seq<Moment>): nat
    decreases |moments|
  {
    if moments == [] then 0 else moments[0].delta + Elapsed(moments[1..])
  }

  /** A decision falls due exactly when the timer's time has passed: never earlier, and on the tick by which it has. */
  lemma {:induction false} DueInTime(habits: Habits, b: Beast, moments: seq<Moment>)
    requires moments != []
    ensures Decisions(habits, b, moments) != [] <==> Elapsed(moments) >= b.ai.timer
    decreases |moments|
  {
    hide Decide;
    var m := moments[0];
    if b.ai.timer > m.delta && moments[1..] != [] {
      DueInTime(habits, b.(ai := b.ai.(timer := b.ai.timer - m.delta)), moments[1..]);
    }
  }

  /** Until then nothing happens but time. */
  lemma {:induction false} WaitsUntilDue(habits: Habits, b: Beast, early: seq<Moment>, more: seq<Moment>)
    requires Elapsed(early) < b.ai.timer
    ensures Decisions(habits, b, early + more)
         == Decisions(habits, b.(ai := b.ai.(timer := b.ai.timer - Elapsed(early))), more)
    decreases |early|
  {
    hide Decide, Perceive;
    if early == [] {
      assert early + more == more;
    } else {
      assert (early + more)[0] == early[0] && (early + more)[1..] == early[1..] + more;
      WaitsUntilDue(habits, b.(ai := b.ai.(timer := b.ai.timer - early[0].delta)), early[1..], more);
    }
  }

  /**
   * An idle monster goes after somebody if and only if, on the tick its decision falls due, a living player is in aggro
   * range: the nearest one. If that player then stays where it is, the hunt makes exactly the missing moves and
   * attacks.
   */
  lemma NoticeStartsTheHunt(habits: Habits, b: Beast, early: seq<Moment>, m: Moment, late: seq<Moment>)
    requires b.ai.kind == Idle && OnGrid(b.at) && forall p | p in m.players :: OnGrid(p.at)
    requires (early == [] || Elapsed(early) < b.ai.timer) && b.ai.timer <= Elapsed(early) + m.delta
    ensures var best := Choice(b.at, Normalized(habits.aggroRange), m.players);
            var made := Decisions(habits, b, early + [m] + late);
            IsNearest(b.at, Normalized(habits.aggroRange), m.players, best)
            && made != [] && made[0] == Rest
            && (best.Some? && Stays(late, best.value.id, best.value.at)
                ==> MovesThenAttacks(made[1..], MovesLeft(habits, b, best.value.at), best.value.id, best.value.at))
            && (best.None? ==> |made| > 1 ==> made[1].Rest? || made[1].Stroll?)
  {
    var best := Choice(b.at, Normalized(habits.aggroRange), m.players);
    var due := b.(ai := b.ai.(timer := b.ai.timer - Elapsed(early)));
    var more := [m] + late;
    assert early + [m] + late == early + more;
    if early == [] {
      assert early + more == more;
    } else {
      WaitsUntilDue(habits, b, early, more);
    }
    var next := Lived(habits, due, m).0;
    assert more[0] == m && more[1..] == late;
    var made := Decisions(habits, due, more);
    assert made == [Rest] + Decisions(habits, next, late);
    if best.Some? {
      if Stays(late, best.value.id, best.value.at) {
        HuntReachesTheTarget(habits, next, late, best.value.id, best.value.at);
      }
    } else if next.ai.kind == Wander {
      WanderMakesItsSteps(habits, next, late);
    } else {
      IdleRests(habits, next, late);
    }
  }

  /** A hunter whose decision falls due gives up, resting at once without delay, if and only if its target is gone
      or dead, or out of aggro range; otherwise it keeps its target. */
  lemma GivesUpIffLost(habits: Habits, b: Beast, m: Moment)
    requires (b.ai.kind == Chase || b.ai.kind == Attacking) && b.ai.timer <= m.delta
    ensures var (next, intent) := Lived(habits, b, m);
            var seen := Seen(m.players, b.ai.target);
            var lost := seen.None? || Normalized(habits.aggroRange) == 0
                        || DistanceTo(b.at, seen.value) > Normalized(habits.aggroRange);
            (lost ==> intent == Some(Rest) && next == Beast(EnterIdle(0), b.at))
            && (!lost ==> intent != Some(Rest) && next.ai.target == b.ai.target
                          && (next.ai.kind == Chase || next.ai.kind == Attacking))
  {
  }

  /** An idle monster that sees nobody rests two seconds and the jitter, or sets out at once on its template's
      number of steps. */
  lemma IdlesOrSetsOut(habits: Habits, b: Beast, m: Moment)
    requires b.ai.kind == Idle && b.ai.timer <= m.delta
    requires Choice(b.at, Normalized(habits.aggroRange), m.players).None?
    ensures var next := Lived(habits, b, m).0;
            next.at == b.at
            && if m.draws.wander && Normalized(habits.wanderSteps) > 0
               then next.ai == Ai(Wander, 0, Normalized(habits.wanderSteps), 0)
               else next.ai.kind == Idle && next.ai.timer == 2000 + m.draws.jitter
  {
  }

  /** A stroll that the border does not stop moves by exactly its draw, and stops at the border otherwise; five
      seconds and the jitter pass before the next, and none after the last. */
  lemma StrollsByItsDraw(habits: Habits, b: Beast, m: Moment)
    requires b.ai.kind == Wander && b.ai.steps > 0 && b.ai.timer <= m.delta && OnGrid(b.at)
    ensures var (next, intent) := Lived(habits, b, m);
            intent == Some(Stroll(m.draws.dx, m.draws.dy)) && OnGrid(next.at)
            && (0 <= b.at.x + m.draws.dx < GRID_SIZE ==> next.at.x == b.at.x + m.draws.dx)
            && (0 <= b.at.y + m.draws.dy < GRID_SIZE ==> next.at.y == b.at.y + m.draws.dy)
            && (!(0 <= b.at.x + m.draws.dx < GRID_SIZE) ==> next.at.x == b.at.x)
            && (!(0 <= b.at.y + m.draws.dy < GRID_SIZE) ==> next.at.y == b.at.y)
            && next.ai == if b.ai.steps == 1 then EnterIdle(0)
                          else Ai(Wander, 5000 + m.draws.jitter, b.ai.steps - 1, b.ai.target)
  {
  }

  // ---- Wandering ------------------------------------------------------------------------------------------------

  /** A wander makes exactly its number of attempts before anything else is decided, whatever is in sight. */
  lemma {:induction false} WanderMakesItsSteps(habits: Habits, b: Beast, moments: seq<Moment>)
    requires b.ai.kind == Wander && b.ai.steps > 0
    ensures var made := Decisions(habits, b, moments);
            (forall i | 0 <= i < |made| && i < b.ai.steps :: made[i].Stroll?)
            && (|made| > b.ai.steps ==> made[b.ai.steps] == Rest)
    decreases |moments|
  {
    if moments != [] {
      var m := moments[0];
      var (next, intent) := Lived(habits, b, m);
      if next.ai.kind == Wander {
        WanderMakesItsSteps(habits, next, moments[1..]);
      } else {
        assert b.ai.steps == 1 && next.ai == EnterIdle(0);
        IdleRests(habits, next, moments[1..]);
      }
    }
  }

  lemma {:induction false} IdleRests(habits: Habits, b: Beast, moments: seq<Moment>)
    requires b.ai.kind == Idle
    ensures Decisions(habits, b, moments) != [] ==> Decisions(habits, b, moments)[0] == Rest
    decreases |moments|
  {
    if moments != [] && b.ai.timer > moments[0].delta {
      IdleRests(habits, b.(ai := b.ai.(timer := b.ai.timer - moments[0].delta)), moments[1..]);
    }
  }
}
