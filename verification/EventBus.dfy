/**
 * The queued event bus. Each event type keeps its own vector; one log remembers the type of every publication, so that
 * a dispatch can replay the vectors in publish order.
 */
module EventBus {
  datatype Event<T> = Event(kind: nat, body: T)

  /** What the listeners of one event do: the events they publish, and whether one of them throws after that. */
  datatype Reaction<T> = Reaction(published: seq<Event<T>>, throws: bool)

  /** Listeners may depend on everything delivered so far, the event in hand last. */
  type Listeners<!T> = seq<Event<T>> -> Reaction<T>

  // ---- The one queue the bus stands for -----------------------------------------------------------------------

  datatype Bus<T> = Bus(delivered: seq<Event<T>>, queue: seq<Event<T>>)

  /** Delivers a batch in order; listeners' own events go to the new queue; a throw drops the rest of the batch. */
  function Drain<T>(on: Listeners<T>, delivered: seq<Event<T>>, batch: seq<Event<T>>, queue: seq<Event<T>>): Bus<T>
    decreases |batch|
  {
    if batch == [] then Bus(delivered, queue)
    else
      var now := delivered + [batch[0]];
      var r := on(now);
      if r.throws then Bus(now, queue + r.published) else Drain(on, now, batch[1..], queue + r.published)
  }

  function Dispatched<T>(on: Listeners<T>, b: Bus<T>): Bus<T> {
    Drain(on, b.delivered, b.queue, [])
  }

  // ---- The bus itself -------------------------------------------------------------------------------------------

  function Count(log: seq<nat>, kind: nat): (n: nat)
    ensures n <= |log|
  {
    if log == [] then 0 else Count(log[..|log| - 1], kind) + if log[|log| - 1] == kind then 1 else 0
  }

  lemma {:induction false} CountPrefix(log: seq<nat>, i: nat)
    requires i < |log|
    ensures Count(log[..i + 1], log[i]) == Count(log[..i], log[i]) + 1
    ensures forall kind | kind != log[i] :: Count(log[..i + 1], kind) == Count(log[..i], kind)
    ensures Count(log[..i], log[i]) < Count(log, log[i])
    decreases |log| - i
  {
    assert log[..i + 1][..i] == log[..i];
    if i + 1 < |log| {
      CountGrows(log, i + 1, log[i]);
    } else {
      assert log[..i + 1] == log;
    }
  }

  lemma {:induction false} CountGrows(log: seq<nat>, i: nat, kind: nat)
    requires i <= |log|
    ensures Count(log[..i], kind) <= Count(log, kind)
    decreases |log|
  {
    if i < |log| {
      assert log[..|log| - 1][..i] == log[..i];
      CountGrows(log[..|log| - 1], i, kind);
    } else {
      assert log[..i] == log;
    }
  }

  /** The vectors hold one event for each log entry of their type. */
  predicate Filed<T>(log: seq<nat>, vectors: map<nat, seq<Event<T>>>) {
    (forall kind | kind in vectors ::
       |vectors[kind]| == Count(log, kind) && forall i | 0 <= i < |vectors[kind]| :: vectors[kind][i].kind == kind)
    && forall i | 0 <= i < |log| :: log[i] in vectors
  }

  /** The events in publish order: each log entry stands for the next unread event of its type. */
  function Merged<T>(log: seq<nat>, vectors: map<nat, seq<Event<T>>>): (events: seq<Event<T>>)
    requires Filed(log, vectors)
    ensures |events| == |log|
  {
    seq(|log|, i requires 0 <= i < |log| =>
      (CountPrefix(log, i); vectors[log[i]][Count(log[..i], log[i])]))
  }

  lemma MergedAppend<T>(log: seq<nat>, vectors: map<nat, seq<Event<T>>>, e: Event<T>)
    requires Filed(log, vectors)
    ensures var had := if e.kind in vectors then vectors[e.kind] else [];
            var more := vectors[e.kind := had + [e]];
            (e.kind !in vectors ==> Count(log, e.kind) == 0)
            && Filed(log + [e.kind], more) && Merged(log + [e.kind], more) == Merged(log, vectors) + [e]
  {
    var had := if e.kind in vectors then vectors[e.kind] else [];
    var more := vectors[e.kind := had + [e]];
    var longer := log + [e.kind];
    CountAppend(log, e.kind);
    if e.kind !in vectors {
      CountAbsent(log, e.kind);
    }
    hide Count;
    assert Filed(longer, more);
    forall i | 0 <= i < |longer| ensures Merged(longer, more)[i] == (Merged(log, vectors) + [e])[i] {
      if i < |log| {
        assert longer[..i] == log[..i];
        CountPrefix(log, i);
      } else {
        assert longer[..i] == log;
      }
    }
  }

  lemma CountAppend(log: seq<nat>, kind: nat)
    ensures forall k :: Count(log + [kind], k) == Count(log, k) + if k == kind then 1 else 0
  {
    assert (log + [kind])[..|log|] == log;
  }

  lemma {:induction false} CountAbsent(log: seq<nat>, kind: nat)
    requires kind !in log
    ensures Count(log, kind) == 0
  {
    if log != [] {
      CountAbsent(log[..|log| - 1], kind);
    }
  }

  /** Moving the vectors of every logged type leaves the rest empty and the merged order as it was. */
  lemma Swapped<T>(log: seq<nat>, before: map<nat, seq<Event<T>>>, taken: map<nat, seq<Event<T>>>,
                   left: map<nat, seq<Event<T>>>)
    requires Filed(log, before) && taken.Keys == (set k | k in log) && left.Keys == before.Keys - taken.Keys
    requires forall kind | kind in taken :: kind in before && taken[kind] == before[kind]
    requires forall kind | kind in left :: left[kind] == before[kind]
    ensures Filed(log, taken) && Merged(log, taken) == Merged(log, before) && Filed([], left)
  {
    forall kind | kind in left ensures left[kind] == [] {
      CountAbsent(log, kind);
    }
  }

  class EventBus<T> {
    var pending: map<nat, seq<Event<T>>>
    var batch: map<nat, seq<Event<T>>>
    var next: map<nat, nat>
    var log: seq<nat>
    var dispatching: seq<nat>
    var delivered: seq<Event<T>>

    predicate Valid()
      reads this
    {
      Filed(log, pending)
    }

    /** No dispatch is under way. */
    predicate Idle()
      reads this
    {
      dispatching == [] && batch == map[] && next == map[]
    }

    function Now(): Bus<T>
      reads this
      requires Valid()
    {
      Bus(delivered, Merged(log, pending))
    }

    constructor ()
      ensures Valid() && Idle() && Now() == Bus([], [])
    {
      pending, batch, next, log, dispatching, delivered := map[], map[], map[], [], [], [];
    }

    method Publish(e: Event<T>)
      requires Valid()
      modifies this`pending, this`log
      ensures Valid() && Now() == Bus(old(delivered), old(Now()).queue + [e])
    {
      MergedAppend(log, pending, e);
      var had := if e.kind in pending then pending[e.kind] else [];
      pending := pending[e.kind := had + [e]];
      log := log + [e.kind];
    }

    method PublishAll(events: seq<Event<T>>)
      requires Valid()
      modifies this`pending, this`log
      ensures Valid() && Now() == Bus(old(delivered), old(Now()).queue + events)
    {
      for i := 0 to |events|
        invariant Valid() && Now() == Bus(old(delivered), old(Now()).queue + events[..i])
      {
        assert events[..i + 1] == events[..i] + [events[i]];
        Publish(events[i]);
      }
      assert events[..|events|] == events;
    }

    /** Swaps the log and, once for each type in it, the type's pending vector for its batch. */
    method TakePending()
      requires Valid() && Idle()
      modifies this`pending, this`batch, this`log, this`dispatching
      ensures Valid() && log == [] && dispatching == old(log) && Filed(dispatching, batch)
      ensures Merged(dispatching, batch) == old(Now()).queue
      ensures forall kind :: ReadOf(kind) == 0
    {
      hide Merged;
      hide Count;
      dispatching, log := log, [];
      for i := 0 to |dispatching|
        invariant dispatching == old(log) && log == []
        invariant batch.Keys == (set k | k in dispatching[..i])
        invariant pending.Keys == old(pending).Keys - batch.Keys
        invariant forall kind | kind in batch :: kind in old(pending) && batch[kind] == old(pending)[kind]
        invariant forall kind | kind in pending :: pending[kind] == old(pending)[kind]
      {
        var kind := dispatching[i];
        if kind !in batch {
          batch, pending := batch[kind := pending[kind]], pending - {kind};
        }
      }
      assert dispatching[..|dispatching|] == dispatching;
      Swapped(dispatching, old(pending), batch, pending);
    }

    /** How far into its batch a type has been read. */
    function ReadOf(kind: nat): nat
      reads this
    {
      if kind in next then next[kind] else 0
    }

    predicate ReadUpTo(i: nat)
      reads this
      requires i <= |dispatching|
    {
      Filed(dispatching, batch) && forall kind | kind in batch :: ReadOf(kind) == Count(dispatching[..i], kind)
    }

    /** Hands the next event of the type of log entry i to its listeners. */
    method DispatchNext(i: nat, on: Listeners<T>) returns (threw: bool)
      requires Valid() && i < |dispatching| && ReadUpTo(i)
      modifies this`pending, this`log, this`next, this`delivered
      ensures Valid() && ReadUpTo(i + 1)
      ensures delivered == old(delivered) + [Merged(dispatching, batch)[i]] && threw == on(delivered).throws
      ensures Now().queue == old(Now()).queue + on(delivered).published
    {
      var kind := dispatching[i];
      CountPrefix(dispatching, i);
      var at := ReadOf(kind);
      delivered := delivered + [batch[kind][at]];
      next := next[kind := at + 1];
      var r := on(delivered);
      PublishAll(r.published);
      threw := r.throws;
    }

    /** Runs the listeners of everything published before the call, in publish order across types. */
    method Dispatch(on: Listeners<T>) returns (threw: bool)
      requires Valid() && Idle()
      modifies this
      ensures Valid() && Idle() && Now() == Dispatched(on, old(Now()))
    {
      hide Merged;
      hide Filed;
      threw := false;
      TakePending();
      ghost var all := Merged(dispatching, batch);
      assert Merged<T>([], pending) == [] && all[0..] == all;
      var n := |dispatching|;
      for i := 0 to n
        invariant |dispatching| == n && Valid() && !threw && ReadUpTo(i) && Merged(dispatching, batch) == all
        invariant Drain(on, delivered, all[i..], Now().queue) == Dispatched(on, old(Now()))
      {
        threw := DispatchNext(i, on);
        assert all[i..][0] == all[i] && all[i..][1..] == all[i + 1..];
        if threw {
          break;
        }
      }
      dispatching, batch, next := [], map[], map[];
    }
  }

  // ---- What a dispatch does -----------------------------------------------------------------------------------

  /** What listeners publish while `batch` is delivered after `delivered`. */
  function Reactions<T>(on: Listeners<T>, delivered: seq<Event<T>>, batch: seq<Event<T>>): seq<Event<T>>
    decreases |batch|
  {
    if batch == [] then [] else
      var now := delivered + [batch[0]];
      on(now).published + Reactions(on, now, batch[1..])
  }

  /** The index of the first event of the batch whose listeners throw, or the length of the batch. */
  function FirstThrow<T>(on: Listeners<T>, delivered: seq<Event<T>>, batch: seq<Event<T>>): (at: nat)
    ensures at <= |batch|
    decreases |batch|
  {
    if batch == [] || on(delivered + [batch[0]]).throws then 0
    else 1 + FirstThrow(on, delivered + [batch[0]], batch[1..])
  }

  /** A dispatch delivers what was queued, in order, up to and including the first event whose listeners throw. */
  lemma {:induction false} DrainDelivers<T>(on: Listeners<T>, delivered: seq<Event<T>>, batch: seq<Event<T>>,
                                            queue: seq<Event<T>>)
    ensures var at := FirstThrow(on, delivered, batch);
            var seen := if at < |batch| then batch[..at + 1] else batch;
            Drain(on, delivered, batch, queue) == Bus(delivered + seen, queue + Reactions(on, delivered, seen))
    decreases |batch|
  {
    if batch != [] {
      var now := delivered + [batch[0]];
      var r := on(now);
      var at := FirstThrow(on, delivered, batch);
      var seen := if at < |batch| then batch[..at + 1] else batch;
      assert seen[0] == batch[0];
      if r.throws {
        assert seen[1..] == [] && delivered + seen == now;
        assert Reactions(on, now, seen[1..]) == [];
      } else {
        DrainDelivers(on, now, batch[1..], queue + r.published);
        assert seen[1..] == (if at - 1 < |batch[1..]| then batch[1..][..at] else batch[1..]);
        assert now + seen[1..] == delivered + seen;
      }
    } else {
      assert delivered + batch == delivered && queue + [] == queue;
    }
  }

  datatype Op<T> = Publish(event: Event<T>) | Dispatch

  /** A bus together with everything ever published on it, in publish order. */
  datatype Logged<T> = Logged(bus: Bus<T>, published: seq<Event<T>>)

  function Apply<T>(on: Listeners<T>, s: Logged<T>, op: Op<T>): Logged<T> {
    match op
    case Publish(e) => Logged(s.bus.(queue := s.bus.queue + [e]), s.published + [e])
    case Dispatch =>
      var after := Dispatched(on, s.bus);
      Logged(after, s.published + after.queue)
  }

  function ApplyAll<T>(on: Listeners<T>, s: Logged<T>, ops: seq<Op<T>>): Logged<T>
    decreases |ops|
  {
    if ops == [] then s else ApplyAll(on, Apply(on, s, ops[0]), ops[1..])
  }

  /** No listener throws at any event of the run. */
  predicate Quiet<T>(on: Listeners<T>, s: Logged<T>, ops: seq<Op<T>>)
    decreases |ops|
  {
    ops != [] ==>
      (ops[0].Dispatch? ==> FirstThrow(on, s.bus.delivered, s.bus.queue) == |s.bus.queue|)
      && Quiet(on, Apply(on, s, ops[0]), ops[1..])
  }

  /** First in, first out over any run: what was delivered, then what is queued, is what was published, in publish
      order. */
  lemma {:induction false} BusIsFifo<T>(on: Listeners<T>, s: Logged<T>, ops: seq<Op<T>>)
    requires s.published == s.bus.delivered + s.bus.queue && Quiet(on, s, ops)
    ensures var r := ApplyAll(on, s, ops); r.published == r.bus.delivered + r.bus.queue
    decreases |ops|
  {
    if ops != [] {
      var t := Apply(on, s, ops[0]);
      if ops[0].Dispatch? {
        DrainDelivers(on, s.bus.delivered, s.bus.queue, []);
      }
      assert t.published == t.bus.delivered + t.bus.queue;
      BusIsFifo(on, t, ops[1..]);
    }
  }

  /** A dispatch loses events exactly when a listener throws before the last one. */
  lemma DispatchLosesIffThrown<T>(on: Listeners<T>, b: Bus<T>)
    ensures Dispatched(on, b).delivered == b.delivered + b.queue
            <==> FirstThrow(on, b.delivered, b.queue) + 1 >= |b.queue|
  {
    DrainDelivers(on, b.delivered, b.queue, []);
    var at := FirstThrow(on, b.delivered, b.queue);
    if at + 1 < |b.queue| {
      assert |b.delivered + b.queue[..at + 1]| < |b.delivered + b.queue|;
    } else if at < |b.queue| {
      assert b.queue[..at + 1] == b.queue;
    }
  }
}
