/** The movement system as it runs: sorted lists searched by bisection and edited in place, one event handled at a
    time. */
module MovementSystem {
  import opened Wrappers
  import opened Visibility
  import VisibilityIndex

  /** std::lower_bound: the first position whose id is not below `id`. */
  method LowerBound(ids: seq<nat>, id: nat) returns (at: nat)
    requires Sorted(ids)
    ensures at <= |ids|
    ensures (forall i | 0 <= i < at :: ids[i] < id) && (forall i | at <= i < |ids| :: id <= ids[i])
    ensures id in ids <==> at < |ids| && ids[at] == id
  {
    var low, high := 0, |ids|;
    while low < high
      invariant 0 <= low <= high <= |ids|
      invariant forall i | 0 <= i < low :: ids[i] < id
      invariant forall i | high <= i < |ids| :: id <= ids[i]
    {
      var mid := (low + high) / 2;
      if ids[mid] < id {
        low := mid + 1;
      } else {
        high := mid;
      }
    }
    at := low;
  }

  method Insert(ids: seq<nat>, id: nat) returns (added: bool, result: seq<nat>)
    requires Sorted(ids)
    ensures Sorted(result) && Elems(result) == Elems(ids) + {id} && added == (id !in ids)
  {
    var at := LowerBound(ids, id);
    if at < |ids| && ids[at] == id {
      return false, ids;
    }
    added, result := true, ids[..at] + [id] + ids[at..];
    assert ids == ids[..at] + ids[at..];
  }

  method Erase(ids: seq<nat>, id: nat) returns (erased: bool, result: seq<nat>)
    requires Sorted(ids)
    ensures Sorted(result) && Elems(result) == Elems(ids) - {id} && erased == (id in ids)
  {
    var at := LowerBound(ids, id);
    if at >= |ids| || ids[at] != id {
      return false, ids;
    }
    erased, result := true, ids[..at] + ids[at + 1..];
    assert ids == ids[..at] + [id] + ids[at + 1..];
  }

  lemma {:induction false} BatchesStep(full: seq<nat>, rest: seq<nat>)
    requires |full| == MAX_RECORDS
    ensures Batches(full + rest) == [OtherLoad(full)] + Batches(rest)
  {
    assert (full + rest)[..MAX_RECORDS] == full && (full + rest)[MAX_RECORDS..] == rest;
    if rest == [] {
      assert full + rest == full;
    }
  }

  /** Packs arrivals eleven to a message. */
  method Pack(arrived: seq<nat>) returns (messages: seq<Message>)
    ensures messages == Batches(arrived)
  {
    messages := [];
    var batch := [];
    assert batch + arrived[0..] == arrived;
    for i := 0 to |arrived|
      invariant |batch| < MAX_RECORDS
      invariant Batches(arrived) == messages + Batches(batch + arrived[i..])
    {
      assert batch + arrived[i..] == (batch + [arrived[i]]) + arrived[i + 1..];
      batch := batch + [arrived[i]];
      if |batch| == MAX_RECORDS {
        BatchesStep(batch, arrived[i + 1..]);
        messages := messages + [OtherLoad(batch)];
        batch := [];
        assert [] + arrived[i + 1..] == arrived[i + 1..];
      }
    }
    assert batch + arrived[|arrived|..] == batch;
    if batch != [] {
      messages := messages + [OtherLoad(batch)];
    }
  }

  method Find(ids: seq<nat>, id: nat) returns (at: nat)
    requires id in Elems(ids)
    ensures at < |ids| && ids[at] == id
  {
    at := 0;
    while ids[at] != id
      invariant at < |ids| && id in ids[at..]
      decreases |ids| - at
    {
      at := at + 1;
    }
  }

  /** The lists of the players, as sets. */
  function Loaded(visible: map<nat, seq<nat>>): map<nat, set<nat>> {
    map a | a in visible :: Elems(visible[a])
  }

  lemma LoadedNothing(lists: map<nat, seq<nat>>, id: nat)
    ensures Loaded(lists[id := []]) == Loaded(lists)[id := {}]
  {
    ElemsEmpty([]);
  }

  lemma LoadedWithout(lists: map<nat, seq<nat>>, id: nat)
    ensures Loaded(lists - {id}) == Loaded(lists) - {id}
  {
  }

  /** The lists of everyone but `a`, with `a` dropped from those in `out` and added to those in `into`. */
  predicate Relisted(was: map<nat, seq<nat>>, now: map<nat, seq<nat>>, a: nat, out: set<nat>, into: set<nat>) {
    now.Keys == was.Keys
    && forall b | b in was && b != a ::
         Elems(now[b]) == Elems(was[b]) - (if b in out then {a} else {}) + (if b in into then {a} else {})
  }

  lemma DropOne(was: map<nat, seq<nat>>, mid: map<nat, seq<nat>>, now: map<nat, seq<nat>>, a: nat, out: set<nat>,
                id: nat)
    requires Relisted(was, mid, a, out, {}) && id in mid && id != a
    requires now.Keys == mid.Keys && Elems(now[id]) == Elems(mid[id]) - {a}
    requires forall b | b in mid && b != id :: now[b] == mid[b]
    ensures Relisted(was, now, a, out + {id}, {}) && (id !in out ==> Elems(mid[id]) == Elems(was[id]))
  {
    hide Elems;
  }

  lemma DropNone(was: map<nat, seq<nat>>, now: map<nat, seq<nat>>, a: nat, out: set<nat>, id: nat)
    requires Relisted(was, now, a, out, {}) && id !in was
    ensures Relisted(was, now, a, out + {id}, {})
  {
    hide Elems;
  }

  lemma DropOwn(was: map<nat, seq<nat>>, now: map<nat, seq<nat>>, a: nat, out: set<nat>, own: seq<nat>)
    requires Relisted(was, now, a, out, {}) && a in was
    ensures Relisted(was, now[a := own], a, out, {})
  {
    hide Elems;
  }

  function Holders(lists: map<nat, seq<nat>>, a: nat): set<nat> {
    set b | b in lists && a in Elems(lists[b])
  }

  lemma HoldersHold(lists: map<nat, seq<nat>>, a: nat)
    ensures Holders(lists, a) <= lists.Keys && forall b | b in lists :: b in Holders(lists, a) <==> a in Elems(lists[b])
  {
  }

  lemma MutualLists(v: View, lists: map<nat, seq<nat>>, a: nat)
    requires Keyed(v) && Mutual(v) && IdsFresh(v) && a in v.zones && v.visible == Loaded(lists)
    ensures a !in Elems(lists[a]) && forall b | b in v.zones && b != a :: a in Elems(lists[b]) <==> b in Elems(lists[a])
  {
    hide Elems;
    assert forall b | b in v.zones :: v.visible[b] == Elems(lists[b]);
  }

  /** What the two halves of a synchronisation and the messages sent after it amount to. */
  lemma SyncedFrom(v: View, w: View, a: nat, arrived: seq<nat>, departed: seq<nat>)
    requires Keyed(v) && SameRest(v, w) && a in v.zones && Mutual(v) && a !in v.visible[a]
    requires w.visible[a] == Near(v.zones, a)
    requires forall b | b in v.zones && b != a ::
               w.visible[b] == if b in Near(v.zones, a) then v.visible[b] + {a} else v.visible[b] - {a}
    requires Distinct(arrived) && Elems(arrived) == Near(v.zones, a) - v.visible[a]
    requires Distinct(departed) && Elems(departed) == v.visible[a] - Near(v.zones, a)
    requires forall b | b in v.zones && b != a ::
               w.inbox[b] == v.inbox[b] + (if b in Elems(departed) then [Remove(a)] else [])
                             + (if b in Elems(arrived) then [New(a)] else [])
    requires w.inbox[a] == v.inbox[a] + ViewMessages(arrived, departed)
    ensures Synced(v, w, a)
  {
    hide Elems;
    hide Distinct;
    forall b | b in v.zones && b != a
      ensures w.visible[b] == (if Neighboring(v.zones[b], v.zones[a]) then v.visible[b] + {a} else v.visible[b] - {a})
      ensures w.inbox[b] == v.inbox[b] + Told(v.visible[b], w.visible[b], a)
    {
      assert b in Near(v.zones, a) <==> Neighboring(v.zones[b], v.zones[a]);
      assert b in v.visible[a] <==> a in v.visible[b];
    }
    assert ViewerTold(v.visible[a], w.visible[a], ViewMessages(arrived, departed));
  }

  /** The lists the first half of a synchronisation builds, after the ids in `seen`. */
  ghost predicate Dropping(near: set<nat>, here: set<nat>, seen: set<nat>, kept: seq<nat>, departed: seq<nat>,
                           lostSight: seq<nat>) {
    Elems(kept) == seen * near && Sorted(kept)
    && Elems(departed) == seen - near && Distinct(departed)
    && Elems(lostSight) == Elems(departed) * here && Distinct(lostSight)
  }

  lemma DroppingNothing(near: set<nat>, here: set<nat>, list: seq<nat>, was: map<nat, seq<nat>>, a: nat)
    ensures Dropping(near, here, Elems(list[..0]), [], [], []) && Relisted(was, was, a, Elems(list[..0]) - near, {})
  {
  }

  lemma DroppingDone(near: set<nat>, here: set<nat>, list: seq<nat>, kept: seq<nat>, departed: seq<nat>,
                     lostSight: seq<nat>)
    requires Dropping(near, here, Elems(list[..|list|]), kept, departed, lostSight)
    ensures Elems(list[..|list|]) == Elems(list)
    ensures Elems(kept) == Elems(list) * near && Sorted(kept)
    ensures Elems(departed) == Elems(list) - near && Distinct(departed)
    ensures Elems(lostSight) == Elems(departed) * here && Distinct(lostSight)
  {
    assert list[..|list|] == list;
  }

  lemma DroppingStays(near: set<nat>, here: set<nat>, seen: set<nat>, kept: seq<nat>, departed: seq<nat>,
                      lostSight: seq<nat>, id: nat)
    requires Dropping(near, here, seen, kept, departed, lostSight)
    requires id in near && forall b | b in seen :: b < id
    ensures Dropping(near, here, seen + {id}, kept + [id], departed, lostSight)
  {
    hide Elems;
    hide Sorted;
    ElemsAppend(kept, id);
  }

  lemma DroppingGoes(near: set<nat>, here: set<nat>, seen: set<nat>, kept: seq<nat>, departed: seq<nat>,
                     lostSight: seq<nat>, id: nat)
    requires Dropping(near, here, seen, kept, departed, lostSight)
    requires id !in near && id !in seen
    ensures Dropping(near, here, seen + {id}, kept, departed + [id], if id in here then lostSight + [id] else lostSight)
  {
    hide Elems;
    hide Sorted;
    hide Distinct;
    ElemsAppend(departed, id);
    ElemsAppend(lostSight, id);
  }

  /** What happens to a map; players are only asked to walk or leave while they are on it. */
  datatype Happening = Placed(zone: Zone) | Walks(id: nat, zone: Zone) | Leaves(id: nat) | Handling | Draining

  class Map {
    var order: seq<nat>
    var zones: map<nat, Zone>
    var visible: map<nat, seq<nat>>
    var inbox: map<nat, seq<Message>>
    var events: seq<Event>
    var nextId: nat
    const index: VisibilityIndex.VisibilityIndex

    /** The pool's dense order lists each player once; every list is sorted. */
    predicate Listed()
      reads this`order, this`zones, this`visible, this`inbox
    {
      Distinct(order) && Elems(order) == zones.Keys == visible.Keys == inbox.Keys
      && forall a | a in visible :: Sorted(visible[a])
    }

    /** And the index agrees with where the players are. */
    ghost predicate Valid()
      reads this, index, index.viewersByZone
    {
      Listed() && index.Agrees(zones)
    }

    function Now(): View
      reads this
    {
      View(zones, Loaded(visible), inbox, events, nextId)
    }

    constructor ()
      ensures Valid() && Consistent(Now()) && Now() == EMPTY_MAP && fresh(index) && fresh(index.viewersByZone)
    {
      index := new VisibilityIndex.VisibilityIndex();
      order, zones, visible, inbox, events, nextId := [], map[], map[], map[], [], 1;
    }

    method Spawn(zone: Zone)
      requires Valid() && nextId !in zones
      modifies this, index.viewersByZone
      ensures Valid() && Spawned(old(Now()), Now(), zone)
    {
      hide Elems, Sorted, Distinct, Neighboring, Loaded, Listed, VisibilityIndex.VisibilityIndex.Agrees;
      var id := nextId;
      AddPlayer(id, zone);
      LoadedNothing(old(visible), id);
      index.Add(id, zone, old(zones));
      events, nextId := events + [ZoneChange(id)], id + 1;
    }

    method AddPlayer(id: nat, zone: Zone)
      requires Listed() && id !in zones
      modifies this`order, this`zones, this`visible, this`inbox
      ensures Listed() && zones == old(zones)[id := zone]
      ensures visible == old(visible)[id := []] && inbox == old(inbox)[id := []]
    {
      hide Elems, Sorted, Distinct;
      ElemsAppend(order, id);
      ElemsEmpty([]);
      order := order + [id];
      zones, visible, inbox := zones[id := zone], visible[id := []], inbox[id := []];
    }

    method Move(id: nat, zone: Zone)
      requires Valid() && id in zones
      modifies this`zones, this`events, index.viewersByZone
      ensures Valid() && Walked(old(Now()), Now(), id, zone)
      ensures Consistent(old(Now())) && old(events) == [] ==> WalkComes(Now(), id)
    {
      hide VisibilityIndex.VisibilityIndex.Agrees, Consistent, WalkComes, Sorted, Distinct, Elems, Loaded;
      var from := zones[id];
      zones := zones[id := zone];
      if from != zone {
        index.Move(id, from, zone, old(zones));
        events := events + [ZoneChange(id)];
      } else {
        assert zones == old(zones);
      }
      events := events + [Walk(id)];
      if Consistent(old(Now())) && old(events) == [] {
        WalkStarts(old(Now()), Now(), id, zone);
      }
    }

    method Despawn(id: nat)
      requires Valid() && id in zones
      modifies this, index.viewersByZone
      ensures Valid() && Left(old(Now()), Now(), id)
    {
      hide Elems, Sorted, Distinct, Neighboring, Loaded, Listed, VisibilityIndex.VisibilityIndex.Agrees;
      var zone := zones[id];
      RemovePlayer(id);
      LoadedWithout(old(visible), id);
      index.Remove(id, zone, old(zones));
      events := events + [Gone(id)];
    }

    /** The last player of the dense order takes the freed position. */
    method RemovePlayer(id: nat)
      requires Listed() && id in zones
      modifies this`order, this`zones, this`visible, this`inbox
      ensures Listed() && zones == old(zones) - {id}
      ensures visible == old(visible) - {id} && inbox == old(inbox) - {id}
    {
      hide Elems, Sorted, Distinct;
      var at := Find(order, id);
      SwapPopElems(order, at);
      order := order[at := order[|order| - 1]][..|order| - 1];
      zones, visible, inbox := zones - {id}, visible - {id}, inbox - {id};
    }

    /** Everyone whose view includes the zone, each of them on the map; with nothing pending, these are the players
        standing there and those who have them loaded. */
    method ViewersOf(observed: Zone) returns (viewers: seq<nat>)
      requires Valid()
      ensures Distinct(viewers)
      ensures forall b :: b in viewers <==> VisibilityIndex.InGrid(observed) && b in zones
                                            && VisibilityIndex.InGrid(zones[b]) && Neighboring(zones[b], observed)
      ensures Consistent(Now()) && events == [] && VisibilityIndex.InGrid(observed)
              ==> forall a | a in zones && zones[a] == observed ::
                    Elems(viewers) == (set b | b in zones && VisibilityIndex.InGrid(zones[b])
                                               && (b == a || a in Elems(visible[b])))
                    && Replay({}, inbox[a]) == Some(Elems(visible[a]))
    {
      viewers := index.ViewersOf(observed, zones);
      if Consistent(Now()) && events == [] && VisibilityIndex.InGrid(observed) {
        forall a | a in zones && zones[a] == observed
          ensures Elems(viewers) == (set b | b in zones && VisibilityIndex.InGrid(zones[b])
                                             && (b == a || a in Elems(visible[b])))
                  && Replay({}, inbox[a]) == Some(Elems(visible[a]))
        {
          VisibilityIndex.IndexedViewersHaveLoaded(Now(), a, viewers);
        }
      }
    }

    predicate InView(a: nat, b: nat)
      reads this
      requires a in zones
    {
      b in zones && Neighboring(zones[b], zones[a])
    }

    /** Tells each listed player's client one message. */
    method Tell(to: seq<nat>, m: Message)
      requires Listed() && Distinct(to) && Elems(to) <= zones.Keys
      modifies this`inbox
      ensures Listed()
      ensures forall b | b in inbox :: inbox[b] == old(inbox[b]) + if b in Elems(to) then [m] else []
    {
      for i := 0 to |to|
        invariant inbox.Keys == old(inbox.Keys)
        invariant forall b | b in inbox :: inbox[b] == old(inbox[b]) + if b in Elems(to[..i]) then [m] else []
      {
        ElemsTake(to, i);
        assert to[i] in Elems(to);
        inbox := inbox[to[i] := inbox[to[i]] + [m]];
      }
      assert to[..|to|] == to;
    }

    /** Drops from `a`'s list everyone out of view or gone, and `a` from theirs. */
    method DropOutOfView(a: nat) returns (departed: seq<nat>, lostSight: seq<nat>)
      requires Listed() && a in zones && a !in Elems(visible[a])
      requires forall b | b in Elems(visible[a]) && b in zones :: a in Elems(visible[b])
      modifies this`visible
      ensures Listed()
      ensures Elems(visible[a]) == Elems(old(visible[a])) * Near(zones, a)
      ensures Relisted(old(visible), visible, a, Elems(old(visible[a])) - Near(zones, a), {})
      ensures Distinct(departed) && Elems(departed) == Elems(old(visible[a])) - Near(zones, a)
      ensures Distinct(lostSight) && Elems(lostSight) == Elems(departed) * zones.Keys
    {
      hide Relisted, Elems, Sorted, Distinct, Neighboring, Dropping;
      var list := visible[a];
      var kept;
      kept, departed, lostSight := [], [], [];
      DroppingNothing(Near(zones, a), zones.Keys, list, visible, a);
      for i := 0 to |list|
        invariant visible.Keys == zones.Keys && visible[a] == list && forall b | b in visible :: Sorted(visible[b])
        invariant Dropping(Near(zones, a), zones.Keys, Elems(list[..i]), kept, departed, lostSight)
        invariant Relisted(old(visible), visible, a, Elems(list[..i]) - Near(zones, a), {})
      {
        ghost var mid, seen := visible, Elems(list[..i]);
        var id := list[i];
        ElemsTake(list, i);
        if InView(a, id) {
          DroppingStays(Near(zones, a), zones.Keys, seen, kept, departed, lostSight, id);
          kept := kept + [id];
          assert seen + {id} - Near(zones, a) == seen - Near(zones, a);
        } else {
          DroppingGoes(Near(zones, a), zones.Keys, seen, kept, departed, lostSight, id);
          departed := departed + [id];
          if id in zones {
            var erased := Unlist(id, a);
            DropOne(old(visible), mid, visible, a, seen - Near(zones, a), id);
            if erased {
              lostSight := lostSight + [id];
            }
          } else {
            DropNone(old(visible), visible, a, seen - Near(zones, a), id);
          }
          assert seen + {id} - Near(zones, a) == seen - Near(zones, a) + {id};
        }
      }
      DroppingDone(Near(zones, a), zones.Keys, list, kept, departed, lostSight);
      DropOwn(old(visible), visible, a, Elems(list) - Near(zones, a), kept);
      visible := visible[a := kept];
    }

    /** Drops `a` from the list of `id`. */
    method Unlist(id: nat, a: nat) returns (erased: bool)
      requires Listed() && id in zones
      modifies this`visible
      ensures Listed() && erased == (a in Elems(old(visible[id])))
      ensures Elems(visible[id]) == Elems(old(visible[id])) - {a}
      ensures forall b | b in visible && b != id :: visible[b] == old(visible[b])
    {
      var rest;
      erased, rest := Erase(visible[id], a);
      visible := visible[id := rest];
    }

    /** Adds `a` to the list of `id`. */
    method List(id: nat, a: nat) returns (added: bool)
      requires Listed() && id in zones
      modifies this`visible
      ensures Listed() && added == (a !in Elems(old(visible[id])))
      ensures Elems(visible[id]) == Elems(old(visible[id])) + {a}
      ensures forall b | b in visible && b != id :: visible[b] == old(visible[b])
    {
      var more;
      added, more := Insert(visible[id], a);
      visible := visible[id := more];
    }

    /** Adds to `a`'s list everyone in view it does not hold yet, and `a` to theirs. */
    method AddInView(a: nat) returns (arrived: seq<nat>, gainedSight: seq<nat>)
      requires Listed() && a in zones && Elems(visible[a]) <= Near(zones, a)
      requires forall b | b in zones && b != a :: a in Elems(visible[b]) <==> b in Elems(visible[a])
      modifies this`visible
      ensures Listed()
      ensures Elems(visible[a]) == Near(zones, a)
      ensures Relisted(old(visible), visible, a, {}, Near(zones, a) - Elems(old(visible[a])))
      ensures Distinct(arrived) && Elems(arrived) == Near(zones, a) - Elems(old(visible[a]))
      ensures gainedSight == arrived
    {
      hide Elems, Sorted, Distinct, Neighboring;
      arrived, gainedSight := [], [];
      ElemsEmpty(order);
      ghost var near, had := Near(zones, a), Elems(visible[a]);
      for i := 0 to |order|
        invariant visible.Keys == zones.Keys && forall b | b in visible :: Sorted(visible[b])
        invariant Elems(arrived) == Elems(order[..i]) * near - had && Distinct(arrived)
        invariant gainedSight == arrived
        invariant Elems(visible[a]) == had + Elems(arrived)
        invariant Relisted(old(visible), visible, a, {}, Elems(arrived))
      {
        var id := order[i];
        ElemsTake(order, i);
        ElemsHas(visible[a], id);
        if id != a && id !in visible[a] && InView(a, id) {
          assert id in near && id !in had && id !in Elems(arrived);
          ElemsAppend(arrived, id);
          var _ := List(a, id);
          arrived := arrived + [id];
          var added := List(id, a);
          if added {
            gainedSight := gainedSight + [id];
          }
        }
      }
      assert Elems(order) * near == near;
    }

    /** Both halves of the synchronisation, on lists that were mutual. */
    method SyncVisiblePlayers(a: nat) returns (arrived: seq<nat>, departed: seq<nat>, lostSight: seq<nat>,
                                               gainedSight: seq<nat>)
      requires Listed() && a in zones && a !in Elems(visible[a])
      requires forall b | b in zones && b != a :: a in Elems(visible[b]) <==> b in Elems(visible[a])
      modifies this`visible
      ensures Listed() && Elems(visible[a]) == Near(zones, a) <= zones.Keys - {a}
      ensures forall b | b in zones && b != a ::
                Elems(visible[b])
                == if b in Near(zones, a) then Elems(old(visible[b])) + {a} else Elems(old(visible[b])) - {a}
      ensures Distinct(arrived) && Elems(arrived) == Near(zones, a) - Elems(old(visible[a])) && gainedSight == arrived
      ensures Distinct(departed) && Elems(departed) == Elems(old(visible[a])) - Near(zones, a)
      ensures Distinct(lostSight) && Elems(lostSight) == Elems(departed) * zones.Keys
    {
      hide Elems, Sorted, Distinct, Neighboring;
      departed, lostSight := DropOutOfView(a);
      arrived, gainedSight := AddInView(a);
      assert Near(zones, a) - Elems(old(visible[a])) * Near(zones, a) == Near(zones, a) - Elems(old(visible[a]));
    }

    /** Rebuilds the view around the player of the oldest event. */
    method SendViewChange()
      requires Valid() && Consistent(Now()) && events != [] && events[0].ZoneChange?
      modifies this`visible, this`inbox, this`events
      ensures Valid() && Handled(old(Now()), Now())
    {
      hide Elems, Sorted, Distinct, Neighboring, Near, Batches, Synced, Mutual, IdsFresh, StalePairsPending,
          DeparturesPending, ClientsAgree;
      var a := events[0].id;
      events := events[1..];
      if a !in zones {
        return;
      }
      ghost var v := old(Now());
      assert v.zones == zones && Keyed(v);
      MutualLists(v, visible, a);
      var arrived, departed, lostSight, gainedSight := SyncVisiblePlayers(a);
      Announce(a, arrived, departed, lostSight, gainedSight);
      SyncedFrom(v, Now(), a, arrived, departed);
    }

    /** The messages of a view change: to those who lost or gained sight of `a`, then to `a` itself. */
    method Announce(a: nat, arrived: seq<nat>, departed: seq<nat>, lostSight: seq<nat>, gainedSight: seq<nat>)
      requires Listed() && a in zones && Distinct(lostSight) && Distinct(gainedSight)
               && a !in Elems(lostSight) + Elems(gainedSight)
      requires Elems(lostSight) <= zones.Keys && Elems(gainedSight) <= zones.Keys
      modifies this`inbox
      ensures Listed()
      ensures forall b | b in inbox && b != a ::
                inbox[b] == old(inbox[b]) + (if b in Elems(lostSight) then [Remove(a)] else [])
                            + (if b in Elems(gainedSight) then [New(a)] else [])
      ensures inbox[a] == old(inbox[a]) + ViewMessages(arrived, departed)
    {
      hide Elems, Sorted, Distinct, Batches;
      Tell(lostSight, Remove(a));
      assert inbox[a] == old(inbox[a]);
      Tell(gainedSight, New(a));
      assert inbox[a] == old(inbox[a]);
      var sent := Pack(arrived);
      if departed != [] {
        sent := sent + [RemoveAll(departed)];
      }
      inbox := inbox[a := inbox[a] + sent];
    }

    /** Drops a departed player from every list and tells the clients that had it loaded. */
    method SendCharRemove()
      requires Valid() && events != [] && events[0].Gone?
      modifies this`visible, this`inbox, this`events
      ensures Valid() && Handled(old(Now()), Now())
    {
      hide Elems, Sorted, Distinct;
      var a := events[0].id;
      events := events[1..];
      var viewers := EraseEverywhere(a);
      Tell(viewers, Remove(a));
    }

    method EraseEverywhere(a: nat) returns (viewers: seq<nat>)
      requires Listed()
      modifies this`visible
      ensures Listed() && forall b | b in visible :: Elems(visible[b]) == Elems(old(visible[b])) - {a}
      ensures Distinct(viewers) && Elems(viewers) == Holders(old(visible), a) <= zones.Keys
    {
      hide Elems, Sorted, Distinct, Holders;
      viewers := [];
      ElemsEmpty(order);
      HoldersHold(visible, a);
      for i := 0 to |order|
        invariant visible.Keys == zones.Keys && forall b | b in visible :: Sorted(visible[b])
        invariant forall b | b in visible ::
                    Elems(visible[b])
                    == if b in Elems(order[..i]) then Elems(old(visible[b])) - {a} else Elems(old(visible[b]))
        invariant Distinct(viewers) && Elems(viewers) == Elems(order[..i]) * Holders(old(visible), a)
      {
        var id := order[i];
        ElemsTake(order, i);
        var erased := Unlist(id, a);
        if erased {
          ElemsAppend(viewers, id);
          viewers := viewers + [id];
        }
      }
    }

    /** The walker first, then the listed players still here. */
    method SendCharMove() returns (recipients: seq<nat>)
      requires Valid() && events != [] && events[0].Walk?
      modifies this`events
      ensures Valid() && Handled(old(Now()), Now())
      ensures events == old(events[1..])
      ensures if old(events[0].id) in zones then Elems(recipients) == Recipients(Now(), old(events[0].id))
              else recipients == []
      ensures var a := old(events[0].id);
              WalkComes(old(Now()), a) ==> a in zones && Elems(recipients) == {a} + Near(zones, a)
    {
      hide Elems, Sorted, Distinct, Neighboring;
      var a := events[0].id;
      events := events[1..];
      assert Loaded(visible) == old(Loaded(visible));
      if a !in zones {
        return [];
      }
      ElemsEmpty(visible[a]);
      ElemsAppend([], a);
      assert [] + [a] == [a];
      recipients := [a];
      for i := 0 to |visible[a]|
        invariant events == old(events[1..])
        invariant Elems(recipients) == {a} + Elems(visible[a][..i]) * zones.Keys
      {
        var id := visible[a][i];
        ElemsTake(visible[a], i);
        if id in zones {
          ElemsAppend(recipients, id);
          recipients := recipients + [id];
        }
      }
      assert {a} + Elems(visible[a]) * zones.Keys == Recipients(Now(), a);
      if WalkComes(old(Now()), a) {
        NearReceive(old(Now()), a);
      }
    }

    /** The oldest event goes to its listener. */
    method HandleNext()
      requires Valid() && Consistent(Now()) && events != []
      modifies this`visible, this`inbox, this`events
      ensures Valid() && Consistent(Now()) && Handled(old(Now()), Now()) && events == old(events[1..])
      ensures old(events[0]).ZoneChange? && WalkComes(old(Now()), old(events[0].id))
              ==> WalkComes(Now(), old(events[0].id)) && events == [Walk(old(events[0].id))] && zones == old(zones)
    {
      hide Elems, Sorted, Distinct, Consistent, Synced, Forgotten;
      match events[0] {
        case ZoneChange(_) => SendViewChange();
        case Walk(_) => var _ := SendCharMove();
        case Gone(_) => SendCharRemove();
      }
      HandledKeepsConsistent(old(Now()), Now());
      if old(events[0]).ZoneChange? && WalkComes(old(Now()), old(events[0].id)) {
        WalkIsNext(old(Now()), Now(), old(events[0].id));
      }
    }

    /** Once everything queued has been handled, every list and every client holds exactly the players around. */
    method Dispatch()
      requires Valid() && Consistent(Now())
      modifies this`visible, this`inbox, this`events
      ensures Valid() && Consistent(Now()) && events == []
      ensures forall a | a in zones ::
                Elems(visible[a]) == Near(zones, a) && Replay({}, inbox[a]) == Some(Near(zones, a))
    {
      while events != []
        invariant Valid() && Consistent(Now())
        decreases |events|
      {
        HandleNext();
      }
      DrainedIsExact(Now());
      forall a | a in zones
        ensures Elems(visible[a]) == Near(zones, a) && Replay({}, inbox[a]) == Some(Near(zones, a))
      {
        assert Now().visible[a] == Elems(visible[a]);
      }
    }

    /** Whatever happens to a map, in any order: its lists, its clients and its index stay explained by what is
        pending. */
    method Live(happenings: seq<Happening>)
      requires Valid() && Consistent(Now())
      modifies this, index.viewersByZone
      ensures Valid() && Consistent(Now())
      ensures happenings != [] && happenings[|happenings| - 1].Draining?
              ==> forall a | a in zones ::
                    Elems(visible[a]) == Near(zones, a) && Replay({}, inbox[a]) == Some(Near(zones, a))
    {
      for i := 0 to |happenings|
        invariant Valid() && Consistent(Now())
        invariant i > 0 && happenings[i - 1].Draining? ==> events == []
      {
        Undergo(happenings[i]);
      }
      if events == [] {
        DrainedIsExact(Now());
        forall a | a in zones
          ensures Elems(visible[a]) == Near(zones, a) && Replay({}, inbox[a]) == Some(Near(zones, a))
        {
          assert Now().visible[a] == Elems(visible[a]);
        }
      }
    }

    method Undergo(h: Happening)
      requires Valid() && Consistent(Now())
      modifies this, index.viewersByZone
      ensures Valid() && Consistent(Now()) && (h.Draining? ==> events == [])
    {
      hide Elems, Sorted, Distinct, Neighboring, Loaded, Listed, IdsFresh, Mutual, StalePairsPending, DeparturesPending,
          ClientsAgree, Handled, VisibilityIndex.VisibilityIndex.Agrees;
      ghost var before := Now();
      match h {
        case Placed(zone) =>
          NextIdIsFree(Now());
          Spawn(zone);
          SpawnKeepsConsistent(before, Now(), zone);
        case Walks(id, zone) =>
          if id in zones {
            Move(id, zone);
            WalkKeepsConsistent(before, Now(), id, zone);
          }
        case Leaves(id) =>
          if id in zones {
            Despawn(id);
            LeaveKeepsConsistent(before, Now(), id);
          }
        case Handling =>
          if events != [] {
            HandleNext();
          }
        case Draining => Dispatch();
      }
    }
  }

  lemma NextIdIsFree(v: View)
    requires Consistent(v)
    ensures v.nextId !in v.zones
  {
  }

  lemma SwapPopElems(ids: seq<nat>, at: nat)
    requires Distinct(ids) && at < |ids|
    ensures var left := ids[at := ids[|ids| - 1]][..|ids| - 1]; Distinct(left) && Elems(left) == Elems(ids) - {ids[at]}
  {
    var last := |ids| - 1;
    var left := ids[at := ids[last]][..last];
    forall id | id in Elems(ids) - {ids[at]} ensures id in Elems(left) {
      var k :| 0 <= k <= last && ids[k] == id;
      assert left[if k == last then at else k] == id;
    }
  }
}
