/** Zones of the map's grid and the index from each zone to the players whose view includes it. */
module VisibilityIndex {
  import opened Visibility
  import opened Wrappers

  const GRID_SIZE := 512
  const ZONE_SIZE := 16
  const ZONES_PER_SIDE := GRID_SIZE / ZONE_SIZE
  const ZONE_COUNT := ZONES_PER_SIDE * ZONES_PER_SIDE

  function ZoneOf(x: nat, y: nat): Zone {
    Zone(x / ZONE_SIZE, y / ZONE_SIZE)
  }

  predicate InGrid(z: Zone) {
    0 <= z.x < ZONES_PER_SIDE && 0 <= z.y < ZONES_PER_SIDE
  }

  function Index(z: Zone): (i: int) {
    z.y * ZONES_PER_SIDE + z.x
  }

  function ZoneAt(i: nat): Zone {
    Zone(i % ZONES_PER_SIDE, i / ZONES_PER_SIDE)
  }

  /** Zones of the grid and slots of the index correspond one to one. */
  lemma IndexInverts(z: Zone, i: nat)
    ensures InGrid(z) ==> 0 <= Index(z) < ZONE_COUNT && ZoneAt(Index(z)) == z
    ensures i < ZONE_COUNT ==> InGrid(ZoneAt(i)) && Index(ZoneAt(i)) == i
  {
    if InGrid(z) {
      assert Index(z) == 32 * z.y + z.x;
      assert (32 * z.y + z.x) / 32 == z.y;
    }
  }

  /** A position is on the map's grid exactly when its zone is on the zone grid. */
  lemma OnGridIffZoneIs(x: nat, y: nat)
    ensures InGrid(ZoneOf(x, y)) <==> x < GRID_SIZE && y < GRID_SIZE
  {
  }

  /** Tiles at most a zone's side apart are in each other's view; tiles two sides apart or more are not. */
  lemma TilesInView(x: nat, y: nat, u: nat, v: nat)
    ensures -16 <= x - u <= 16 && -16 <= y - v <= 16 ==> Neighboring(ZoneOf(x, y), ZoneOf(u, v))
    ensures Neighboring(ZoneOf(x, y), ZoneOf(u, v)) ==> -32 < x - u < 32 && -32 < y - v < 32
  {
  }

  /** The block of zones around one, clipped to the grid. */
  method Around(zone: Zone) returns (zones: seq<Zone>)
    ensures forall z :: z in zones <==> InGrid(z) && Neighboring(z, zone)
    ensures forall i, j | 0 <= i < j < |zones| :: zones[i] != zones[j]
  {
    zones := [];
    for dy := -1 to 2
      invariant forall z :: z in zones <==> InGrid(z) && Neighboring(z, zone) && z.y < zone.y + dy
      invariant forall i, j | 0 <= i < j < |zones| :: zones[i] != zones[j]
    {
      for dx := -1 to 2
        invariant forall z :: z in zones <==> InGrid(z) && Neighboring(z, zone)
                                              && (z.y < zone.y + dy || (z.y == zone.y + dy && z.x < zone.x + dx))
        invariant forall i, j | 0 <= i < j < |zones| :: zones[i] != zones[j]
      {
        var neighbor := Zone(zone.x + dx, zone.y + dy);
        if InGrid(neighbor) {
          zones := zones + [neighbor];
        }
      }
    }
  }

  /** The players whose view includes the zone, each listed once. */
  ghost predicate Lists(viewers: seq<nat>, placed: map<nat, Zone>, z: Zone) {
    Distinct(viewers)
    && forall id :: id in viewers <==> id in placed && InGrid(placed[id]) && Neighboring(placed[id], z)
  }

  lemma ListsAfterAdd(before: seq<nat>, after: seq<nat>, placed: map<nat, Zone>, id: nat, zone: Zone, z: Zone)
    requires Lists(before, placed, z) && id !in placed && Distinct(after)
    requires Elems(after) == Elems(before) + if InGrid(zone) && Neighboring(zone, z) then {id} else {}
    ensures Lists(after, placed[id := zone], z)
  {
    forall v ensures v in after <==> v in before || (v == id && InGrid(zone) && Neighboring(zone, z)) {
      assert v in after <==> v in Elems(after);
      assert v in before <==> v in Elems(before);
    }
  }

  lemma ListsAfterRemove(before: seq<nat>, after: seq<nat>, placed: map<nat, Zone>, id: nat, z: Zone)
    requires Lists(before, placed, z) && id in placed && Distinct(after)
    requires Elems(after) == Elems(before) - if InGrid(placed[id]) && Neighboring(placed[id], z) then {id} else {}
    ensures Lists(after, placed - {id}, z)
  {
    forall v ensures v in after <==> v in before && v != id {
      assert v in after <==> v in Elems(after);
      assert v in before <==> v in Elems(before);
    }
  }

  method Insert(viewers: seq<nat>, id: nat) returns (result: seq<nat>)
    requires Distinct(viewers)
    ensures Distinct(result) && Elems(result) == Elems(viewers) + {id}
  {
    result := if id in viewers then viewers else viewers + [id];
  }

  /** std::erase: every occurrence goes, the rest keep their order. */
  method Erase(viewers: seq<nat>, id: nat) returns (result: seq<nat>)
    requires Distinct(viewers)
    ensures Distinct(result) && Elems(result) == Elems(viewers) - {id}
  {
    hide Elems, Distinct;
    result := [];
    ElemsEmpty(viewers);
    for i := 0 to |viewers|
      invariant Distinct(result) && Elems(result) == Elems(viewers[..i]) - {id}
    {
      ElemsTake(viewers, i);
      if viewers[i] != id {
        ElemsAppend(result, viewers[i]);
        result := result + [viewers[i]];
      }
    }
  }

  class VisibilityIndex {
    const viewersByZone: array<seq<nat>>

    /** The index agrees with where the players are. */
    ghost predicate Agrees(placed: map<nat, Zone>)
      reads this, viewersByZone
    {
      viewersByZone.Length == ZONE_COUNT
      && forall i | 0 <= i < ZONE_COUNT :: Lists(viewersByZone[i], placed, ZoneAt(i))
    }

    constructor ()
      ensures Agrees(map[]) && fresh(viewersByZone)
    {
      viewersByZone := new seq<nat>[ZONE_COUNT](_ => []);
    }

    method Add(id: nat, zone: Zone, ghost placed: map<nat, Zone>)
      requires Agrees(placed) && id !in placed
      modifies viewersByZone
      ensures Agrees(placed[id := zone])
    {
      hide Lists, Elems, InGrid, Neighboring, ZoneAt, Index;
      ListsDistinct(viewersByZone[..], placed);
      if InGrid(zone) {
        var zones := Around(zone);
        for k := 0 to |zones|
          invariant forall i | 0 <= i < ZONE_COUNT :: Distinct(viewersByZone[i])
          invariant forall i | 0 <= i < ZONE_COUNT ::
                      Elems(viewersByZone[i])
                      == Elems(old(viewersByZone[i])) + if ZoneAt(i) in zones[..k] then {id} else {}
        {
          assert zones[..k + 1] == zones[..k] + [zones[k]] && zones[k] in zones;
          var at := Index(zones[k]);
          IndexInverts(zones[k], 0);
          viewersByZone[at] := Insert(viewersByZone[at], id);
          forall i | 0 <= i < ZONE_COUNT && i != at ensures ZoneAt(i) != zones[k] {
            IndexInverts(zones[k], i);
          }
        }
        assert zones[..|zones|] == zones;
      }
      forall i | 0 <= i < ZONE_COUNT ensures Lists(viewersByZone[i], placed[id := zone], ZoneAt(i)) {
        IndexInverts(zone, i);
        NeighboringBothWays(zone, ZoneAt(i));
        ListsAfterAdd(old(viewersByZone[i]), viewersByZone[i], placed, id, zone, ZoneAt(i));
      }
    }

    method Remove(id: nat, zone: Zone, ghost placed: map<nat, Zone>)
      requires Agrees(placed) && id in placed && placed[id] == zone
      modifies viewersByZone
      ensures Agrees(placed - {id})
    {
      hide Lists, Elems, InGrid, Neighboring, ZoneAt, Index;
      ListsDistinct(viewersByZone[..], placed);
      if InGrid(zone) {
        var zones := Around(zone);
        for k := 0 to |zones|
          invariant forall i | 0 <= i < ZONE_COUNT :: Distinct(viewersByZone[i])
          invariant forall i | 0 <= i < ZONE_COUNT ::
                      Elems(viewersByZone[i])
                      == Elems(old(viewersByZone[i])) - if ZoneAt(i) in zones[..k] then {id} else {}
        {
          assert zones[..k + 1] == zones[..k] + [zones[k]] && zones[k] in zones;
          var at := Index(zones[k]);
          IndexInverts(zones[k], 0);
          viewersByZone[at] := Erase(viewersByZone[at], id);
          forall i | 0 <= i < ZONE_COUNT && i != at ensures ZoneAt(i) != zones[k] {
            IndexInverts(zones[k], i);
          }
        }
        assert zones[..|zones|] == zones;
      }
      forall i | 0 <= i < ZONE_COUNT ensures Lists(viewersByZone[i], placed - {id}, ZoneAt(i)) {
        IndexInverts(zone, i);
        NeighboringBothWays(zone, ZoneAt(i));
        ListsAfterRemove(old(viewersByZone[i]), viewersByZone[i], placed, id, ZoneAt(i));
      }
    }

    method Move(id: nat, from: Zone, to: Zone, ghost placed: map<nat, Zone>)
      requires Agrees(placed) && id in placed && placed[id] == from
      modifies viewersByZone
      ensures Agrees(placed[id := to])
    {
      if from == to {
        assert placed[id := to] == placed;
        return;
      }
      Remove(id, from, placed);
      Add(id, to, placed - {id});
      assert (placed - {id})[id := to] == placed[id := to];
    }

    method ViewersOf(observed: Zone, ghost placed: map<nat, Zone>) returns (viewers: seq<nat>)
      requires Agrees(placed)
      ensures if InGrid(observed) then Lists(viewers, placed, observed) else viewers == []
    {
      IndexInverts(observed, 0);
      viewers := if InGrid(observed) then viewersByZone[Index(observed)] else [];
    }
  }

  lemma ListsDistinct(cells: seq<seq<nat>>, placed: map<nat, Zone>)
    requires |cells| == ZONE_COUNT && forall i | 0 <= i < ZONE_COUNT :: Lists(cells[i], placed, ZoneAt(i))
    ensures forall i | 0 <= i < ZONE_COUNT :: Distinct(cells[i])
  {
  }

  lemma NeighboringBothWays(a: Zone, b: Zone)
    ensures Neighboring(a, b) == Neighboring(b, a)
  {
  }

  /** Once the events have drained, the players indexed under a player's zone are, as far as they are on the grid,
      that player and those who have it loaded. */
  lemma IndexedViewersHaveLoaded(v: View, a: nat, viewers: seq<nat>)
    requires Consistent(v) && v.events == [] && a in v.zones && InGrid(v.zones[a])
             && Lists(viewers, v.zones, v.zones[a])
    ensures Elems(viewers) == set b | b in v.zones && InGrid(v.zones[b]) && (b == a || a in v.visible[b])
    ensures Replay({}, v.inbox[a]) == Some(v.visible[a])
  {
    assert forall e :: !Pending(v, e);
    forall b ensures b in Elems(viewers) <==> b in v.zones && InGrid(v.zones[b]) && (b == a || a in v.visible[b]) {
      ElemsHas(viewers, b);
    }
  }
}
