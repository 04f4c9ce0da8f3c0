/** Who sees whom: zone adjacency, the per-player lists the movement system keeps, and what each client has been
    told. */
module Visibility {
  import opened Wrappers

  datatype Zone = Zone(x: int, y: int)

  predicate Neighboring(a: Zone, b: Zone) {
    -1 <= a.x - b.x <= 1 && -1 <= a.y - b.y <= 1
  }

  /** Player messages about other players; the owner is the client that receives them. */
  datatype Message =
    | OtherLoad(ids: seq<nat>)
    | New(id: nat)
    | Remove(id: nat)
    | RemoveAll(ids: seq<nat>)

  const MAX_RECORDS := 11

  datatype Event =
    | ZoneChange(id: nat)
    | Walk(id: nat)
    | Gone(id: nat)

  /** A map's players: zone of each, the ids its client has loaded, and every message sent to it since it was placed. */
  datatype View = View(zones: map<nat, Zone>, visible: map<nat, set<nat>>, inbox: map<nat, seq<Message>>,
                       events: seq<Event>, nextId: nat)

  function Elems(ids: seq<nat>): set<nat> {
    set id | id in ids
  }

  predicate Distinct(ids: seq<nat>) {
    forall i, j | 0 <= i < j < |ids| :: ids[i] != ids[j]
  }

  predicate Sorted(ids: seq<nat>) {
    forall i, j | 0 <= i < j < |ids| :: ids[i] < ids[j]
  }

  lemma ElemsTake(ids: seq<nat>, i: nat)
    requires i < |ids|
    ensures Elems(ids[..i + 1]) == Elems(ids[..i]) + {ids[i]}
    ensures ids[i] in Elems(ids)
    ensures Distinct(ids) ==> ids[i] !in Elems(ids[..i])
    ensures Sorted(ids) ==> forall b | b in Elems(ids[..i]) :: b < ids[i]
  {
    assert ids[..i + 1] == ids[..i] + [ids[i]];
  }

  lemma ElemsAppend(ids: seq<nat>, id: nat)
    ensures Elems(ids + [id]) == Elems(ids) + {id}
    ensures Distinct(ids) && id !in Elems(ids) ==> Distinct(ids + [id])
    ensures Sorted(ids) ==> Distinct(ids)
    ensures Sorted(ids) && (forall b | b in Elems(ids) :: b < id) ==> Sorted(ids + [id])
  {
    assert forall i | 0 <= i < |ids| :: ids[i] in Elems(ids);
  }

  lemma ElemsEmpty(ids: seq<nat>)
    ensures Elems([]) == Elems(ids[..0]) == {} && ids[..|ids|] == ids
    ensures Sorted([]) && Distinct([])
  {
  }

  lemma ElemsHas(ids: seq<nat>, id: nat)
    ensures id in ids <==> id in Elems(ids)
  {
  }

  // ---- The client's side ---------------------------------------------------------------------------------

  /** What a client has loaded after a message; None if the message loads something twice or removes what is not
      there. */
  function Receive(loaded: set<nat>, m: Message): Option<set<nat>> {
    match m
    case OtherLoad(ids) =>
      if 1 <= |ids| <= MAX_RECORDS && Distinct(ids) && loaded !! Elems(ids) then Some(loaded + Elems(ids)) else None
    case New(id) => if id !in loaded then Some(loaded + {id}) else None
    case Remove(id) => if id in loaded then Some(loaded - {id}) else None
    case RemoveAll(ids) => if Distinct(ids) && Elems(ids) <= loaded then Some(loaded - Elems(ids)) else None
  }

  function Replay(loaded: set<nat>, ms: seq<Message>): Option<set<nat>>
    decreases |ms|
  {
    if ms == [] then Some(loaded)
    else
      var next := Receive(loaded, ms[0]);
      if next.None? then None else Replay(next.value, ms[1..])
  }

  lemma {:induction false} ReplayConcat(loaded: set<nat>, a: seq<Message>, b: seq<Message>)
    ensures Replay(loaded, a + b) == (var r := Replay(loaded, a); if r.None? then None else Replay(r.value, b))
    decreases |a|
  {
    if a == [] {
      assert a + b == b;
    } else {
      assert (a + b)[1..] == a[1..] + b;
      if Receive(loaded, a[0]).Some? {
        ReplayConcat(Receive(loaded, a[0]).value, a[1..], b);
      }
    }
  }

  lemma ReplayOne(loaded: set<nat>, m: Message)
    ensures Replay(loaded, [m]) == Receive(loaded, m)
  {
    assert [m][1..] == [];
  }

  /** Arrivals are sent in batches of at most eleven. */
  function Batches(arrived: seq<nat>): seq<Message>
    decreases |arrived|
  {
    if arrived == [] then []
    else if |arrived| <= MAX_RECORDS then [OtherLoad(arrived)]
    else [OtherLoad(arrived[..MAX_RECORDS])] + Batches(arrived[MAX_RECORDS..])
  }

  lemma {:induction false} BatchesLoad(loaded: set<nat>, arrived: seq<nat>)
    requires Distinct(arrived) && loaded !! Elems(arrived)
    ensures Replay(loaded, Batches(arrived)) == Some(loaded + Elems(arrived))
    decreases |arrived|
  {
    if |arrived| > MAX_RECORDS {
      var head, rest := arrived[..MAX_RECORDS], arrived[MAX_RECORDS..];
      assert arrived == head + rest;
      assert Elems(arrived) == Elems(head) + Elems(rest);
      assert forall id | id in Elems(head) :: id !in rest;
      BatchesLoad(loaded + Elems(head), rest);
      assert Batches(arrived)[1..] == Batches(rest);
      assert loaded + Elems(head) + Elems(rest) == loaded + Elems(arrived);
    } else if arrived != [] {
      ReplayOne(loaded, OtherLoad(arrived));
    } else {
      assert Elems(arrived) == {} && loaded + {} == loaded;
    }
  }

  /** Every batch but the last is full, and there are no more batches than needed. */
  lemma {:induction false} BatchesAreFull(arrived: seq<nat>)
    ensures var ms := Batches(arrived);
            (forall i | 0 <= i < |ms| :: ms[i].OtherLoad?)
            && (forall i | 0 <= i < |ms| - 1 :: |ms[i].ids| == MAX_RECORDS)
            && |ms| == (|arrived| + MAX_RECORDS - 1) / MAX_RECORDS
    decreases |arrived|
  {
    if |arrived| > MAX_RECORDS {
      BatchesAreFull(arrived[MAX_RECORDS..]);
    }
  }

  // ---- Steps on the map -------------------------------------------------------------------------------------

  /** The other players whose zone touches the player's own. */
  function Near(zones: map<nat, Zone>, a: nat): set<nat>
    requires a in zones
  {
    set b | b in zones && b != a && Neighboring(zones[b], zones[a])
  }

  /** A player is placed: it has nothing loaded and its view is still to be built. */
  predicate Spawned(v: View, w: View, zone: Zone) {
    var id := v.nextId;
    w == View(v.zones[id := zone], v.visible[id := {}], v.inbox[id := []], v.events + [ZoneChange(id)], id + 1)
  }

  /** A player walks; its view is rebuilt later, and only if its zone changed. */
  predicate Walked(v: View, w: View, id: nat, zone: Zone) {
    id in v.zones
    && w == v.(zones := v.zones[id := zone],
               events := v.events + (if v.zones[id] != zone then [ZoneChange(id)] else []) + [Walk(id)])
  }

  /** A player leaves the map; the others still have it loaded until the event is handled. */
  predicate Left(v: View, w: View, id: nat) {
    id in v.zones
    && w == View(v.zones - {id}, v.visible - {id}, v.inbox - {id}, v.events + [Gone(id)], v.nextId)
  }

  /** The message a bystander gets when `a` enters or leaves its list. */
  function Told(before: set<nat>, after: set<nat>, a: nat): seq<Message> {
    if a in after && a !in before then [New(a)]
    else if a !in after && a in before then [Remove(a)]
    else []
  }

  predicate SameRest(v: View, w: View) {
    v.events != [] && w.events == v.events[1..] && w.nextId == v.nextId && w.zones == v.zones
    && w.visible.Keys == v.visible.Keys && w.inbox.Keys == v.inbox.Keys
  }

  /** What the viewer of a view change is sent: its arrivals in batches, then its departures. */
  function ViewMessages(arrived: seq<nat>, departed: seq<nat>): seq<Message> {
    if departed == [] then Batches(arrived) else Batches(arrived) + [RemoveAll(departed)]
  }

  /** A viewer loads everybody who came before it drops everybody who left, all at once. */
  lemma RemovalComesLast(arrived: seq<nat>, departed: seq<nat>)
    ensures var ms := ViewMessages(arrived, departed);
            (forall i | 0 <= i < |ms| - 1 :: ms[i].OtherLoad?)
            && (departed != [] ==> ms != [] && ms[|ms| - 1] == RemoveAll(departed))
  {
    BatchesAreFull(arrived);
  }

  ghost predicate ViewerTold(before: set<nat>, after: set<nat>, sent: seq<Message>) {
    exists arrived, departed ::
      Distinct(arrived) && Distinct(departed) && Elems(arrived) == after - before && Elems(departed) == before - after
      && sent == ViewMessages(arrived, departed)
  }

  /** Handling a zone change rebuilds the view around `a`, both ways, and tells everyone concerned. */
  ghost predicate Synced(v: View, w: View, a: nat)
    requires v.zones.Keys == v.visible.Keys == v.inbox.Keys
  {
    SameRest(v, w) && a in v.zones
    && w.visible[a] == Near(v.zones, a)
    && (forall b | b in v.zones && b != a ::
          w.visible[b] == (if Neighboring(v.zones[b], v.zones[a]) then v.visible[b] + {a} else v.visible[b] - {a})
          && w.inbox[b] == v.inbox[b] + Told(v.visible[b], w.visible[b], a))
    && |v.inbox[a]| <= |w.inbox[a]| && w.inbox[a][..|v.inbox[a]|] == v.inbox[a]
    && ViewerTold(v.visible[a], w.visible[a], w.inbox[a][|v.inbox[a]|..])
  }

  /** Handling a departure drops it from every list that has it. */
  predicate Forgotten(v: View, w: View, a: nat)
    requires v.zones.Keys == v.visible.Keys == v.inbox.Keys
  {
    SameRest(v, w)
    && forall b | b in v.zones ::
         w.visible[b] == v.visible[b] - {a} && w.inbox[b] == v.inbox[b] + Told(v.visible[b], w.visible[b], a)
  }

  predicate Keyed(v: View) {
    v.zones.Keys == v.visible.Keys == v.inbox.Keys
  }

  /** The oldest event is handled. */
  ghost predicate Handled(v: View, w: View)
    requires Keyed(v)
  {
    v.events != []
    && match v.events[0]
       case ZoneChange(a) => if a in v.zones then Synced(v, w, a) else w == v.(events := v.events[1..])
       case Walk(a) => w == v.(events := v.events[1..])
       case Gone(a) => Forgotten(v, w, a)
  }

  ghost predicate Next(v: View, w: View) {
    Keyed(v)
    && ((exists zone :: Spawned(v, w, zone)) || (exists id, zone :: Walked(v, w, id, zone))
        || (exists id :: Left(v, w, id)) || Handled(v, w))
  }

  // ---- The invariant ---------------------------------------------------------------------------------------------

  predicate Pending(v: View, e: Event) {
    e in v.events
  }

  /** Ids come from the generator, nobody lists itself, and nobody who left is ever back. */
  ghost predicate IdsFresh(v: View)
    requires Keyed(v)
  {
    (forall a | a in v.zones :: a < v.nextId && a !in v.visible[a])
    && (forall a, b | a in v.zones && b in v.visible[a] :: b < v.nextId)
    && (forall b: nat | Pending(v, Gone(b)) :: b !in v.zones && b < v.nextId)
  }

  predicate Mutual(v: View)
    requires Keyed(v)
  {
    forall a, b | a in v.zones && b in v.zones && b in v.visible[a] :: a in v.visible[b]
  }

  /** A list naming somebody who left has that departure still to be handled. */
  ghost predicate DeparturesPending(v: View)
    requires Keyed(v)
  {
    forall a, b | a in v.zones && b in v.visible[a] && b !in v.zones :: Pending(v, Gone(b))
  }

  /** A pair whose lists disagree with the zones has a zone change of one of the two still to be handled. */
  ghost predicate StalePairsPending(v: View)
    requires Keyed(v)
  {
    forall a, b | a in v.zones && b in v.zones && a != b && (b in v.visible[a]) != Neighboring(v.zones[b], v.zones[a])
      :: Pending(v, ZoneChange(a)) || Pending(v, ZoneChange(b))
  }

  /** Each client's messages add up to its list. */
  predicate ClientsAgree(v: View)
    requires Keyed(v)
  {
    forall a | a in v.zones :: Replay({}, v.inbox[a]) == Some(v.visible[a])
  }

  ghost predicate Consistent(v: View) {
    Keyed(v) && IdsFresh(v) && Mutual(v) && DeparturesPending(v) && StalePairsPending(v) && ClientsAgree(v)
  }

  lemma PendingAfter(v: View, w: View, e: Event)
    requires v.events != [] && w.events == v.events[1..] && Pending(v, e) && e != v.events[0]
    ensures Pending(w, e)
  {
    var i :| 0 <= i < |v.events| && v.events[i] == e;
    assert w.events[i - 1] == e;
  }

  lemma BystanderReplays(inbox: seq<Message>, before: set<nat>, after: set<nat>, a: nat)
    requires Replay({}, inbox) == Some(before) && (after == before + {a} || after == before - {a})
    ensures Replay({}, inbox + Told(before, after, a)) == Some(after)
  {
    ReplayConcat({}, inbox, Told(before, after, a));
    if a in after && a !in before {
      ReplayOne(before, New(a));
    } else if a !in after && a in before {
      ReplayOne(before, Remove(a));
    } else {
      assert after == before;
    }
  }

  lemma ViewerReplays(inbox: seq<Message>, before: set<nat>, after: set<nat>, sent: seq<Message>)
    requires Replay({}, inbox) == Some(before) && ViewerTold(before, after, sent)
    ensures Replay({}, inbox + sent) == Some(after)
  {
    var arrived, departed :| Distinct(arrived) && Distinct(departed) && Elems(arrived) == after - before
      && Elems(departed) == before - after
      && sent == ViewMessages(arrived, departed);
    ReplayConcat({}, inbox, sent);
    BatchesLoad(before, arrived);
    var loaded := before + Elems(arrived);
    if departed == [] {
      assert before - after == {};
      assert loaded == after && sent == Batches(arrived);
    } else {
      ReplayConcat(before, Batches(arrived), [RemoveAll(departed)]);
      ReplayOne(loaded, RemoveAll(departed));
      assert loaded - Elems(departed) == after;
    }
  }

  lemma StillPending(v: View, w: View, e: Event)
    requires v.events != [] && w.events == v.events[1..]
    ensures Pending(v, e) && e != v.events[0] ==> Pending(w, e)
    ensures Pending(w, e) ==> Pending(v, e)
  {
    if Pending(v, e) && e != v.events[0] {
      PendingAfter(v, w, e);
    }
  }

  lemma SyncKeepsMutual(v: View, w: View, a: nat)
    requires Keyed(v) && Mutual(v) && Synced(v, w, a)
    ensures Mutual(w)
  {
    forall b, c | b in w.zones && c in w.zones && c in w.visible[b] ensures b in w.visible[c] {
      if b != a && c != a {
        assert c in v.visible[b] && b in v.visible[c];
      }
    }
  }

  lemma SyncKeepsIds(v: View, w: View, a: nat)
    requires Keyed(v) && IdsFresh(v) && Synced(v, w, a)
    ensures IdsFresh(w)
  {
    forall b: nat | Pending(w, Gone(b)) ensures b !in w.zones && b < w.nextId {
      StillPending(v, w, Gone(b));
    }
    forall b | b in w.zones ensures b !in w.visible[b] && forall c | c in w.visible[b] :: c < w.nextId {
      if b != a {
        assert w.visible[b] <= v.visible[b] + {a};
      }
    }
  }

  lemma SyncKeepsDepartures(v: View, w: View, a: nat)
    requires Keyed(v) && DeparturesPending(v) && Synced(v, w, a) && v.events[0] == ZoneChange(a)
    ensures DeparturesPending(w)
  {
    forall b, c | b in w.zones && c in w.visible[b] && c !in w.zones ensures Pending(w, Gone(c)) {
      assert b != a && c in v.visible[b];
      StillPending(v, w, Gone(c));
    }
  }

  /** The pairs of `a` are fresh, those of others are as they were. */
  lemma SyncedPairs(v: View, w: View, a: nat)
    requires Keyed(v) && Synced(v, w, a)
    ensures w.visible.Keys == w.zones.Keys == v.zones.Keys
    ensures forall b | b in w.zones && b != a ::
              (b in w.visible[a]) == Neighboring(w.zones[b], w.zones[a])
              && (a in w.visible[b]) == Neighboring(w.zones[a], w.zones[b])
    ensures forall b, c | b in w.zones && b != a && c != a :: (c in w.visible[b]) == (c in v.visible[b])
  {
  }

  lemma SyncKeepsStale(v: View, w: View, a: nat)
    requires Keyed(v) && StalePairsPending(v) && Synced(v, w, a) && v.events[0] == ZoneChange(a)
    ensures w.visible.Keys == w.zones.Keys && w.inbox.Keys == w.zones.Keys && StalePairsPending(w)
  {
    hide Synced, Neighboring;
    SyncedPairs(v, w, a);
    SyncedRest(v, w, a);
    forall b, c | b in w.zones && c in w.zones && b != c && (c in w.visible[b]) != Neighboring(w.zones[c], w.zones[b])
      ensures Pending(w, ZoneChange(b)) || Pending(w, ZoneChange(c))
    {
      assert b != a && c != a && (c in v.visible[b]) == (c in w.visible[b]);
      StillPending(v, w, ZoneChange(b));
      StillPending(v, w, ZoneChange(c));
    }
  }

  lemma SyncedRest(v: View, w: View, a: nat)
    requires Keyed(v) && Synced(v, w, a)
    ensures Keyed(w) && w.zones == v.zones && v.events != [] && w.events == v.events[1..]
  {
  }

  lemma SyncKeepsClients(v: View, w: View, a: nat)
    requires Keyed(v) && ClientsAgree(v) && Synced(v, w, a)
    ensures ClientsAgree(w)
  {
    forall b | b in w.zones ensures Replay({}, w.inbox[b]) == Some(w.visible[b]) {
      if b == a {
        var sent := w.inbox[a][|v.inbox[a]|..];
        ViewerReplays(v.inbox[a], v.visible[a], w.visible[a], sent);
        assert w.inbox[a] == v.inbox[a] + sent;
      } else {
        BystanderReplays(v.inbox[b], v.visible[b], w.visible[b], a);
      }
    }
  }

  lemma ForgetKeepsClients(v: View, w: View, a: nat)
    requires Keyed(v) && ClientsAgree(v) && Forgotten(v, w, a)
    ensures ClientsAgree(w)
  {
    forall b | b in w.zones ensures Replay({}, w.inbox[b]) == Some(w.visible[b]) {
      BystanderReplays(v.inbox[b], v.visible[b], w.visible[b], a);
    }
  }

  lemma ForgetKeepsPending(v: View, w: View, a: nat)
    requires Keyed(v) && DeparturesPending(v) && StalePairsPending(v) && Forgotten(v, w, a) && v.events[0] == Gone(a)
             && a !in v.zones
    ensures DeparturesPending(w) && StalePairsPending(w)
  {
    forall b, c | b in w.zones && c in w.visible[b] && c !in w.zones ensures Pending(w, Gone(c)) {
      StillPending(v, w, Gone(c));
    }
    forall b, c | b in w.zones && c in w.zones && b != c && (c in w.visible[b]) != Neighboring(w.zones[c], w.zones[b])
      ensures Pending(w, ZoneChange(b)) || Pending(w, ZoneChange(c))
    {
      StillPending(v, w, ZoneChange(b));
      StillPending(v, w, ZoneChange(c));
    }
  }

  lemma ForgetKeepsLists(v: View, w: View, a: nat)
    requires Keyed(v) && IdsFresh(v) && Mutual(v) && Forgotten(v, w, a) && v.events[0] == Gone(a)
    ensures a !in v.zones && IdsFresh(w) && Mutual(w)
  {
    assert Pending(v, Gone(a));
    forall b: nat | Pending(w, Gone(b)) ensures b !in w.zones && b < w.nextId {
      StillPending(v, w, Gone(b));
    }
  }

  lemma SkipKeepsConsistent(v: View, w: View)
    requires Consistent(v) && v.events != [] && w == v.(events := v.events[1..])
    requires v.events[0].Walk? || (v.events[0].ZoneChange? && v.events[0].id !in v.zones)
    ensures Consistent(w)
  {
    forall e | Pending(v, e) && e != v.events[0] ensures Pending(w, e) {
      PendingAfter(v, w, e);
    }
    assert forall e | Pending(w, e) :: Pending(v, e);
  }

  lemma MoreEvents(v: View, w: View, more: seq<Event>)
    requires w.events == v.events + more
    ensures forall e :: Pending(w, e) <==> Pending(v, e) || e in more
  {
  }

  lemma SpawnKeepsConsistent(v: View, w: View, zone: Zone)
    requires Consistent(v) && Spawned(v, w, zone)
    ensures Consistent(w)
  {
    MoreEvents(v, w, [ZoneChange(v.nextId)]);
  }

  lemma SameLists(v: View, w: View)
    requires Keyed(v) && Mutual(v) && ClientsAgree(v)
    requires w.visible == v.visible && w.inbox == v.inbox && w.zones.Keys == v.zones.Keys
    ensures Keyed(w) && Mutual(w) && ClientsAgree(w)
  {
  }

  lemma WalkKeepsConsistent(v: View, w: View, id: nat, zone: Zone)
    requires Consistent(v) && Walked(v, w, id, zone)
    ensures Consistent(w)
  {
    hide Mutual, ClientsAgree;
    SameLists(v, w);
    var more := (if v.zones[id] != zone then [ZoneChange(id)] else []) + [Walk(id)];
    assert w.events == v.events + more;
    MoreEvents(v, w, more);
    assert v.zones[id] != zone ==> more[0] == ZoneChange(id) && ZoneChange(id) in more;
    assert forall e | e in more :: !e.Gone?;
    if v.zones[id] == zone {
      assert w.zones == v.zones;
    }
  }

  lemma LeaveKeepsConsistent(v: View, w: View, id: nat)
    requires Consistent(v) && Left(v, w, id)
    ensures Consistent(w)
  {
    MoreEvents(v, w, [Gone(id)]);
    assert Pending(w, Gone(id));
  }

  /** Every step of the map keeps the lists mutual, explained by pending events, and equal to what clients were told. */
  lemma NextKeepsConsistent(v: View, w: View)
    requires Consistent(v) && Next(v, w)
    ensures Consistent(w)
  {
    if Handled(v, w) {
      match v.events[0]
      case ZoneChange(a) =>
        if a in v.zones {
          SyncKeepsMutual(v, w, a);
          SyncKeepsIds(v, w, a);
          SyncKeepsDepartures(v, w, a);
          SyncKeepsStale(v, w, a);
          SyncKeepsClients(v, w, a);
        } else {
          SkipKeepsConsistent(v, w);
        }
      case Walk(_) => SkipKeepsConsistent(v, w);
      case Gone(a) => 
        ForgetKeepsLists(v, w, a);
        ForgetKeepsPending(v, w, a);
        ForgetKeepsClients(v, w, a);
    } else if exists zone :: Spawned(v, w, zone) {
      var zone :| Spawned(v, w, zone);
      SpawnKeepsConsistent(v, w, zone);
    } else if exists id, zone :: Walked(v, w, id, zone) {
      var id, zone :| Walked(v, w, id, zone);
      WalkKeepsConsistent(v, w, id, zone);
    } else {
      var id :| Left(v, w, id);
      LeaveKeepsConsistent(v, w, id);
    }
  }

  ghost predicate IsRun(run: seq<View>) {
    run != [] && forall i | 0 <= i < |run| - 1 :: Next(run[i], run[i + 1])
  }

  const EMPTY_MAP := View(map[], map[], map[], [], 1)

  lemma {:induction false} RunIsConsistent(run: seq<View>)
    requires IsRun(run) && run[0] == EMPTY_MAP
    ensures Consistent(run[|run| - 1])
    decreases |run|
  {
    if |run| > 1 {
      var before := run[..|run| - 1];
      assert forall i | 0 <= i < |before| - 1 :: Next(before[i], before[i + 1]);
      RunIsConsistent(before);
      NextKeepsConsistent(run[|run| - 2], run[|run| - 1]);
    }
  }

  lemma HandledKeepsConsistent(v: View, w: View)
    requires Consistent(v) && Handled(v, w)
    ensures Consistent(w) && w.events == v.events[1..] && w.zones == v.zones
  {
    NextKeepsConsistent(v, w);
    hide Consistent;
  }

  /** Whenever the event queue has drained, each player's list, and its client's, is exactly the players around it. */
  lemma DrainedIsExact(v: View)
    requires Consistent(v) && v.events == []
    ensures forall a | a in v.zones :: v.visible[a] == Near(v.zones, a)
                                       && Replay({}, v.inbox[a]) == Some(Near(v.zones, a))
  {
    assert forall e :: !Pending(v, e);
    forall a | a in v.zones
      ensures v.visible[a] == Near(v.zones, a) && Replay({}, v.inbox[a]) == Some(Near(v.zones, a))
    {
      assert v.visible[a] == Near(v.zones, a);
    }
  }

  lemma DrainedViewsAreExact(run: seq<View>, a: nat)
    requires IsRun(run) && run[0] == EMPTY_MAP && run[|run| - 1].events == [] && a in run[|run| - 1].zones
    ensures var v := run[|run| - 1];
            a in v.visible && a in v.inbox && v.visible[a] == Near(v.zones, a)
            && Replay({}, v.inbox[a]) == Some(Near(v.zones, a))
  {
    RunIsConsistent(run);
    DrainedIsExact(run[|run| - 1]);
  }

  /** Who a walk is sent to: the walker and the listed players still on the map. */
  function Recipients(v: View, a: nat): set<nat>
    requires Keyed(v) && a in v.zones
  {
    {a} + set b | b in v.visible[a] && b in v.zones
  }

  /** In every reachable state these are exactly the walker and the clients that have it loaded. */
  lemma WalkReachesThoseWhoSeeIt(v: View, a: nat)
    requires Consistent(v) && a in v.zones
    ensures Recipients(v, a) == {a} + set b | b in v.zones && Replay({}, v.inbox[b]).Some?
            && a in Replay({}, v.inbox[b]).value
  {
    forall b ensures b in Recipients(v, a) <==> b == a || (b in v.zones && a in v.visible[b]) {
    }
  }

  // ---- A walk on a quiet map ------------------------------------------------------------------------------------

  /** A walk is on its way on an otherwise quiet map: either it is the only event, and the walker's view is what it
      should be, or the change of its zone comes first. */
  ghost predicate WalkComes(v: View, a: nat) {
    Consistent(v) && a in v.zones
    && (v.events == [ZoneChange(a), Walk(a)] || (v.events == [Walk(a)] && v.visible[a] == Near(v.zones, a)))
  }

  lemma WalkStarts(v: View, w: View, a: nat, zone: Zone)
    requires Consistent(v) && v.events == [] && Walked(v, w, a, zone)
    ensures WalkComes(w, a)
  {
    DrainedIsExact(v);
    WalkKeepsConsistent(v, w, a, zone);
    if v.zones[a] == zone {
      assert w.zones == v.zones && w.events == [Walk(a)];
    } else {
      assert w.events == [ZoneChange(a), Walk(a)];
    }
    hide Consistent;
  }

  lemma WalkIsNext(v: View, w: View, a: nat)
    requires WalkComes(v, a) && v.events[0].ZoneChange? && Handled(v, w)
    ensures WalkComes(w, a) && w.events == [Walk(a)] && w.zones == v.zones
  {
    HandledKeepsConsistent(v, w);
    hide Consistent;
  }

  /** So once the events ahead of it are handled the walk goes to the walker and exactly those around where it now
      is: whoever it left has been told to remove it, whoever it came to has it loaded. */
  lemma WalkReachesTheNear(v: View, w: View, x: View, a: nat, zone: Zone)
    requires Consistent(v) && v.events == [] && Walked(v, w, a, zone)
    requires if w.events[0].Walk? then x == w else Handled(w, x)
    ensures x.events == [Walk(a)] && a in x.zones && x.zones == v.zones[a := zone]
    ensures Consistent(x) && Recipients(x, a) == {a} + Near(x.zones, a)
  {
    WalkStarts(v, w, a, zone);
    if !w.events[0].Walk? {
      WalkIsNext(w, x, a);
    }
    NearReceive(x, a);
    hide Consistent, Handled;
  }

  lemma NearReceive(v: View, a: nat)
    requires WalkComes(v, a) && v.events[0].Walk?
    ensures Recipients(v, a) == {a} + Near(v.zones, a)
  {
  }
}
