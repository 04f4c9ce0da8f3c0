/** The world's session maps: from a connection to its player and from a character to its connection, over the maps'
    pools. */
module World {
  import opened Wrappers

  datatype Player = Player(connection: nat, character: int, instance: nat)

  datatype PlayerRef = PlayerRef(mapId: int, instance: nat, character: int)

  type Pools = map<(int, nat), Player>

  predicate At(pools: Pools, m: int, p: Player) {
    (m, p.instance) in pools && pools[(m, p.instance)] == p
  }

  /** The two session maps are inverse to each other and name exactly the pooled players. */
  ghost predicate Agree(maps: set<int>, byConnection: map<nat, PlayerRef>, byCharacter: map<int, nat>, pools: Pools) {
    (forall at | at in pools :: at.0 in maps && pools[at].instance == at.1)
    && (forall c | c in byConnection ::
          var r := byConnection[c];
          At(pools, r.mapId, Player(c, r.character, r.instance)) && r.character in byCharacter
              && byCharacter[r.character] == c)
    && (forall k | k in byCharacter :: byCharacter[k] in byConnection && byConnection[byCharacter[k]].character == k)
    && forall m, p | At(pools, m, p) ::
         p.connection in byConnection && byConnection[p.connection] == PlayerRef(m, p.instance, p.character)
  }

  lemma JoinAgrees(maps: set<int>, byConnection: map<nat, PlayerRef>, byCharacter: map<int, nat>, pools: Pools, m: int,
                   p: Player)
    requires Agree(maps, byConnection, byCharacter, pools) && m in maps
    requires p.connection !in byConnection && p.character !in byCharacter && (m, p.instance) !in pools
    ensures Agree(maps, byConnection[p.connection := PlayerRef(m, p.instance, p.character)],
                  byCharacter[p.character := p.connection], pools[(m, p.instance) := p])
    ensures forall n, q :: At(pools[(m, p.instance) := p], n, q) <==> At(pools, n, q) || (n == m && q == p)
  {
    var after := pools[(m, p.instance) := p];
    assert forall n, q | At(after, n, q) :: (n == m && q == p) || At(pools, n, q);
  }

  lemma LeaveAgrees(maps: set<int>, byConnection: map<nat, PlayerRef>, byCharacter: map<int, nat>, pools: Pools, c: nat)
    requires Agree(maps, byConnection, byCharacter, pools) && c in byConnection
    ensures var r := byConnection[c];
            Agree(maps, byConnection - {c}, byCharacter - {r.character}, pools - {(r.mapId, r.instance)})
            && At(pools, r.mapId, Player(c, r.character, r.instance))
            && forall n, q :: At(pools - {(r.mapId, r.instance)}, n, q) <==> At(pools, n, q) && q.connection != c
  {
    var r := byConnection[c];
    var after := pools - {(r.mapId, r.instance)};
    assert At(pools, r.mapId, Player(c, r.character, r.instance));
    forall n, q | At(after, n, q) ensures At(pools, n, q) && q.connection != c {
      assert At(pools, n, q);
    }
  }

  class World {
    var connections: set<nat>
    var playersByConnection: map<nat, PlayerRef>
    var connectionsByCharacter: map<int, nat>
    var maps: set<int>
    var pools: Pools

    predicate Pooled(mapId: int, p: Player)
      reads this
    {
      At(pools, mapId, p)
    }

    ghost predicate Valid()
      reads this
    {
      Agree(maps, playersByConnection, connectionsByCharacter, pools)
    }

    constructor (maps: set<int>)
      ensures Valid() && this.maps == maps && forall m, p :: !Pooled(m, p)
    {
      connections, playersByConnection, connectionsByCharacter := {}, map[], map[];
      this.maps, pools := maps, map[];
    }

    /** No two players in the world share a connection or a character. */
    lemma OnePlayerEach(m: int, p: Player, n: int, q: Player)
      requires Valid() && Pooled(m, p) && Pooled(n, q)
      ensures p.connection == q.connection || p.character == q.character ==> m == n && p == q
    {
      assert connectionsByCharacter[p.character] == p.connection && connectionsByCharacter[q.character] == q.connection;
    }

    predicate IsOnline(character: int)
      reads this
    {
      character in connectionsByCharacter
    }

    predicate HasPlayer(connection: nat)
      reads this
    {
      connection in playersByConnection
    }

    /** A character is online, and a connection has a player, exactly when some pooled player is theirs. */
    lemma SessionsIffPooled(character: int, connection: nat)
      requires Valid()
      ensures IsOnline(character) <==> exists m, p :: Pooled(m, p) && p.character == character
      ensures HasPlayer(connection) <==> exists m, p :: Pooled(m, p) && p.connection == connection
    {
      if IsOnline(character) {
        var c := connectionsByCharacter[character];
        var r := playersByConnection[c];
        assert Pooled(r.mapId, Player(c, character, r.instance));
      }
      if HasPlayer(connection) {
        var r := playersByConnection[connection];
        assert Pooled(r.mapId, Player(connection, r.character, r.instance));
      }
    }

    method FindPlayer(connection: nat) returns (found: Option<(int, Player)>)
      requires Valid()
      ensures found.Some? ==> Pooled(found.value.0, found.value.1) && found.value.1.connection == connection
      ensures found.None? ==> forall m, p | Pooled(m, p) :: p.connection != connection
    {
      if connection !in playersByConnection {
        return None;
      }
      var r := playersByConnection[connection];
      assert Pooled(r.mapId, Player(connection, r.character, r.instance));
      found := Some((r.mapId, pools[(r.mapId, r.instance)]));
    }

    /** Turns away an unknown map, a character or connection already in, and an instance id already pooled. */
    method Join(p: Player, mapId: int) returns (joined: bool)
      requires Valid()
      modifies this
      ensures Valid() && maps == old(maps) && connections == old(connections)
      ensures joined == (mapId in maps && !old(IsOnline(p.character))
                         && !old(HasPlayer(p.connection)) && (mapId, p.instance) !in old(pools))
      ensures forall m, q :: Pooled(m, q) <==> old(Pooled(m, q)) || (joined && m == mapId && q == p)
    {
      if mapId !in maps || IsOnline(p.character) || HasPlayer(p.connection) || (mapId, p.instance) in pools {
        return false;
      }
      JoinAgrees(maps, playersByConnection, connectionsByCharacter, pools, mapId, p);
      hide Agree;
      pools := pools[(mapId, p.instance) := p];
      playersByConnection := playersByConnection[p.connection := PlayerRef(mapId, p.instance, p.character)];
      connectionsByCharacter := connectionsByCharacter[p.character := p.connection];
      joined := true;
    }

    method Leave(connection: nat) returns (left: Option<Player>)
      requires Valid()
      modifies this
      ensures Valid() && maps == old(maps) && connections == old(connections)
      ensures forall m, q :: Pooled(m, q) <==> old(Pooled(m, q)) && q.connection != connection
      ensures left.Some? ==> left.value.connection == connection && exists m :: old(Pooled(m, left.value))
      ensures left.None? ==> forall m, q | old(Pooled(m, q)) :: q.connection != connection
    {
      if connection !in playersByConnection {
        return None;
      }
      LeaveAgrees(maps, playersByConnection, connectionsByCharacter, pools, connection);
      hide Agree;
      var r := playersByConnection[connection];
      playersByConnection := playersByConnection - {connection};
      connectionsByCharacter := connectionsByCharacter - {r.character};
      left := Some(pools[(r.mapId, r.instance)]);
      pools := pools - {(r.mapId, r.instance)};
      assert old(Pooled(r.mapId, left.value));
    }
  }
}
