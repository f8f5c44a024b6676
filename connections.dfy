/**
 * ConnectionManager of backend/server.py: the open WebSocket connections of each battle and the
 * connection of each "battle:user" key. Connections are opaque values of type W; whether a
 * send to one succeeds is an oracle `sendOk` given to the broadcast.
 */
module Connections {
  import opened Common

  /** f"{battle_id}:{user_id}". */
  function UserKey(battleId: BattleId, userId: UserId): (r: string)
    ensures |r| == |battleId| + 1 + |userId| && r[|battleId|] == ':'
  {
    battleId + ":" + userId
  }

  /** With colon-free battle ids (UUIDs are), distinct (battle, user) pairs get distinct keys. */
  lemma UserKeyInjective(b1: BattleId, u1: UserId, b2: BattleId, u2: UserId)
    requires ':' !in b1 && ':' !in b2
    requires UserKey(b1, u1) == UserKey(b2, u2)
    ensures b1 == b2 && u1 == u2
  {
    var k := UserKey(b1, u1);
    assert forall i :: 0 <= i < |b1| ==> k[i] == b1[i];
    assert forall i :: 0 <= i < |b2| ==> k[i] == b2[i];
    assert k[|b1|] == ':' && k[|b2|] == ':';
    assert |b1| == |b2|;
    assert b1 == k[..|b1|] == b2;
    assert u1 == k[|b1| + 1..] == u2;
  }

  /** With a colon inside a battle id two different pairs share one key. */
  lemma UserKeyCollides()
    ensures UserKey("a:b", "c") == UserKey("a", "b:c")
  {
  }

  /** The connections of a set that survive a broadcast. */
  function Survivors<W>(connections: set<W>, sendOk: W -> bool): (r: set<W>)
    ensures r <= connections
    ensures forall c :: c in connections ==> (c in r <==> sendOk(c))
  {
    set c | c in connections && sendOk(c)
  }

  /**
   * The send loop of broadcast_to_battle: every connection is tried once; the failed ones are
   * collected in the order met. Returns the connections reached as well.
   */
  method SendAll<W>(connections: set<W>, sendOk: W -> bool) returns (reached: set<W>, disconnected: seq<W>)
    ensures reached == Survivors(connections, sendOk)
    ensures forall c :: c in disconnected <==> c in connections && !sendOk(c)
  {
    disconnected := [];
    var pending := connections;
    reached := {};
    while pending != {}
      invariant pending <= connections && reached <= connections - pending
      invariant forall c :: c in connections - pending ==> (c in reached <==> sendOk(c))
      invariant forall c :: c in disconnected <==> c in connections - pending && !sendOk(c)
      decreases |pending|
    {
      var connection :| connection in pending;
      if sendOk(connection) {
        reached := reached + {connection};
      } else {
        disconnected := disconnected + [connection];
      }
      pending := pending - {connection};
    }
  }

  /** The clean-up loop of broadcast_to_battle: each collected connection is discarded from the set. */
  method Discard<W>(connections: set<W>, disconnected: seq<W>) returns (remaining: set<W>)
    ensures forall c :: c in remaining <==> c in connections && c !in disconnected
  {
    remaining := connections;
    for i := 0 to |disconnected|
      invariant forall c :: c in remaining <==> c in connections && c !in disconnected[..i]
    {
      assert disconnected[..i + 1] == disconnected[..i] + [disconnected[i]];
      remaining := remaining - {disconnected[i]};
    }
    assert disconnected[..|disconnected|] == disconnected;
  }

  class ConnectionManager<W(==)> {
    var activeConnections: map<BattleId, set<W>>
    var userConnections: map<string, W>

    constructor ()
      ensures activeConnections == map[] && userConnections == map[]
    {
      activeConnections := map[];
      userConnections := map[];
    }

    /** connect: the socket joins its battle's set (created if absent) and becomes the user's connection. */
    method Connect(websocket: W, battleId: BattleId, userId: UserId)
      modifies this
      ensures battleId in activeConnections && websocket in activeConnections[battleId]
      ensures activeConnections == old(activeConnections)[battleId :=
                (if battleId in old(activeConnections) then old(activeConnections)[battleId] else {}) + {websocket}]
      ensures userConnections == old(userConnections)[UserKey(battleId, userId) := websocket]
    {
      if battleId !in activeConnections {
        activeConnections := activeConnections[battleId := {}];
      }
      activeConnections := activeConnections[battleId := activeConnections[battleId] + {websocket}];
      userConnections := userConnections[UserKey(battleId, userId) := websocket];
    }

    /**
     * disconnect: the socket leaves its battle's set, an emptied set is deleted, and the user's key
     * is dropped whatever connection it holds. Unknown sockets and battles are no-ops.
     */
    method Disconnect(websocket: W, battleId: BattleId, userId: UserId)
      modifies this
      ensures battleId in activeConnections ==> websocket !in activeConnections[battleId] && activeConnections[battleId] != {}
      ensures battleId !in old(activeConnections) ==> activeConnections == old(activeConnections)
      ensures battleId in old(activeConnections) ==>
        var rest := old(activeConnections)[battleId] - {websocket};
        activeConnections == if rest == {} then old(activeConnections) - {battleId} else old(activeConnections)[battleId := rest]
      ensures UserKey(battleId, userId) !in userConnections
      ensures userConnections == old(userConnections) - {UserKey(battleId, userId)}
    {
      if battleId in activeConnections {
        activeConnections := activeConnections[battleId := activeConnections[battleId] - {websocket}];
        if activeConnections[battleId] == {} {
          activeConnections := activeConnections - {battleId};
        }
      }
      userConnections := userConnections - {UserKey(battleId, userId)};
    }

    /**
     * broadcast_to_battle: one send to every connection of the battle, collecting the failed ones,
     * then discarding those. Returns the connections the message reached. A battle without an
     * entry is a no-op; an entry emptied by the pruning stays, and userConnections is not touched.
     */
    method BroadcastToBattle(battleId: BattleId, sendOk: W -> bool) returns (reached: set<W>)
      modifies this
      ensures userConnections == old(userConnections)
      ensures battleId !in old(activeConnections) ==> activeConnections == old(activeConnections) && reached == {}
      ensures battleId in old(activeConnections) ==>
        && reached == Survivors(old(activeConnections)[battleId], sendOk)
        && activeConnections == old(activeConnections)[battleId := reached]
    {
      if battleId !in activeConnections {
        return {};
      }
      var connections := activeConnections[battleId];
      var disconnected;
      reached, disconnected := SendAll(connections, sendOk);
      // The stored set is one mutable object in the source; it is pruned here as a value and written back.
      var remaining := Discard(connections, disconnected);
      assert remaining == reached;
      activeConnections := activeConnections[battleId := remaining];
    }
  }
}
