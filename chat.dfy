/**
 * The registry of open chat sockets (the `ConnectionManager` of
 * app/api/endpoints/chat.py): for each user, the list of their open sockets in
 * the order they connected. Sockets are opaque identities.
 */
module Chat {
  import opened Wrappers
  import opened Sequences
  import opened NoteService

  type SocketId = int

  /** Python's `KeyError`, raised by `del` on an absent key. */
  datatype KeyError = KeyError(key: UserId)

  /** No user is mapped to an empty list. */
  ghost predicate NoEmptyLists(m: map<UserId, seq<SocketId>>)
  {
    forall u :: u in m ==> m[u] != []
  }

  /** `list.remove(x)` when `x` is present, a no-op otherwise: the first occurrence is
      dropped and the rest keep their order. */
  function RemoveFirst(s: seq<SocketId>, x: SocketId): (r: seq<SocketId>)
    ensures x !in s ==> r == s
    ensures x in s ==> r == s[..IndexOf(s, x)] + s[IndexOf(s, x) + 1..]
  {
    if s == [] then []
    else if s[0] == x then s[1..]
    else
      var rest := RemoveFirst(s[1..], x);
      ConsRemoved(s, x, rest);
      [s[0]] + rest
  }

  /** The recursive step of `RemoveFirst`: keeping a head other than `x` in front of
      the tail with `x` removed removes `x` from the whole list. */
  lemma ConsRemoved(s: seq<SocketId>, x: SocketId, rest: seq<SocketId>)
    requires s != [] && s[0] != x
    requires x !in s[1..] ==> rest == s[1..]
    requires x in s[1..] ==> rest == s[1..][..IndexOf(s[1..], x)] + s[1..][IndexOf(s[1..], x) + 1..]
    ensures x !in s ==> [s[0]] + rest == s
    ensures x in s ==> [s[0]] + rest == s[..IndexOf(s, x)] + s[IndexOf(s, x) + 1..]
  {
    assert s == [s[0]] + s[1..];
    if x in s {
      var k := IndexOf(s[1..], x);
      assert IndexOf(s, x) == k + 1;
      assert s[..k + 1] == [s[0]] + s[1..][..k];
      assert s[k + 2..] == s[1..][k + 1..];
    }
  }

  /** `connect`: the socket goes to the end of the user's list (a new list if there
      was none). */
  function Connected(m: map<UserId, seq<SocketId>>, userId: UserId, ws: SocketId): map<UserId, seq<SocketId>>
  {
    var connections := if userId in m then m[userId] else [];
    m[userId := connections + [ws]]
  }

  /** `disconnect`: drop the socket from the user's list, and drop the user when the
      list is left empty. A user without an entry reaches `del` on an absent key. */
  function Disconnected(m: map<UserId, seq<SocketId>>, userId: UserId, ws: SocketId): Result<map<UserId, seq<SocketId>>, KeyError>
  {
    var connections := RemoveFirst(if userId in m then m[userId] else [], ws);
    if connections != [] then Success(m[userId := connections])
    else if userId in m then Success(m - {userId})
    else Failure(KeyError(userId))
  }

  /** `connect` keeps earlier sockets in order, ends the list with the new one, and
      touches no other user. */
  lemma ConnectAppends(m: map<UserId, seq<SocketId>>, userId: UserId, ws: SocketId)
    ensures var m' := Connected(m, userId, ws);
      && userId in m'
      && m'[userId] == (if userId in m then m[userId] else []) + [ws]
      && (userId !in m ==> m'[userId] == [ws])
      && (forall v :: v != userId ==> (v in m' <==> v in m) && (v in m ==> m'[v] == m[v]))
  {
  }

  lemma ConnectKeepsNoEmptyLists(m: map<UserId, seq<SocketId>>, userId: UserId, ws: SocketId)
    requires NoEmptyLists(m)
    ensures NoEmptyLists(Connected(m, userId, ws))
  {
  }

  /** `disconnect` fails exactly for a user without an entry; otherwise it removes one
      occurrence of the socket, keeps no empty list and touches no other user. */
  lemma DisconnectRemovesFirst(m: map<UserId, seq<SocketId>>, userId: UserId, ws: SocketId)
    requires NoEmptyLists(m)
    ensures Disconnected(m, userId, ws).Failure? <==> userId !in m
    ensures Disconnected(m, userId, ws).Success? ==>
      var m' := Disconnected(m, userId, ws).value;
      && NoEmptyLists(m')
      && (userId in m' ==> m'[userId] == RemoveFirst(m[userId], ws))
      && (userId !in m' <==> m[userId] == [ws])
      && (forall v :: v != userId ==> (v in m' <==> v in m) && (v in m ==> m'[v] == m[v]))
  {
    if userId in m {
      var s := m[userId];
      if ws in s {
        var i := IndexOf(s, ws);
        assert RemoveFirst(s, ws) == [] <==> s == [ws];
      }
    }
  }

  /** Connecting a socket the user did not have and disconnecting it restores the registry. */
  lemma ConnectThenDisconnect(m: map<UserId, seq<SocketId>>, userId: UserId, ws: SocketId)
    requires NoEmptyLists(m)
    requires userId in m ==> ws !in m[userId]
    ensures Disconnected(Connected(m, userId, ws), userId, ws) == Success(m)
  {
    if userId in m {
      RemoveFirstOfAppended(m[userId], ws);
      assert m[userId := m[userId] + [ws]][userId := m[userId]] == m;
    } else {
      RemoveFirstOfAppended([], ws);
      assert m[userId := [ws]] - {userId} == m;
    }
  }

  lemma RemoveFirstOfAppended(s: seq<SocketId>, x: SocketId)
    requires x !in s
    ensures RemoveFirst(s + [x], x) == s
  {
    var i := IndexOf(s + [x], x);
    assert i == |s|;
    assert (s + [x])[..i] == s;
  }

  class ConnectionManager {
    var activeConnections: map<UserId, seq<SocketId>>

    ghost predicate Valid()
      reads this
    {
      NoEmptyLists(activeConnections)
    }

    constructor ()
      ensures Valid() && activeConnections == map[]
    {
      activeConnections := map[];
    }

    /** `connect`, after the socket has been accepted. */
    method Connect(userId: UserId, ws: SocketId)
      requires Valid()
      modifies this
      ensures Valid()
      ensures activeConnections == Connected(old(activeConnections), userId, ws)
    {
      var connections := if userId in activeConnections then activeConnections[userId] else [];
      connections := connections + [ws];
      activeConnections := activeConnections[userId := connections];
    }

    /** `disconnect`; a `KeyError` leaves the registry as it was. */
    method Disconnect(userId: UserId, ws: SocketId) returns (r: Result<(), KeyError>)
      requires Valid()
      modifies this
      ensures Valid()
      ensures r.Failure? <==> Disconnected(old(activeConnections), userId, ws).Failure?
      ensures r.Failure? ==> r.error == KeyError(userId) && activeConnections == old(activeConnections)
      ensures r.Success? ==> activeConnections == Disconnected(old(activeConnections), userId, ws).value
    {
      DisconnectRemovesFirst(activeConnections, userId, ws);
      var connections := if userId in activeConnections then activeConnections[userId] else [];
      if ws in connections {
        connections := RemoveFirst(connections, ws);
      }
      if connections != [] {
        activeConnections := activeConnections[userId := connections];
        r := Success(());
      } else if userId in activeConnections {
        activeConnections := activeConnections - {userId};
        r := Success(());
      } else {
        r := Failure(KeyError(userId));
      }
    }
  }
}
