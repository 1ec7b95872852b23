/** Socket bookkeeping: two maps changed in place, against the plain relation of who is connected by what. */
module Connections {

  /** The two maps hold the same relation, and no user is kept without a socket. */
  ghost predicate Matched(userConnections: map<string, set<string>>, socketUsers: map<string, string>) {
    && (forall u, s :: (u in userConnections && s in userConnections[u]) <==> (s in socketUsers && socketUsers[s] == u))
    && (forall u | u in userConnections :: userConnections[u] != {})
  }

  function ConnectUsers(users: map<string, set<string>>, socketId: string, userId: string): map<string, set<string>> {
    users[userId := (if userId in users then users[userId] else {}) + {socketId}]
  }

  /** A connection keeps the maps matched exactly if its socket is not listed under another user. */
  lemma ConnectKeepsMatched(users: map<string, set<string>>, sockets: map<string, string>, socketId: string, userId: string)
    requires Matched(users, sockets)
    ensures
      Matched(ConnectUsers(users, socketId, userId), sockets[socketId := userId])
      <==> (socketId in sockets ==> sockets[socketId] == userId)
  {
    var users', sockets' := ConnectUsers(users, socketId, userId), sockets[socketId := userId];
    if socketId in sockets && sockets[socketId] != userId {
      var other := sockets[socketId];
      assert socketId in users[other];
      assert other in users' && socketId in users'[other] && sockets'[socketId] != other;
    } else {
      forall u, s
        ensures (u in users' && s in users'[u]) <==> (s in sockets' && sockets'[s] == u)
      {
      }
    }
  }

  /** Sets of different users have no socket in common. */
  lemma SetsDisjoint(users: map<string, set<string>>, sockets: map<string, string>, u: string, v: string)
    requires Matched(users, sockets) && u in users && v in users && u != v
    ensures users[u] !! users[v]
  {
    forall s | s in users[u]
      ensures s !in users[v]
    {
      assert sockets[s] == u;
    }
  }

  /** The sockets whose user has been counted. */
  function SocketsOf(sockets: map<string, string>, users: set<string>): set<string> {
    set s | s in sockets && sockets[s] in users
  }

  lemma CountOneMore(users: map<string, set<string>>, sockets: map<string, string>, done: set<string>, u: string)
    requires Matched(users, sockets) && u in users && u !in done
    ensures |SocketsOf(sockets, done + {u})| == |SocketsOf(sockets, done)| + |users[u]|
  {
    forall s
      ensures s in SocketsOf(sockets, done + {u}) <==> s in SocketsOf(sockets, done) || s in users[u]
    {
      assert (u in users && s in users[u]) <==> (s in sockets && sockets[s] == u);
    }
    assert SocketsOf(sockets, done + {u}) == SocketsOf(sockets, done) + users[u];
    assert SocketsOf(sockets, done) !! users[u];
  }

  lemma NoneCounted(sockets: map<string, string>)
    ensures |SocketsOf(sockets, {})| == 0
  {
    assert SocketsOf(sockets, {}) == {};
  }

  lemma AllCounted(users: map<string, set<string>>, sockets: map<string, string>)
    requires Matched(users, sockets)
    ensures |SocketsOf(sockets, users.Keys)| == |sockets|
  {
    forall s | s in sockets
      ensures sockets[s] in users
    {
      assert sockets[s] in users && s in users[sockets[s]];
    }
    assert SocketsOf(sockets, users.Keys) == sockets.Keys;
  }

  /** The relation that the map from sockets to users stands for. */
  ghost predicate Lists(pairs: set<(string, string)>, sockets: map<string, string>) {
    forall s, u :: (s, u) in pairs <==> s in sockets && sockets[s] == u
  }

  lemma {:induction false} PairCount(pairs: set<(string, string)>, sockets: map<string, string>)
    requires Lists(pairs, sockets)
    ensures |pairs| == |sockets|
    decreases |pairs|
  {
    assert forall s | s in sockets :: (s, sockets[s]) in pairs;
    if pairs == {} {
      assert sockets.Keys == {};
    } else {
      var p :| p in pairs;
      assert p == (p.0, p.1);
      var rest := sockets - {p.0};
      PairCount(pairs - {p}, rest);
      assert sockets.Keys == rest.Keys + {p.0};
    }
  }

  class ConnectionManager {
    var userConnections: map<string, set<string>>
    var socketUsers: map<string, string>

    /** The pairs of connected sockets and their users, as a plain relation. */
    ghost var connected: set<(string, string)>

    ghost predicate Valid()
      reads this
    {
      && Matched(userConnections, socketUsers)
      && Lists(connected, socketUsers)
    }

    constructor ()
      ensures Valid() && connected == {}
    {
      userConnections, socketUsers, connected := map[], map[], {};
    }

    /** A socket connects. Socket ids are fresh, or at least not in use for another user. */
    method Connect(socketId: string, userId: string)
      requires Valid() && (socketId in socketUsers ==> socketUsers[socketId] == userId)
      modifies this
      ensures Valid() && connected == old(connected) + {(socketId, userId)}
    {
      ConnectKeepsMatched(userConnections, socketUsers, socketId, userId);
      ghost var expected := ConnectUsers(userConnections, socketId, userId);
      if userId !in userConnections {
        userConnections := userConnections[userId := {}];
      }
      userConnections := userConnections[userId := userConnections[userId] + {socketId}];
      socketUsers := socketUsers[socketId := userId];
      connected := connected + {(socketId, userId)};
      assert userConnections == expected;
    }

    /**
     A socket disconnects. The handler takes an empty user id for none, so such a socket is
     never taken off the books.
     */
    method Disconnect(socketId: string)
      requires Valid()
      modifies this
      ensures Valid()
      ensures connected ==
        if socketId in old(socketUsers) && old(socketUsers)[socketId] != ""
        then old(connected) - {(socketId, old(socketUsers)[socketId])}
        else old(connected)
    {
      if socketId in socketUsers && socketUsers[socketId] != "" {
        var userId := socketUsers[socketId];
        assert userId in userConnections && socketId in userConnections[userId];
        var userSockets := userConnections[userId] - {socketId};
        if |userSockets| == 0 {
          userConnections := userConnections - {userId};
        } else {
          userConnections := userConnections[userId := userSockets];
        }
        socketUsers := socketUsers - {socketId};
        connected := connected - {(socketId, userId)};
        RemoveMatched(old(userConnections), old(socketUsers), socketId);
      }
    }

    /** The users that have a socket. */
    method GetConnectedUsers() returns (users: set<string>)
      requires Valid()
      ensures forall u :: u in users <==> exists s :: (s, u) in connected
    {
      users := userConnections.Keys;
      forall u
        ensures u in users <==> exists s :: (s, u) in connected
      {
        if u in users {
          var s :| s in userConnections[u];
          assert (s, u) in connected;
        }
        if s :| (s, u) in connected {
          assert s in userConnections[u];
        }
      }
    }

    method GetUserConnectionCount(userId: string) returns (count: nat)
      requires Valid()
      ensures count == |set s | s in socketUsers && (s, userId) in connected|
    {
      count := if userId in userConnections then |userConnections[userId]| else 0;
      var mine := set s | s in socketUsers && (s, userId) in connected;
      if userId in userConnections {
        assert mine == userConnections[userId];
      } else {
        assert mine == {};
      }
    }

    method IsUserConnected(userId: string) returns (online: bool)
      requires Valid()
      ensures online <==> exists s :: (s, userId) in connected
    {
      online := userId in userConnections && |userConnections[userId]| > 0;
      if online {
        assert userConnections[userId] != {};
        var s :| s in userConnections[userId];
        assert (s, userId) in connected;
      }
      if s :| (s, userId) in connected {
        assert s in userConnections[userId];
      }
    }

    /** The sizes of all sets add up to the number of tracked sockets. */
    method GetTotalConnections() returns (total: nat)
      requires Valid()
      ensures total == |socketUsers| == |connected|
    {
      total := 0;
      var todo := userConnections.Keys;
      ghost var done: set<string> := {};
      NoneCounted(socketUsers);
      while todo != {}
        invariant todo + done == userConnections.Keys && todo !! done
        invariant total == |SocketsOf(socketUsers, done)|
        decreases todo
      {
        var u :| u in todo;
        CountOneMore(userConnections, socketUsers, done, u);
        total := total + |userConnections[u]|;
        todo := todo - {u};
        done := done + {u};
      }
      assert done == userConnections.Keys;
      AllCounted(userConnections, socketUsers);
      PairCount(connected, socketUsers);
    }
  }

  lemma RemoveMatched(users: map<string, set<string>>, sockets: map<string, string>, socketId: string)
    requires Matched(users, sockets) && socketId in sockets
    requires sockets[socketId] in users
    ensures
      var u := sockets[socketId];
      var rest := users[u] - {socketId};
      Matched(if rest == {} then users - {u} else users[u := rest], sockets - {socketId})
  {
    var u := sockets[socketId];
    var rest := users[u] - {socketId};
    var users' := if rest == {} then users - {u} else users[u := rest];
    var sockets' := sockets - {socketId};
    forall v, s
      ensures (v in users' && s in users'[v]) <==> (s in sockets' && sockets'[s] == v)
    {
      assert (v in users && s in users[v]) <==> (s in sockets && sockets[s] == v);
    }
  }
}
