/** The token table and the calls that work on it, as objects changed one database call at a time. */
module Auth {
  import opened TokenRotation

  /** The table, with one method for each repository function. */
  class RefreshTokenRepository {
    var rows: map<Token, Row>

    constructor ()
      ensures rows == map[]
    {
      rows := map[];
    }

    method Create(token: Token, userId: string, expiresAt: int)
      modifies this
      ensures rows == old(rows)[token := Row(userId, expiresAt)]
    {
      rows := rows[token := Row(userId, expiresAt)];
    }

    method FindByToken(token: Token) returns (found: bool, row: Row)
      ensures found <==> token in rows
      ensures found ==> row == rows[token]
    {
      if token in rows {
        return true, rows[token];
      }
      return false, Row("", 0);
    }

    /** Deleting a missing row throws. */
    method DeleteByToken(token: Token) returns (ok: bool)
      modifies this
      ensures ok <==> token in old(rows)
      ensures rows == old(rows) - {token}
    {
      ok := token in rows;
      rows := rows - {token};
    }

    method DeleteByUserId(userId: string)
      modifies this
      ensures rows.Keys <= old(rows).Keys
      ensures forall t | t in old(rows) ::
        if old(rows)[t].userId == userId then t !in rows else t in rows && rows[t] == old(rows)[t]
    {
      rows := TokenRotation.DeleteByUserId(rows, userId);
    }

    method DeleteExpired(now: int)
      modifies this
      ensures rows.Keys <= old(rows).Keys
      ensures forall t | t in old(rows) ::
        if old(rows)[t].expiresAt < now then t !in rows else t in rows && rows[t] == old(rows)[t]
    {
      rows := TokenRotation.DeleteExpired(rows, now);
    }
  }

  class AuthService {
    const refreshTokens: RefreshTokenRepository
    var calls: seq<Call>
    var returned: set<Token>
    var session: seq<nat>
    var user: seq<string>

    function Snapshot(): State
      reads this, refreshTokens
    {
      State(refreshTokens.rows, calls, returned, session, user)
    }

    constructor ()
      ensures fresh(refreshTokens) && Snapshot() == INITIAL
    {
      refreshTokens := new RefreshTokenRepository();
      calls, returned, session, user := [], {}, [], [];
    }

    method StartLogin(userId: string)
      modifies this
      ensures Snapshot() == Next(old(Snapshot()), Login(userId))
      ensures Snapshot() == old(Snapshot()).(calls := old(calls) + [LoggingIn(userId)])
    {
      calls := calls + [LoggingIn(userId)];
    }

    /** The row that `generateTokens` stores. */
    method StoreToken(userId: string, expiresAt: int, sessionId: nat) returns (token: Token)
      modifies this`session, refreshTokens
      ensures token == |old(session)| && session == old(session) + [sessionId]
      ensures refreshTokens.rows == old(refreshTokens.rows)[token := Row(userId, expiresAt)]
    {
      token := |session|;
      refreshTokens.Create(token, userId, expiresAt);
      session := session + [sessionId];
    }

    method OnLoginStored(c: nat, expiresAt: int)
      requires Enabled(Snapshot(), StoreLogin(c, expiresAt))
      modifies this, refreshTokens
      ensures Snapshot() == Next(old(Snapshot()), StoreLogin(c, expiresAt))
      ensures
        var token, userId := |old(session)|, old(calls)[c].userId;
        && refreshTokens.rows == old(refreshTokens.rows)[token := Row(userId, expiresAt)]
        && session == old(session) + [|old(user)|] && user == old(user) + [userId]
        && calls == old(calls)[c := LoginStored(token)] && returned == old(returned)
    {
      var userId := calls[c].userId;
      var token := StoreToken(userId, expiresAt, |user|);
      user := user + [userId];
      calls := calls[c := LoginStored(token)];
    }

    method StartRefresh(refreshToken: Token)
      requires refreshToken in returned
      modifies this
      ensures Snapshot() == Next(old(Snapshot()), Refresh(refreshToken))
      ensures Snapshot() == old(Snapshot()).(calls := old(calls) + [Refreshing(refreshToken)])
    {
      calls := calls + [Refreshing(refreshToken)];
    }

    method OnFound(c: nat, now: int)
      requires Enabled(Snapshot(), Find(c, now))
      modifies this
      ensures Snapshot() == Next(old(Snapshot()), Find(c, now))
      ensures Snapshot() == old(Snapshot()).(calls := old(calls)[c := calls[c]])
      ensures
        var t, rows := old(calls)[c].spent, old(refreshTokens.rows);
        && (t !in rows ==> calls[c] == Threw)
        && (t in rows && rows[t].expiresAt < now ==> calls[c] == FoundExpired(t))
        && (t in rows && rows[t].expiresAt >= now ==> calls[c] == FoundValid(t, rows[t].userId))
    {
      var refreshToken := calls[c].spent;
      var found, storedToken := refreshTokens.FindByToken(refreshToken);
      if !found {
        calls := calls[c := Threw];
      } else if storedToken.expiresAt < now {
        calls := calls[c := FoundExpired(refreshToken)];
      } else {
        calls := calls[c := FoundValid(refreshToken, storedToken.userId)];
      }
    }

    method OnExpiredDropped(c: nat)
      requires Enabled(Snapshot(), DropExpired(c))
      modifies this, refreshTokens
      ensures Snapshot() == Next(old(Snapshot()), DropExpired(c))
      ensures
        Snapshot() == old(Snapshot()).(rows := old(refreshTokens.rows) - {old(calls)[c].spent},
                                       calls := old(calls)[c := Threw])
    {
      var ok := refreshTokens.DeleteByToken(calls[c].spent);
      calls := calls[c := Threw];
    }

    method OnRefreshStored(c: nat, expiresAt: int)
      requires Enabled(Snapshot(), StoreRefresh(c, expiresAt))
      modifies this, refreshTokens
      ensures Snapshot() == Next(old(Snapshot()), StoreRefresh(c, expiresAt))
      ensures
        var token, spent := |old(session)|, old(calls)[c].spent;
        && refreshTokens.rows == old(refreshTokens.rows)[token := Row(old(calls)[c].userId, expiresAt)]
        && session == old(session) + [old(session)[spent]] && user == old(user)
        && calls == old(calls)[c := RefreshStored(spent, token)] && returned == old(returned)
    {
      var refreshToken := calls[c].spent;
      var token := StoreToken(calls[c].userId, expiresAt, session[refreshToken]);
      calls := calls[c := RefreshStored(refreshToken, token)];
    }

    method OnOldDeleted(c: nat)
      requires Enabled(Snapshot(), DeleteOld(c))
      modifies this, refreshTokens
      ensures Snapshot() == Next(old(Snapshot()), DeleteOld(c))
      ensures
        var spent, minted := old(calls)[c].spent, old(calls)[c].minted;
        && refreshTokens.rows == old(refreshTokens.rows) - {spent}
        && calls == old(calls)[c := if spent in old(refreshTokens.rows) then RefreshDeleted(spent, minted) else Threw]
        && session == old(session) && user == old(user) && returned == old(returned)
    {
      var refreshToken, minted := calls[c].spent, calls[c].minted;
      var ok := refreshTokens.DeleteByToken(refreshToken);
      if ok {
        calls := calls[c := RefreshDeleted(refreshToken, minted)];
      } else {
        assert refreshTokens.rows == old(refreshTokens.rows);
        calls := calls[c := Threw];
      }
    }

    /** The caller gets its new pair. */
    method OnAnswered(c: nat)
      requires Enabled(Snapshot(), Answer(c))
      modifies this
      ensures Snapshot() == Next(old(Snapshot()), Answer(c))
      ensures returned == old(returned) + {old(calls)[c].minted}
      ensures
        calls == old(calls)[c := if old(calls)[c].LoginStored? then LoginAnswered(old(calls)[c].minted)
                                 else RefreshAnswered(old(calls)[c].spent, old(calls)[c].minted)]
      ensures refreshTokens.rows == old(refreshTokens.rows) && session == old(session) && user == old(user)
    {
      returned := returned + {calls[c].minted};
      calls := calls[c := if calls[c].LoginStored? then LoginAnswered(calls[c].minted)
                          else RefreshAnswered(calls[c].spent, calls[c].minted)];
    }

    /** `logout` swallows the error of a missing row. */
    method LogoutOne(refreshToken: Token)
      modifies refreshTokens
      ensures Snapshot() == Next(old(Snapshot()), Logout(refreshToken))
      ensures refreshTokens.rows == old(refreshTokens.rows) - {refreshToken}
    {
      var ok := refreshTokens.DeleteByToken(refreshToken);
    }

    method LogoutEverywhere(userId: string)
      modifies refreshTokens
      ensures Snapshot() == Next(old(Snapshot()), LogoutAll(userId))
      ensures forall t :: t in refreshTokens.rows <==>
        t in old(refreshTokens.rows) && old(refreshTokens.rows)[t].userId != userId
      ensures forall t | t in refreshTokens.rows :: refreshTokens.rows[t] == old(refreshTokens.rows)[t]
    {
      refreshTokens.DeleteByUserId(userId);
      assert refreshTokens.rows == TokenRotation.DeleteByUserId(old(refreshTokens.rows), userId);
    }

    method CleanupExpiredTokens(now: int)
      modifies refreshTokens
      ensures Snapshot() == Next(old(Snapshot()), CleanupExpired(now))
      ensures forall t :: t in refreshTokens.rows <==>
        t in old(refreshTokens.rows) && old(refreshTokens.rows)[t].expiresAt >= now
      ensures forall t | t in refreshTokens.rows :: refreshTokens.rows[t] == old(refreshTokens.rows)[t]
    {
      refreshTokens.DeleteExpired(now);
      assert refreshTokens.rows == TokenRotation.DeleteExpired(old(refreshTokens.rows), now);
    }
  }
}
