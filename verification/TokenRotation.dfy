/**
 Refresh-token rotation as a protocol over one shared table. Every database call is one
 atomic event, so any number of logins, refreshes and logouts interleave freely, and any
 of them may stop between two calls.
 */
module TokenRotation {

  /** Tokens are random and never repeat; they are numbered in the order they are made. */
  type Token = nat

  datatype Row = Row(userId: string, expiresAt: int)

  /** How far one call of the service has come. */
  datatype Call =
    | LoggingIn(userId: string)
    | LoginStored(minted: Token)
    | LoginAnswered(minted: Token)
    | Refreshing(spent: Token)
    | FoundExpired(spent: Token)
    | FoundValid(spent: Token, userId: string)
    | RefreshStored(spent: Token, minted: Token)
    | RefreshDeleted(spent: Token, minted: Token)
    | RefreshAnswered(spent: Token, minted: Token)
    | Threw

  /**
   `rows` is the table. `calls` are all calls so far, `returned` the tokens that clients
   were given, `session[t]` the login that token t goes back to, and `user[n]` whose
   login the n-th session is.
   */
  datatype State = State(
    rows: map<Token, Row>, calls: seq<Call>, returned: set<Token>, session: seq<nat>, user: seq<string>)

  const INITIAL := State(map[], [], {}, [], [])

  datatype Event =
    | Login(userId: string)
    | StoreLogin(c: nat, expiresAt: int)
    | Refresh(token: Token)
    | Find(c: nat, now: int)
    | DropExpired(c: nat)
    | StoreRefresh(c: nat, expiresAt: int)
    | DeleteOld(c: nat)
    | Answer(c: nat)
    | Abort(c: nat)
    | Logout(token: Token)
    | LogoutAll(userId: string)
    | CleanupExpired(now: int)

  /** Clients present only tokens that they were given; every call takes its steps in order. */
  predicate Enabled(s: State, e: Event) {
    match e
    case Login(_) => true
    case StoreLogin(c, _) => c < |s.calls| && s.calls[c].LoggingIn?
    case Refresh(token) => token in s.returned
    case Find(c, _) => c < |s.calls| && s.calls[c].Refreshing?
    case DropExpired(c) => c < |s.calls| && s.calls[c].FoundExpired?
    case StoreRefresh(c, _) => c < |s.calls| && s.calls[c].FoundValid? && s.calls[c].spent < |s.session|
    case DeleteOld(c) => c < |s.calls| && s.calls[c].RefreshStored?
    case Answer(c) => c < |s.calls| && (s.calls[c].LoginStored? || s.calls[c].RefreshDeleted?)
    case Abort(c) => c < |s.calls| && !s.calls[c].LoginAnswered? && !s.calls[c].RefreshAnswered?
    case Logout(_) => true
    case LogoutAll(_) => true
    case CleanupExpired(_) => true
  }

  function SetCall(s: State, c: nat, call: Call): State
    requires c < |s.calls|
  {
    s.(calls := s.calls[c := call])
  }

  /** `create`: a row for a fresh token of the given session. */
  function Create(s: State, userId: string, expiresAt: int, session: nat): State {
    s.(rows := s.rows[|s.session| := Row(userId, expiresAt)], session := s.session + [session])
  }

  function DeleteByUserId(rows: map<Token, Row>, userId: string): map<Token, Row> {
    map t | t in rows && rows[t].userId != userId :: rows[t]
  }

  function DeleteExpired(rows: map<Token, Row>, now: int): map<Token, Row> {
    map t | t in rows && rows[t].expiresAt >= now :: rows[t]
  }

  function Step(s: State, e: Event): State
    requires Enabled(s, e)
  {
    match e
    case Login(userId) => s.(calls := s.calls + [LoggingIn(userId)])
    case StoreLogin(c, expiresAt) =>
      var userId := s.calls[c].userId;
      SetCall(Create(s.(user := s.user + [userId]), userId, expiresAt, |s.user|), c, LoginStored(|s.session|))
    case Refresh(token) => s.(calls := s.calls + [Refreshing(token)])
    case Find(c, now) =>
      var t := s.calls[c].spent;
      SetCall(s, c,
        if t !in s.rows then Threw
        else if s.rows[t].expiresAt < now then FoundExpired(t)
        else FoundValid(t, s.rows[t].userId))
    case DropExpired(c) => SetCall(s.(rows := s.rows - {s.calls[c].spent}), c, Threw)
    case StoreRefresh(c, expiresAt) =>
      var t := s.calls[c].spent;
      SetCall(Create(s, s.calls[c].userId, expiresAt, s.session[t]), c, RefreshStored(t, |s.session|))
    case DeleteOld(c) =>
      var t := s.calls[c].spent;
      if t in s.rows then SetCall(s.(rows := s.rows - {t}), c, RefreshDeleted(t, s.calls[c].minted))
      else SetCall(s, c, Threw)
    case Answer(c) =>
      SetCall(s.(returned := s.returned + {s.calls[c].minted}), c,
        if s.calls[c].LoginStored? then LoginAnswered(s.calls[c].minted)
        else RefreshAnswered(s.calls[c].spent, s.calls[c].minted))
    case Abort(c) => SetCall(s, c, Threw)
    case Logout(token) => s.(rows := s.rows - {token})
    case LogoutAll(userId) => s.(rows := DeleteByUserId(s.rows, userId))
    case CleanupExpired(now) => s.(rows := DeleteExpired(s.rows, now))
  }

  function Next(s: State, e: Event): State {
    if Enabled(s, e) then Step(s, e) else s
  }

  /** The state that a run of events leads to from s. */
  function Run(s: State, run: seq<Event>): State {
    if run == [] then s else Next(Run(s, run[..|run| - 1]), run[|run| - 1])
  }

  // ---------------------------------------------------------------------------------
  // The invariant

  /** t has been given to a client, or a call has nothing left to do but to give it. */
  ghost predicate Promised(s: State, t: Token) {
    t in s.returned
    || exists c | 0 <= c < |s.calls| :: (s.calls[c] == LoginStored(t) || (s.calls[c].RefreshDeleted? && s.calls[c].minted == t))
  }

  /** t is a usable token of session n. */
  ghost predicate Usable(s: State, n: nat, t: Token) {
    t < |s.session| && s.session[t] == n && t in s.rows && Promised(s, t)
  }

  predicate CallOk(s: State, call: Call) {
    match call
    case Refreshing(t) => t in s.returned
    case FoundValid(t, userId) => t in s.returned && t < |s.session| && s.session[t] < |s.user| && userId == s.user[s.session[t]]
    case RefreshStored(t, f) => t in s.returned && t < |s.session| && f < |s.session| && s.session[f] == s.session[t]
    case RefreshDeleted(t, f) => t < |s.session| && f < |s.session| && t !in s.rows
    case RefreshAnswered(t, f) => t < |s.session| && t !in s.rows
    case LoginStored(f) => f < |s.session|
    case _ => true
  }

  /** This call has exchanged token t for a new one. */
  predicate Redeemed(call: Call, t: Token) {
    (call.RefreshDeleted? || call.RefreshAnswered?) && call.spent == t
  }

  /** The parts of the invariant that speak of one call or one row at a time. */
  ghost predicate Sound(s: State) {
    && (forall t | t in s.returned :: t < |s.session|)
    && (forall t | t in s.rows :: t < |s.session|)
    && (forall t | 0 <= t < |s.session| :: s.session[t] < |s.user|)
    && (forall t | t in s.rows :: s.rows[t].userId == s.user[s.session[t]])
    && (forall c | 0 <= c < |s.calls| :: CallOk(s, s.calls[c]))
  }

  /** No token is exchanged twice. */
  ghost predicate OneRedeemer(s: State) {
    forall c, d, t {:trigger Redeemed(s.calls[c], t), Redeemed(s.calls[d], t)} | 0 <= c < d < |s.calls| ::
      !(Redeemed(s.calls[c], t) && Redeemed(s.calls[d], t))
  }

  /** No session has two usable tokens. */
  ghost predicate OneUsable(s: State) {
    forall n: nat, t: Token, u: Token {:trigger Usable(s, n, t), Usable(s, n, u)} ::
      Usable(s, n, t) && Usable(s, n, u) ==> t == u
  }

  ghost predicate Inv(s: State) {
    Sound(s) && OneRedeemer(s) && OneUsable(s)
  }

  /** No usable token becomes usable without having been so, except where the event says. */
  ghost predicate NoneGained(s: State, s': State) {
    forall n: nat, t: Token {:trigger Usable(s', n, t)} :: Usable(s', n, t) ==> Usable(s, n, t)
  }

  lemma PromisedBy(s: State, c: nat, t: Token)
    requires c < |s.calls|
    requires s.calls[c] == LoginStored(t) || (s.calls[c].RefreshDeleted? && s.calls[c].minted == t)
    ensures Promised(s, t)
  {
  }

  /** Events that neither store nor exchange a token make nothing usable. */
  lemma QuietGainsNothing(s: State, e: Event)
    requires Inv(s) && Enabled(s, e)
    requires !e.StoreLogin? && !e.DeleteOld?
    ensures NoneGained(s, Step(s, e))
  {
    var s' := Step(s, e);
    forall n: nat, t: Token | Usable(s', n, t)
      ensures Usable(s, n, t)
    {
      if t in s'.returned && t !in s.returned {
        PromisedBy(s, e.c, t);
      } else if t !in s'.returned {
        var d :| 0 <= d < |s'.calls|
          && (s'.calls[d] == LoginStored(t) || (s'.calls[d].RefreshDeleted? && s'.calls[d].minted == t));
        assert d < |s.calls| && s'.calls[d] == s.calls[d];
        assert CallOk(s, s.calls[d]);
      }
    }
  }

  /** An exchange passes usability from the old token to the new one within the session. */
  lemma ExchangePasses(s: State, c: nat)
    requires Inv(s) && Enabled(s, DeleteOld(c)) && s.calls[c].spent in s.rows
    ensures
      var s' := Step(s, DeleteOld(c));
      var t := s.calls[c].spent;
      && Usable(s, s.session[t], t)
      && forall n: nat, u: Token {:trigger Usable(s', n, u)} :: Usable(s', n, u) ==>
           (u == s.calls[c].minted && n == s.session[t]) || (Usable(s, n, u) && u != t)
  {
    var s' := Step(s, DeleteOld(c));
    var t := s.calls[c].spent;
    assert CallOk(s, s.calls[c]);
    forall n: nat, u: Token | Usable(s', n, u) && u != s.calls[c].minted
      ensures Usable(s, n, u) && u != t
    {
      if u !in s'.returned {
        var d :| 0 <= d < |s'.calls|
          && (s'.calls[d] == LoginStored(u) || (s'.calls[d].RefreshDeleted? && s'.calls[d].minted == u));
        PromisedBy(s, d, u);
      }
    }
  }

  /** A login makes one token usable, in a session of its own. */
  lemma LoginGains(s: State, c: nat, expiresAt: int)
    requires Inv(s) && Enabled(s, StoreLogin(c, expiresAt))
    ensures
      var s' := Step(s, StoreLogin(c, expiresAt));
      forall n: nat, u: Token {:trigger Usable(s', n, u)} :: Usable(s', n, u) ==>
        (u == |s.session| && n == |s.user|) || (Usable(s, n, u) && n < |s.user|)
  {
    var s' := Step(s, StoreLogin(c, expiresAt));
    forall n: nat, u: Token | Usable(s', n, u) && u != |s.session|
      ensures Usable(s, n, u) && n < |s.user|
    {
      if u !in s'.returned {
        var d :| 0 <= d < |s'.calls|
          && (s'.calls[d] == LoginStored(u) || (s'.calls[d].RefreshDeleted? && s'.calls[d].minted == u));
        PromisedBy(s, d, u);
      }
    }
  }

  lemma OneUsableKept(s: State, e: Event)
    requires Inv(s) && Enabled(s, e)
    ensures OneUsable(Step(s, e))
  {
    var s' := Step(s, e);
    if e.StoreLogin? {
      LoginGains(s, e.c, e.expiresAt);
    } else if e.DeleteOld? && s.calls[e.c].spent in s.rows {
      ExchangePasses(s, e.c);
    } else if e.DeleteOld? {
      QuietGainsNothing(s, Abort(e.c));
    } else {
      QuietGainsNothing(s, e);
    }
  }

  lemma RowsKept(s: State, e: Event)
    requires Inv(s) && Enabled(s, e)
    ensures
      var s' := Step(s, e);
      && (forall t | t in s'.rows :: t < |s'.session| && (t < |s.session| ==> t in s.rows))
      && (forall t | t in s'.returned :: t < |s'.session|)
      && (forall t | 0 <= t < |s'.session| :: s'.session[t] < |s'.user|)
      && (forall t | t in s'.rows :: s'.rows[t].userId == s'.user[s'.session[t]])
  {
    if e.StoreLogin? || e.StoreRefresh? || e.Answer? {
      assert CallOk(s, s.calls[e.c]);
    }
  }

  /** Sessions and their users are only ever added to, and only the event's own call moves. */
  lemma HistoryKept(s: State, e: Event)
    requires Enabled(s, e)
    ensures s.session <= Step(s, e).session && s.user <= Step(s, e).user && s.returned <= Step(s, e).returned
    ensures |s.calls| <= |Step(s, e).calls| <= |s.calls| + 1
    ensures forall d | 0 <= d < |s.calls| :: Step(s, e).calls[d] == s.calls[d] || HasCall(e, d)
  {
  }

  predicate HasCall(e: Event, d: nat) {
    match e
    case StoreLogin(c, _) => c == d
    case Find(c, _) => c == d
    case DropExpired(c) => c == d
    case StoreRefresh(c, _) => c == d
    case DeleteOld(c) => c == d
    case Answer(c) => c == d
    case Abort(c) => c == d
    case _ => false
  }

  lemma SoundKept(s: State, e: Event)
    requires Inv(s) && Enabled(s, e)
    ensures Sound(Step(s, e))
  {
    var s' := Step(s, e);
    RowsKept(s, e);
    HistoryKept(s, e);
    forall d | 0 <= d < |s'.calls|
      ensures CallOk(s', s'.calls[d])
    {
      CallKept(s, e, d);
    }
  }

  /** A call that an event does not move stays sound. */
  lemma CallStays(s: State, s': State, call: Call)
    requires CallOk(s, call)
    requires s.session <= s'.session && s.user <= s'.user && s.returned <= s'.returned
    requires forall t | 0 <= t < |s.session| :: t in s'.rows ==> t in s.rows
    ensures CallOk(s', call)
  {
  }

  lemma CallMoves(s: State, e: Event, d: nat)
    requires Inv(s) && Enabled(s, e) && d < |s.calls| && HasCall(e, d)
    ensures CallOk(Step(s, e), Step(s, e).calls[d])
  {
    assert CallOk(s, s.calls[d]);
  }

  lemma CallKept(s: State, e: Event, d: nat)
    requires Inv(s) && Enabled(s, e) && d < |Step(s, e).calls|
    ensures CallOk(Step(s, e), Step(s, e).calls[d])
  {
    if d < |s.calls| && HasCall(e, d) {
      CallMoves(s, e, d);
    } else if d < |s.calls| {
      RowsKept(s, e);
      HistoryKept(s, e);
      CallStays(s, Step(s, e), s.calls[d]);
    }
  }

  lemma RedeemedKept(s: State, e: Event, c: nat, d: nat, t: Token)
    requires Inv(s) && Enabled(s, e) && c < d < |Step(s, e).calls|
    ensures !(Redeemed(Step(s, e).calls[c], t) && Redeemed(Step(s, e).calls[d], t))
  {
    if d < |s.calls| {
      assert CallOk(s, s.calls[c]) && CallOk(s, s.calls[d]);
      assert !(Redeemed(s.calls[c], t) && Redeemed(s.calls[d], t));
    }
  }

  lemma StepKeeps(s: State, e: Event)
    requires Inv(s) && Enabled(s, e)
    ensures Inv(Step(s, e))
  {
    SoundKept(s, e);
    OneUsableKept(s, e);
    forall c, d, t | 0 <= c < d < |Step(s, e).calls|
      ensures !(Redeemed(Step(s, e).calls[c], t) && Redeemed(Step(s, e).calls[d], t))
    {
      RedeemedKept(s, e, c, d, t);
    }
  }

  lemma {:induction false} RunKeeps(s: State, run: seq<Event>)
    requires Inv(s)
    ensures Inv(Run(s, run))
  {
    if run != [] {
      RunKeeps(s, run[..|run| - 1]);
      if Enabled(Run(s, run[..|run| - 1]), run[|run| - 1]) {
        StepKeeps(Run(s, run[..|run| - 1]), run[|run| - 1]);
      }
    }
  }

  lemma InitialInv()
    ensures Inv(INITIAL)
  {
    forall n: nat, t: Token
      ensures !Usable(INITIAL, n, t)
    {
    }
  }

  // ---------------------------------------------------------------------------------
  // The theorems

  /** However many refreshes race, a token is exchanged for a new one at most once. */
  lemma SingleRedemption(run: seq<Event>, c: nat, d: nat, t: Token)
    requires c < |Run(INITIAL, run).calls| && d < |Run(INITIAL, run).calls|
    requires Redeemed(Run(INITIAL, run).calls[c], t) && Redeemed(Run(INITIAL, run).calls[d], t)
    ensures c == d
  {
    InitialInv();
    RunKeeps(INITIAL, run);
  }

  /** A session never has two tokens that a client holds and the table accepts. */
  lemma OneLiveTokenPerSession(run: seq<Event>, t: Token, u: Token)
    requires
      var s := Run(INITIAL, run);
      && t in s.rows && t in s.returned && u in s.rows && u in s.returned
      && t < |s.session| && u < |s.session| && s.session[t] == s.session[u]
    ensures t == u
  {
    InitialInv();
    RunKeeps(INITIAL, run);
    hide Next;
    var s := Run(INITIAL, run);
    assert Usable(s, s.session[t], t) && Usable(s, s.session[u], u);
  }

  /** Session n exists and none of its tokens is usable or about to be. */
  ghost predicate Ended(s: State, n: nat) {
    n < |s.user| && forall t: Token :: !Usable(s, n, t)
  }

  /** An ended session stays ended, whatever calls are still under way. */
  lemma EndedKept(s: State, e: Event, n: nat)
    requires Inv(s) && Enabled(s, e) && Ended(s, n)
    ensures Ended(Step(s, e), n)
  {
    HistoryKept(s, e);
    if e.StoreLogin? {
      LoginGains(s, e.c, e.expiresAt);
    } else if e.DeleteOld? && s.calls[e.c].spent in s.rows {
      ExchangePasses(s, e.c);
    } else if e.DeleteOld? {
      QuietGainsNothing(s, Abort(e.c));
    } else {
      QuietGainsNothing(s, e);
    }
  }

  lemma {:induction false} EndedForGood(s: State, run: seq<Event>, n: nat)
    requires Inv(s) && Ended(s, n)
    ensures Ended(Run(s, run), n)
  {
    if run != [] {
      var before := run[..|run| - 1];
      RunKeeps(s, before);
      EndedForGood(s, before, n);
      if Enabled(Run(s, before), run[|run| - 1]) {
        EndedKept(Run(s, before), run[|run| - 1], n);
      }
    }
  }

  lemma LogoutAllEnds(s: State, userId: string, n: nat)
    requires Inv(s) && n < |s.user| && s.user[n] == userId
    ensures Ended(Step(s, LogoutAll(userId)), n)
  {
  }

  /**
   Once a user has logged out everywhere, no session that had begun by then ever again has a
   token that a client holds and the table accepts, refreshes caught in mid-flight included.
   */
  lemma LogoutAllIsFinal(before: seq<Event>, userId: string, later: seq<Event>, t: Token)
    requires
      var s := Run(INITIAL, before);
      var s' := Run(Step(s, LogoutAll(userId)), later);
      && t < |s'.session|
      && s'.session[t] < |s.user|
      && s.user[s'.session[t]] == userId
    ensures
      var s' := Run(Step(Run(INITIAL, before), LogoutAll(userId)), later);
      !(t in s'.rows && t in s'.returned)
  {
    InitialInv();
    RunKeeps(INITIAL, before);
    var s := Run(INITIAL, before);
    var out := Step(s, LogoutAll(userId));
    StepKeeps(s, LogoutAll(userId));
    hide Next;
    var n := Run(out, later).session[t];
    LogoutAllEnds(s, userId, n);
    EndedForGood(out, later, n);
    assert !Usable(Run(out, later), n, t);
  }

  /** Logging out with one token ends its session exactly if no other token of it is usable. */
  lemma LogoutEnds(s: State, t: Token)
    requires Inv(s) && t < |s.session|
    ensures
      Ended(Step(s, Logout(t)), s.session[t])
      <==> forall u: Token :: Usable(s, s.session[t], u) ==> u == t
  {
    var n := s.session[t];
    var s' := Step(s, Logout(t));
    QuietGainsNothing(s, Logout(t));
    forall u: Token | u != t
      ensures Usable(s', n, u) <==> Usable(s, n, u)
    {
      if Usable(s, n, u) && u !in s.returned {
        var c :| 0 <= c < |s.calls| && (s.calls[c] == LoginStored(u) || (s.calls[c].RefreshDeleted? && s.calls[c].minted == u));
        PromisedBy(s', c, u);
      }
    }
  }

  /** The state once a refresh of t by call number |s.calls| has stored its new row. */
  lemma RefreshStores(s: State, t: Token, now: int, expiresAt: int) returns (s': State)
    requires Inv(s) && t in s.returned && t in s.rows && s.rows[t].expiresAt >= now
    ensures s' == Next(Next(Next(s, Refresh(t)), Find(|s.calls|, now)), StoreRefresh(|s.calls|, expiresAt))
    ensures s'.calls == s.calls + [RefreshStored(t, |s.session|)] && s'.returned == s.returned
    ensures s'.rows == s.rows[|s.session| := Row(s.rows[t].userId, expiresAt)]
  {
    var s1 := Next(s, Refresh(t));
    var s2 := Next(s1, Find(|s.calls|, now));
    assert s2.calls == s.calls + [FoundValid(t, s.rows[t].userId)];
    s' := Next(s2, StoreRefresh(|s.calls|, expiresAt));
  }

  /** A refresh that nothing interrupts swaps a live token for one new live token of the same user. */
  lemma RefreshAlone(s: State, t: Token, now: int, expiresAt: int)
    requires Inv(s) && t in s.returned && t in s.rows && s.rows[t].expiresAt >= now
    ensures
      var c, f := |s.calls|, |s.session|;
      var stored := Next(Next(Next(s, Refresh(t)), Find(c, now)), StoreRefresh(c, expiresAt));
      var s' := Next(Next(stored, DeleteOld(c)), Answer(c));
      && s'.calls == s.calls + [RefreshAnswered(t, f)]
      && s'.returned == s.returned + {f}
      && s'.rows == (s.rows - {t})[f := Row(s.rows[t].userId, expiresAt)]
  {
    var c, f := |s.calls|, |s.session|;
    var stored := RefreshStores(s, t, now, expiresAt);
    var deleted := Next(stored, DeleteOld(c));
    assert deleted.calls == s.calls + [RefreshDeleted(t, f)];
  }

  /** A refresh with an expired token throws; the row is deleted, and no token is made. */
  lemma RefreshExpired(s: State, t: Token, now: int)
    requires Inv(s) && t in s.returned && t in s.rows && s.rows[t].expiresAt < now
    ensures
      var c := |s.calls|;
      Next(Next(Next(s, Refresh(t)), Find(c, now)), DropExpired(c))
      == s.(calls := s.calls + [Threw], rows := s.rows - {t})
  {
    var c := |s.calls|;
    var found := Next(Next(s, Refresh(t)), Find(c, now));
    assert found.calls == s.calls + [FoundExpired(t)];
    assert Next(found, DropExpired(c)).calls == s.calls + [Threw];
  }

  /** A refresh with a token that has no row throws and changes nothing else. */
  lemma RefreshUnknown(s: State, t: Token, now: int)
    requires Inv(s) && t in s.returned && t !in s.rows
    ensures Next(Next(s, Refresh(t)), Find(|s.calls|, now)) == s.(calls := s.calls + [Threw])
  {
    assert Next(Next(s, Refresh(t)), Find(|s.calls|, now)).calls == s.calls + [Threw];
  }

  /** In event i of the run, call c found an unexpired row for its token t. */
  ghost predicate FoundUnexpired(run: seq<Event>, i: nat, c: nat, t: Token) {
    && i < |run| && run[i].Find? && run[i].c == c
    && var s := Run(INITIAL, run[..i]);
       && c < |s.calls| && s.calls[c] == Refreshing(t)
       && t in s.rows && s.rows[t].expiresAt >= run[i].now
  }

  predicate PastFind(call: Call) {
    call.FoundValid? || call.RefreshStored? || call.RefreshDeleted? || call.RefreshAnswered?
  }

  /** A call that has come past its lookup was there before the event, or has just found an unexpired row. */
  lemma StepFinds(s: State, e: Event, c: nat)
    requires c < |Next(s, e).calls| && PastFind(Next(s, e).calls[c])
    ensures c < |s.calls|
    ensures
      || (PastFind(s.calls[c]) && s.calls[c].spent == Next(s, e).calls[c].spent)
      || (&& e.Find? && e.c == c && s.calls[c] == Refreshing(Next(s, e).calls[c].spent)
          && s.calls[c].spent in s.rows && s.rows[s.calls[c].spent].expiresAt >= e.now)
  {
  }

  lemma {:induction false} PastFindFound(run: seq<Event>, c: nat)
    requires c < |Run(INITIAL, run).calls| && PastFind(Run(INITIAL, run).calls[c])
    ensures exists i: nat :: FoundUnexpired(run, i, c, Run(INITIAL, run).calls[c].spent)
  {
    if run != [] {
      var before, e := run[..|run| - 1], run[|run| - 1];
      var s := Run(INITIAL, before);
      var t := Run(INITIAL, run).calls[c].spent;
      StepFinds(s, e, c);
      hide Next;
      if PastFind(s.calls[c]) && s.calls[c].spent == t {
        PastFindFound(before, c);
        var i: nat :| FoundUnexpired(before, i, c, t);
        assert run[..i] == before[..i] && run[i] == before[i];
        assert FoundUnexpired(run, i, c, t);
      } else {
        assert FoundUnexpired(run, |before|, c, t);
      }
    }
  }

  /** In every run, a token is exchanged only by a call that found its row unexpired. */
  lemma {:induction false} RedeemedUnexpired(run: seq<Event>, c: nat, t: Token)
    ensures
      var s := Run(INITIAL, run);
      c < |s.calls| && Redeemed(s.calls[c], t) ==> exists i: nat :: FoundUnexpired(run, i, c, t)
  {
    var s := Run(INITIAL, run);
    if c < |s.calls| && Redeemed(s.calls[c], t) {
      PastFindFound(run, c);
    }
  }

  /** A logout everywhere that overtakes a refresh leaves a row behind, but the refresh throws and nobody gets it. */
  lemma LogoutAllLeavesOrphan(s: State, c: nat, expiresAt: int)
    requires Inv(s) && c < |s.calls| && s.calls[c].FoundValid?
    ensures
      var f := |s.session|;
      var s' := Next(Next(Next(s, LogoutAll(s.calls[c].userId)), StoreRefresh(c, expiresAt)), DeleteOld(c));
      && f in s'.rows && s'.rows[f].userId == s.calls[c].userId
      && f !in s'.returned
      && s'.calls == s.calls[c := Threw]
  {
    assert CallOk(s, s.calls[c]);
  }
}
