// Logins, tokens and their revocation, interleaved with user administration: exactly when a
// request is let in.

module Sessions {
  import opened Accounts

  datatype Token = Token(jti: nat, user: UserId, session: nat, exp: int)

  /** What a login read of its user before it signs a token. */
  datatype Login = Login(user: UserId, session: nat)

  /** How far a request has come through authentication. */
  datatype Check = Parsed(token: Token) | NotRevoked(token: Token) | Accepted(token: Token) | Refused

  datatype World = World(
    accounts: State, logins: map<nat, Login>, issued: set<Token>, revoked: map<nat, int>, checks: map<nat, Check>,
    now: int)

  /** Events that read the clock carry the reading. */
  datatype Event =
    | Administer(action: Action)
    | ReadUser(login: nat, user: UserId)
    | Sign(login: nat, jti: nat, exp: int, at: int)
    | Parse(request: nat, token: Token, at: int)
    | LookUp(request: nat, at: int)
    | FindUser(request: nat)
    | Logout(token: Token, at: int)
    | Collect(at: int)

  // ----- the revoker's memory -----

  predicate IsRevoked(items: map<nat, int>, jti: nat, now: int) {
    jti in items && now <= items[jti]
  }

  /** A look-up forgets an entry that it finds expired. */
  function AfterLookUp(items: map<nat, int>, jti: nat, now: int): map<nat, int> {
    if jti in items && now > items[jti] then items - {jti} else items
  }

  function AfterCollect(items: map<nat, int>, now: int): map<nat, int> {
    map j | j in items && now <= items[j] :: items[j]
  }

  // ----- the events -----

  predicate Lets(users: Users, token: Token) {
    Live(users, token.user) && users[token.user].enabled && users[token.user].session == token.session
  }

  function SignedBy(w: World, e: Event): Token
    requires e.Sign? && e.login in w.logins
  {
    Token(e.jti, w.logins[e.login].user, w.logins[e.login].session, e.exp)
  }

  predicate ReadsClock(e: Event) {
    e.Sign? || e.Parse? || e.LookUp? || e.Logout? || e.Collect?
  }

  predicate Happens(w: World, e: Event, w': World) {
    && (ReadsClock(e) ==> w.now <= e.at)
    && var now := if ReadsClock(e) then e.at else w.now;
       match e
       case Administer(a) => Step(w.accounts, a, w'.accounts, true) && w' == w.(accounts := w'.accounts)
       case ReadUser(l, u) =>
         && l !in w.logins && Live(w.accounts.users, u) && w.accounts.users[u].enabled
         && w' == w.(logins := w.logins[l := Login(u, w.accounts.users[u].session)])
       case Sign(l, jti, _, _) =>
         && l in w.logins && (forall t :: t in w.issued ==> t.jti != jti)
         && w' == w.(issued := w.issued + {SignedBy(w, e)}, now := now)
       case Parse(r, token, at) =>
         && r !in w.checks
         && var good := token in w.issued && at < token.exp;
            w' == w.(checks := w.checks[r := if good then Parsed(token) else Refused], now := now)
       case LookUp(r, at) =>
         && r in w.checks && w.checks[r].Parsed?
         && var token := w.checks[r].token;
            var check := if IsRevoked(w.revoked, token.jti, at) then Refused else NotRevoked(token);
            w' == w.(checks := w.checks[r := check],
                     revoked := AfterLookUp(w.revoked, token.jti, at), now := now)
       case FindUser(r) =>
         && r in w.checks && w.checks[r].NotRevoked?
         && var token := w.checks[r].token;
            w' == w.(checks := w.checks[r := if Lets(w.accounts.users, token) then Accepted(token) else Refused])
       case Logout(token, at) =>
         var good := token in w.issued && at < token.exp;
         w' == w.(revoked := if good then w.revoked[token.jti := token.exp] else w.revoked, now := now)
       case Collect(at) => w' == w.(revoked := AfterCollect(w.revoked, at), now := now)
  }

  ghost predicate History(worlds: seq<World>, events: seq<Event>) {
    && |worlds| == |events| + 1
    && worlds[0].accounts.threads == map[] && worlds[0].logins == map[] && worlds[0].issued == {}
    && worlds[0].revoked == map[] && worlds[0].checks == map[]
    && forall i :: 0 <= i < |events| ==> Happens(worlds[i], events[i], worlds[i + 1])
  }

  // ----- the session version -----

  /** The event resets the user's password, or disables or deletes the user. */
  predicate Revokes(w: World, e: Event, u: UserId) {
    && e.Administer? && Commits(w.accounts, e.action)
    && var thread := w.accounts.threads[e.action.t];
       && thread.request.id == u
       && (thread.request.Reset? || thread.request.Delete?
           || (thread.request.Update? && u in w.accounts.users && w.accounts.users[u].enabled
               && !thread.phase.row.enabled))
  }

  lemma {:induction false} AccountsSound(worlds: seq<World>, events: seq<Event>, i: nat)
    requires History(worlds, events) && i < |worlds|
    ensures AllSound(worlds[i].accounts, true)
  {
    if i == 0 {
      hide Happens, AllSound;
      NoThreadsSound(worlds[0].accounts, true);
    } else {
      AccountsSound(worlds, events, i - 1);
      assert Happens(worlds[i - 1], events[i - 1], worlds[i - 1 + 1]);
      hide AllSound, Step;
      if events[i - 1].Administer? {
        StepKeepsSound(worlds[i - 1].accounts, events[i - 1].action, worlds[i].accounts, true);
      }
    }
  }

  /** A commit raises the session version of the user exactly when it revokes. */
  lemma CommitMovesSession(w: World, e: Event, w': World, u: UserId)
    requires AllSound(w.accounts, true) && Happens(w, e, w') && u in w.accounts.users
    ensures var before, after := w.accounts.users, w'.accounts.users;
            && u in after
            && (if Revokes(w, e, u) then before[u].session < after[u].session
                else before[u].session == after[u].session)
            && (Live(before, u) && before[u].enabled && !Revokes(w, e, u) ==> Live(after, u) && after[u].enabled)
  {
    if e.Administer? {
      CommitIsSerial(w.accounts, e.action, w'.accounts);
      hide NextPhase, OtherAdmins;
    }
  }

  /** Between two moments a user's session version stands still exactly if nothing revoked it. */
  lemma {:induction false} SessionStands(worlds: seq<World>, events: seq<Event>, i: nat, k: nat, u: UserId)
    requires History(worlds, events) && i <= k < |worlds|
    requires Live(worlds[i].accounts.users, u) && worlds[i].accounts.users[u].enabled
    ensures u in worlds[k].accounts.users
    ensures worlds[i].accounts.users[u].session <= worlds[k].accounts.users[u].session
    ensures var revoked := exists j :: i <= j < k && Revokes(worlds[j], events[j], u);
            && (revoked <==> worlds[i].accounts.users[u].session < worlds[k].accounts.users[u].session)
            && (!revoked ==> Live(worlds[k].accounts.users, u) && worlds[k].accounts.users[u].enabled)
  {
    if i < k {
      SessionStands(worlds, events, i, k - 1, u);
      AccountsSound(worlds, events, k - 1);
      assert Happens(worlds[k - 1], events[k - 1], worlds[k - 1 + 1]);
      hide AllSound, Happens;
      CommitMovesSession(worlds[k - 1], events[k - 1], worlds[k], u);
    }
  }

  // ----- the revoker -----

  ghost predicate LogsOut(w: World, e: Event, token: Token) {
    e.Logout? && e.token == token && token in w.issued && e.at < token.exp
  }

  ghost predicate LoggedOut(worlds: seq<World>, events: seq<Event>, i: nat, token: Token)
    requires i <= |events| < |worlds|
  {
    exists j :: 0 <= j < i && LogsOut(worlds[j], events[j], token)
  }

  ghost predicate JtisUnique(issued: set<Token>) {
    forall s, t :: s in issued && t in issued && s.jti == t.jti ==> s == t
  }

  lemma {:induction false} IssuedOnce(worlds: seq<World>, events: seq<Event>, i: nat, k: nat)
    requires History(worlds, events) && i <= k < |worlds|
    ensures JtisUnique(worlds[k].issued) && worlds[i].issued <= worlds[k].issued && worlds[i].now <= worlds[k].now
  {
    if k > 0 {
      if i < k {
        IssuedOnce(worlds, events, i, k - 1);
      } else {
        IssuedOnce(worlds, events, i - 1, k - 1);
      }
      assert Happens(worlds[k - 1], events[k - 1], worlds[k - 1 + 1]);
      hide Step;
    }
  }

  /** The revoker answers as if it remembered every logout until the token expires. */
  lemma {:induction false} RevokerIsFaithful(worlds: seq<World>, events: seq<Event>, i: nat, token: Token, at: int)
    requires History(worlds, events) && i < |worlds| && token in worlds[i].issued && worlds[i].now <= at
    ensures IsRevoked(worlds[i].revoked, token.jti, at) <==> LoggedOut(worlds, events, i, token) && at <= token.exp
    ensures token.jti in worlds[i].revoked ==> worlds[i].revoked[token.jti] == token.exp
  {
    if i > 0 {
      var w, e, w' := worlds[i - 1], events[i - 1], worlds[i];
      IssuedOnce(worlds, events, i - 1, i);
      assert Happens(worlds[i - 1], events[i - 1], worlds[i - 1 + 1]);
      if token in w.issued {
        RevokerIsFaithful(worlds, events, i - 1, token, at);
        RevokerStep(w, e, w', token, at);
      } else {
        NeverRevoked(worlds, events, i - 1, token.jti);
      }
      assert LoggedOut(worlds, events, i, token) <==>
          LoggedOut(worlds, events, i - 1, token) || LogsOut(w, e, token);
    }
  }

  lemma RevokerStep(w: World, e: Event, w': World, token: Token, at: int)
    requires Happens(w, e, w') && JtisUnique(w.issued) && token in w.issued && w.now <= w'.now <= at
    requires token.jti in w.revoked ==> w.revoked[token.jti] == token.exp
    ensures IsRevoked(w'.revoked, token.jti, at) <==>
            IsRevoked(w.revoked, token.jti, at) || (LogsOut(w, e, token) && at <= token.exp)
    ensures token.jti in w'.revoked ==> w'.revoked[token.jti] == token.exp
  {
    hide Step;
  }

  /** Only tokens that were signed are ever entered. */
  lemma {:induction false} NeverRevoked(worlds: seq<World>, events: seq<Event>, i: nat, jti: nat)
    requires History(worlds, events) && i < |worlds| && forall t :: t in worlds[i].issued ==> t.jti != jti
    ensures jti !in worlds[i].revoked
    ensures forall j, t | 0 <= j < i && LogsOut(worlds[j], events[j], t) :: t.jti != jti
  {
    if i > 0 {
      IssuedOnce(worlds, events, i - 1, i);
      NeverRevoked(worlds, events, i - 1, jti);
      assert Happens(worlds[i - 1], events[i - 1], worlds[i - 1 + 1]);
      hide Step;
    }
  }

  // ----- requests -----

  /** A request keeps the token it came with. */
  lemma {:induction false} TokenStays(worlds: seq<World>, events: seq<Event>, p: nat, k: nat)
    requires History(worlds, events) && p < k < |worlds| && events[p].Parse?
    ensures var r := events[p].request;
            && r in worlds[k].checks
            && (!worlds[k].checks[r].Refused? ==>
                  && worlds[k].checks[r].token == events[p].token
                  && events[p].token in worlds[p].issued && events[p].at < events[p].token.exp)
  {
    if p < k - 1 {
      TokenStays(worlds, events, p, k - 1);
    }
    assert Happens(worlds[k - 1], events[k - 1], worlds[k - 1 + 1]);
    hide Step;
  }

  /**
   * A request that reaches the revoker is turned away exactly if its token was logged out before and has not
   * expired by the look-up's own reading of the clock.
   */
  lemma RefusedIffLoggedOut(worlds: seq<World>, events: seq<Event>, p: nat, c: nat)
    requires History(worlds, events) && p < c < |events|
    requires events[p].Parse? && events[c].LookUp? && events[c].request == events[p].request
    ensures events[p].request in worlds[c + 1].checks
    ensures var token := events[p].token;
            worlds[c + 1].checks[events[p].request] ==
            if LoggedOut(worlds, events, c, token) && events[c].at <= token.exp then Refused else NotRevoked(token)
  {
    TokenStays(worlds, events, p, c);
    assert Happens(worlds[c], events[c], worlds[c + 1]);
    IssuedOnce(worlds, events, p, c);
    hide Step;
    RevokerIsFaithful(worlds, events, c, events[p].token, events[c].at);
  }

  /**
   * After a logout a request gets past the revoker exactly if the token expires between the request's two
   * readings of the clock; never if both readings are the same.
   */
  lemma LoggedOutSlipsIff(worlds: seq<World>, events: seq<Event>, p: nat, c: nat)
    requires History(worlds, events) && p < c < |events|
    requires events[p].Parse? && events[c].LookUp? && events[c].request == events[p].request
    requires LoggedOut(worlds, events, c, events[p].token)
    ensures events[p].request in worlds[c + 1].checks
    ensures worlds[c + 1].checks[events[p].request] == NotRevoked(events[p].token)
            <==> events[p].at < events[p].token.exp < events[c].at
    ensures events[p].at == events[c].at ==> worlds[c + 1].checks[events[p].request] == Refused
  {
    RefusedIffLoggedOut(worlds, events, p, c);
    TokenStays(worlds, events, p, c);
    assert Happens(worlds[c], events[c], worlds[c + 1]);
    hide Step;
  }

  lemma {:induction false} LoginStays(worlds: seq<World>, events: seq<Event>, i: nat, m: nat)
    requires History(worlds, events) && i < m < |worlds| && events[i].ReadUser?
    ensures var l, u := events[i].login, events[i].user;
            && Live(worlds[i].accounts.users, u) && worlds[i].accounts.users[u].enabled
            && l in worlds[m].logins
            && worlds[m].logins[l] == Login(u, worlds[i].accounts.users[u].session)
  {
    if i < m - 1 {
      LoginStays(worlds, events, i, m - 1);
    }
    assert Happens(worlds[m - 1], events[m - 1], worlds[m - 1 + 1]);
    hide Step;
  }

  /**
   * A request whose token got past the revoker is let in exactly if no password reset, disabling or deletion
   * of its user was committed since the login read the user. Enabling the user again does not help.
   */
  lemma AcceptedIffNotRevoked(worlds: seq<World>, events: seq<Event>, i: nat, m: nat, p: nat, k: nat)
    requires History(worlds, events) && i < m < |events| && p < k < |events|
    requires events[i].ReadUser? && events[m].Sign? && events[m].login == events[i].login
    requires events[m].login in worlds[m].logins && events[p].Parse?
    requires events[p].token == SignedBy(worlds[m], events[m]) && events[k] == FindUser(events[p].request)
    ensures m < p && events[p].request in worlds[k + 1].checks
    ensures worlds[k + 1].checks[events[p].request] ==
            if exists j :: i <= j < k && Revokes(worlds[j], events[j], events[i].user) then Refused
            else Accepted(events[p].token)
  {
    TokenStays(worlds, events, p, k);
    LoginStays(worlds, events, i, m);
    assert Happens(worlds[k], events[k], worlds[k + 1]);
    assert Happens(worlds[m], events[m], worlds[m + 1]);
    hide Step;
    if p <= m {
      IssuedOnce(worlds, events, p, m);
    }
    hide Happens, Revokes;
    SessionStands(worlds, events, i, k, events[i].user);
  }

  // ----- one request from its look-up on -----

  lemma CheckStep(worlds: seq<World>, events: seq<Event>, n: nat, r: nat)
    requires History(worlds, events) && n < |events| && r in worlds[n].checks
    requires worlds[n].checks[r].Refused? || worlds[n].checks[r].Accepted?
             || (worlds[n].checks[r].NotRevoked? && events[n] != FindUser(r))
    ensures r in worlds[n + 1].checks && worlds[n + 1].checks[r] == worlds[n].checks[r]
  {
    assert Happens(worlds[n], events[n], worlds[n + 1]);
    hide Step;
  }

  /** Once a request has been let in or refused, it stays so. */
  lemma {:induction false} VerdictStands(worlds: seq<World>, events: seq<Event>, i: nat, n: nat, r: nat)
    requires History(worlds, events) && i <= n < |worlds| && r in worlds[i].checks
    requires worlds[i].checks[r].Refused? || worlds[i].checks[r].Accepted?
    ensures r in worlds[n].checks && worlds[n].checks[r] == worlds[i].checks[r]
    decreases n
  {
    hide Happens;
    if i < n {
      VerdictStands(worlds, events, i, n - 1, r);
      CheckStep(worlds, events, n - 1, r);
    }
  }

  /** The request has been checked against its user, while nothing had revoked the user's sessions. */
  ghost predicate FoundStanding(worlds: seq<World>, events: seq<Event>, i: nat, c: nat, n: nat, r: nat, u: UserId)
    requires n <= |events| < |worlds|
  {
    exists k :: c < k < n && events[k] == FindUser(r)
                && !exists j :: i <= j < k && Revokes(worlds[j], events[j], u)
  }

  /** From the look-up on, a request waits for the check of its user, which decides it for good. */
  lemma {:induction false} DecidedByUserCheck(
    worlds: seq<World>, events: seq<Event>, i: nat, m: nat, p: nat, c: nat, n: nat)
    requires History(worlds, events) && i < m < |events| && p < c < n < |worlds|
    requires events[i].ReadUser? && events[m].Sign? && events[m].login == events[i].login
    requires events[m].login in worlds[m].logins && events[p].Parse?
    requires events[p].token == SignedBy(worlds[m], events[m])
    requires var r := events[p].request;
             r in worlds[c + 1].checks && worlds[c + 1].checks[r] == NotRevoked(events[p].token)
    ensures var r, u := events[p].request, events[i].user;
            && r in worlds[n].checks
            && (worlds[n].checks[r] == Accepted(events[p].token) <==> FoundStanding(worlds, events, i, c, n, r, u))
            && (!worlds[n].checks[r].Refused? && !worlds[n].checks[r].Accepted? ==>
                  worlds[n].checks[r] == NotRevoked(events[p].token))
  {
    hide Happens, Revokes, SignedBy;
    var r, u := events[p].request, events[i].user;
    if c + 1 < n {
      DecidedByUserCheck(worlds, events, i, m, p, c, n - 1);
      if events[n - 1] == FindUser(r) {
        AcceptedIffNotRevoked(worlds, events, i, m, p, n - 1);
        FindsOnce(worlds, events, n - 1, r);
      } else {
        CheckStep(worlds, events, n - 1, r);
      }
    }
  }

  lemma FindsOnce(worlds: seq<World>, events: seq<Event>, n: nat, r: nat)
    requires History(worlds, events) && n < |events| && events[n] == FindUser(r)
    ensures r in worlds[n].checks && worlds[n].checks[r].NotRevoked?
  {
    assert Happens(worlds[n], events[n], worlds[n + 1]);
    hide Step;
  }

  /**
   * A request that has been looked up is let in exactly if its token was not logged out before, or had expired by
   * then, and the check of its user came when no password reset, disabling or deletion of the user had been
   * committed since the login; at whatever later moment one asks.
   */
  lemma AcceptedIff(worlds: seq<World>, events: seq<Event>, i: nat, m: nat, p: nat, c: nat, n: nat)
    requires History(worlds, events) && i < m < |events| && p < c < n < |worlds|
    requires events[i].ReadUser? && events[m].Sign? && events[m].login == events[i].login
    requires events[m].login in worlds[m].logins && events[p].Parse?
    requires events[p].token == SignedBy(worlds[m], events[m])
    requires events[c].LookUp? && events[c].request == events[p].request
    ensures var r, token := events[p].request, events[p].token;
            && r in worlds[n].checks
            && (worlds[n].checks[r] == Accepted(token) <==>
                  && !(LoggedOut(worlds, events, c, token) && events[c].at <= token.exp)
                  && FoundStanding(worlds, events, i, c, n, r, events[i].user))
  {
    hide Happens, SignedBy, FoundStanding, LoggedOut;
    RefusedIffLoggedOut(worlds, events, p, c);
    if worlds[c + 1].checks[events[p].request] == NotRevoked(events[p].token) {
      DecidedByUserCheck(worlds, events, i, m, p, c, n);
    } else {
      VerdictStands(worlds, events, c + 1, n, events[p].request);
    }
  }

  /**
   * So a request whose token was logged out before its look-up is let in exactly if the token expired between the
   * request's two readings of the clock and nothing revoked its user's sessions before the check of the user.
   */
  lemma LoggedOutAcceptedIff(worlds: seq<World>, events: seq<Event>, i: nat, m: nat, p: nat, c: nat, n: nat)
    requires History(worlds, events) && i < m < |events| && p < c < n < |worlds|
    requires events[i].ReadUser? && events[m].Sign? && events[m].login == events[i].login
    requires events[m].login in worlds[m].logins && events[p].Parse?
    requires events[p].token == SignedBy(worlds[m], events[m])
    requires events[c].LookUp? && events[c].request == events[p].request
    requires LoggedOut(worlds, events, c, events[p].token)
    ensures var r, token := events[p].request, events[p].token;
            && r in worlds[n].checks
            && (worlds[n].checks[r] == Accepted(token) <==>
                  && events[p].at < token.exp < events[c].at
                  && FoundStanding(worlds, events, i, c, n, r, events[i].user))
  {
    hide Happens, SignedBy, FoundStanding, LoggedOut;
    AcceptedIff(worlds, events, i, m, p, c, n);
    RefusedIffLoggedOut(worlds, events, p, c);
    LoggedOutSlipsIff(worlds, events, p, c);
  }

  /** Logged out at 8, expiring at 10, parsed at 9 and looked up at 11: the request is let in. */
  lemma LoggedOutYetAccepted() returns (worlds: seq<World>, events: seq<Event>)
    ensures History(worlds, events) && |events| == 6
    ensures events[2].Logout? && LogsOut(worlds[2], events[2], events[2].token)
    ensures events[3] == Parse(0, events[2].token, 9) && 0 in worlds[6].checks
    ensures worlds[6].checks[0] == Accepted(events[2].token)
  {
    var token := Token(7, 0, 1, 10);
    var w0 := World(State(map[0 := User(true, {}, false, 1, 1)], map[]), map[], {}, map[], map[], 0);
    var w1 := w0.(logins := map[0 := Login(0, 1)]);
    var w2 := w1.(issued := {token});
    var w3 := w2.(revoked := map[7 := 10], now := 8);
    var w4 := w3.(checks := map[0 := Parsed(token)], now := 9);
    var w5 := w4.(checks := map[0 := NotRevoked(token)], revoked := map[], now := 11);
    var w6 := w5.(checks := map[0 := Accepted(token)]);
    worlds := [w0, w1, w2, w3, w4, w5, w6];
    events := [ReadUser(0, 0), Sign(0, 7, 10, 0), Logout(token, 8), Parse(0, token, 9), LookUp(0, 11), FindUser(0)];
    assert Happens(w4, LookUp(0, 11), w5);
  }
}
