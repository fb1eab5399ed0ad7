// The user administration and the token revoker as the service runs them, statement by statement.

module AccountService {
  import opened Wrappers
  import opened Accounts
  import Sessions

  datatype Error = UserNotFound | LastAdminProtected | VersionConflict | UserConflict

  /** The call ended as its request does alone: with the new accounts, or with the error and the old ones. */
  ghost predicate Agrees(before: Users, outcome: Outcome, after: Users, error: Option<Error>) {
    match outcome
    case Done(users) => error == None && after == users
    case NotFound => error == Some(UserNotFound) && after == before
    case LastAdmin => error == Some(LastAdminProtected) && after == before
    case Stale => error == Some(VersionConflict) && after == before
    case Conflict => error == Some(UserConflict) && after == before
  }

  /** The reason given for refusing a request is one. */
  ghost predicate Refused(users: Users, r: Request, error: Error) {
    match error
    case UserNotFound => r.id in users ==> users[r.id].deleted
    case LastAdminProtected => r.id in users && ADMIN in users[r.id].roles && !Covered(users, r.id)
    case VersionConflict => !r.Create? && r.id in users && users[r.id].version != r.version
    case UserConflict => r.Create? && r.id in users
  }

  /** No token with the user's session version so far is let in any more, and nobody else notices. */
  ghost predicate SignedOut(before: Users, after: Users, id: UserId) {
    && id in before && id in after && before[id].session < after[id].session
    && (forall token: Sessions.Token :: token.user == id && token.session <= before[id].session ==>
                                          !Sessions.Lets(after, token))
    && (forall token: Sessions.Token :: token.user != id ==>
                                          (Sessions.Lets(after, token) <==> Sessions.Lets(before, token)))
  }

  /** No token is let in or kept out that was not before. */
  ghost predicate SessionsKept(before: Users, after: Users) {
    forall token: Sessions.Token :: Sessions.Lets(before, token) ==> Sessions.Lets(after, token)
  }

  lemma AdminStays(users: Users, r: Request, users': Users)
    requires Apply(users, r) == Done(users')
    ensures AdminExists(users) ==> AdminExists(users')
  {
    hide Apply, AdminExists;
    if AdminExists(users) {
      ApplyKeepsAdmin(users, r);
    }
  }

  class UserStore {
    var users: Users

    constructor ()
      ensures users == map[]
    {
      users := map[];
    }

    method CountEnabledAdminsExcluding(id: UserId) returns (n: nat)
      ensures n == |OtherAdmins(users, id)|
    {
      n := 0;
      var rest := users.Keys;
      ghost var counted := {};
      while rest != {}
        invariant rest <= users.Keys
        invariant counted == OtherAdmins(users, id) - rest && n == |counted|
        decreases |rest|
      {
        var a :| a in rest;
        rest := rest - {a};
        if !users[a].deleted && users[a].enabled && a != id && ADMIN in users[a].roles {
          n := n + 1;
          assert OtherAdmins(users, id) - rest == counted + {a};
          counted := counted + {a};
        } else {
          assert OtherAdmins(users, id) - rest == counted;
        }
      }
    }

    method UpdateUser(id: UserId, version: nat, enabled: Option<bool>, roles: set<string>)
      returns (error: Option<Error>)
      modifies this
      ensures AdminExists(old(users)) ==> AdminExists(users)
      ensures error.None? ==> id in old(users) && id in users
      ensures error.None? ==> if old(users)[id].enabled && !users[id].enabled then SignedOut(old(users), users, id)
                              else SessionsKept(old(users), users)
      ensures error.None? <==> Succeeds(old(users), Update(id, version, enabled, roles))
      ensures error.None? ==> Leaves(old(users), Update(id, version, enabled, roles), users)
      ensures error.None? ==>
                && !users[id].deleted && users[id].version == version + 1
                && users[id].roles == (if roles == {} then old(users)[id].roles else roles)
                && users[id].enabled == (if enabled.Some? then enabled.value else old(users)[id].enabled)
                && forall u :: u != id ==> (u in users <==> u in old(users)) &&
                                           (u in users && u in old(users) ==> users[u] == old(users)[u])
      ensures error.Some? ==> Refused(old(users), Update(id, version, enabled, roles), error.value)
                              && users == old(users)
      ensures Agrees(old(users), Apply(old(users), Update(id, version, enabled, roles)), users, error)
    {
      RequestOutcome(users, Update(id, version, enabled, roles));
      CoveredMeans(users, id);
      hide Covered, Succeeds;
      if id !in users || users[id].deleted {
        return Some(UserNotFound);
      }
      var existing := users[id];
      var nowEnabled := existing.enabled;
      if enabled.Some? {
        nowEnabled := enabled.value;
      }
      var nowRoles := roles;
      if roles == {} {
        nowRoles := existing.roles;
      }
      if ADMIN in existing.roles && (!nowEnabled || ADMIN !in nowRoles) {
        var n := CountEnabledAdminsExcluding(id);
        if n == 0 {
          return Some(LastAdminProtected);
        }
      }
      if existing.version != version {
        return Some(VersionConflict);
      }
      var row := existing.(enabled := nowEnabled, version := existing.version + 1);
      if existing.enabled && !nowEnabled {
        row := row.(session := row.session + 1);
      }
      row := row.(roles := nowRoles);
      users := users[id := row];
      AdminStays(old(users), Update(id, version, enabled, roles), users);
      error := None;
    }

    method DeleteUser(id: UserId, version: nat) returns (error: Option<Error>)
      modifies this
      ensures AdminExists(old(users)) ==> AdminExists(users)
      ensures error.None? ==> SignedOut(old(users), users, id) && !Live(users, id)
      ensures error.None? <==> Succeeds(old(users), Delete(id, version))
      ensures error.None? ==> Leaves(old(users), Delete(id, version), users)
      ensures error.Some? ==> Refused(old(users), Delete(id, version), error.value) && users == old(users)
      ensures Agrees(old(users), Apply(old(users), Delete(id, version)), users, error)
    {
      RequestOutcome(users, Delete(id, version));
      CoveredMeans(users, id);
      hide Covered, Succeeds, Leaves;
      if id !in users || users[id].deleted {
        return Some(UserNotFound);
      }
      var existing := users[id];
      if ADMIN in existing.roles {
        var n := CountEnabledAdminsExcluding(id);
        if n == 0 {
          return Some(LastAdminProtected);
        }
      }
      if existing.version != version {
        return Some(VersionConflict);
      }
      var row := existing.(deleted := true, version := existing.version + 1, session := existing.session + 1);
      users := users[id := row];
      AdminStays(old(users), Delete(id, version), users);
      error := None;
    }

    method ResetPassword(id: UserId, version: nat) returns (error: Option<Error>)
      modifies this
      ensures AdminExists(old(users)) ==> AdminExists(users)
      ensures error.None? ==> SignedOut(old(users), users, id) && id in old(users) && id in users
      ensures error.None? ==> users[id].roles == old(users)[id].roles && users[id].enabled == old(users)[id].enabled
      ensures error.None? <==> Succeeds(old(users), Reset(id, version))
      ensures error.None? ==> Leaves(old(users), Reset(id, version), users)
      ensures error.Some? ==> Refused(old(users), Reset(id, version), error.value) && users == old(users)
      ensures Agrees(old(users), Apply(old(users), Reset(id, version)), users, error)
    {
      RequestOutcome(users, Reset(id, version));
      CoveredMeans(users, id);
      hide Covered, Succeeds, Leaves;
      if id !in users || users[id].deleted {
        return Some(UserNotFound);
      }
      if users[id].version != version {
        return Some(VersionConflict);
      }
      users := users[id := users[id].(version := version + 1, session := users[id].session + 1)];
      AdminStays(old(users), Reset(id, version), users);
      error := None;
    }

    method CreateUser(id: UserId, enabled: bool, roles: set<string>) returns (error: Option<Error>)
      modifies this
      ensures AdminExists(old(users)) ==> AdminExists(users)
      ensures SessionsKept(old(users), users)
      ensures error.None? <==> Succeeds(old(users), Create(id, enabled, roles))
      ensures error.None? ==> Leaves(old(users), Create(id, enabled, roles), users)
      ensures error.Some? ==> Refused(old(users), Create(id, enabled, roles), error.value) && users == old(users)
      ensures Agrees(old(users), Apply(old(users), Create(id, enabled, roles)), users, error)
    {
      RequestOutcome(users, Create(id, enabled, roles));
      CoveredMeans(users, id);
      hide Covered, Succeeds, Leaves;
      if id in users {
        return Some(UserConflict);
      }
      users := users[id := User(enabled, roles, false, 1, 1)];
      AdminStays(old(users), Create(id, enabled, roles), users);
      error := None;
    }

    /** Whether a token that got past the revoker is let in. */
    method Authenticate(token: Sessions.Token) returns (ok: bool)
      ensures ok <==>
                && token.user in users && !users[token.user].deleted && users[token.user].enabled
                && users[token.user].session == token.session
      ensures ok == Sessions.Lets(users, token)
    {
      ok := false;
      if token.user in users && !users[token.user].deleted {
        var user := users[token.user];
        if user.enabled {
          ok := token.session == user.session;
        }
      }
    }
  }

  class TokenRevoker {
    var items: map<nat, int>
    /** Every logout there ever was, with the expiry of its token. */
    ghost var logouts: map<nat, int>
    /** The latest reading of the clock. */
    ghost var clock: int

    /** What is remembered is right, and only what has expired is forgotten. */
    ghost predicate Valid()
      reads this
    {
      && (forall j :: j in items ==> j in logouts && items[j] == logouts[j])
      && (forall j :: j in logouts && j !in items ==> logouts[j] < clock)
    }

    constructor ()
      ensures Valid() && items == map[] && logouts == map[]
    {
      items := map[];
      logouts := map[];
    }

    method Revoke(jti: nat, expiresAt: int)
      requires Valid()
      modifies this
      ensures Valid() && clock == old(clock) && logouts == old(logouts)[jti := expiresAt]
      ensures items == old(items)[jti := expiresAt]
    {
      items := items[jti := expiresAt];
      logouts := logouts[jti := expiresAt];
    }

    /** Answers as if no logout were ever forgotten. */
    method IsRevoked(jti: nat, now: int) returns (revoked: bool)
      requires Valid() && clock <= now
      modifies this
      ensures Valid() && clock == now && logouts == old(logouts)
      ensures revoked <==> jti in logouts && now <= logouts[jti]
      ensures items == Sessions.AfterLookUp(old(items), jti, now)
    {
      clock := now;
      if jti !in items {
        return false;
      }
      if now > items[jti] {
        items := items - {jti};
        return false;
      }
      revoked := true;
    }

    method Gc(now: int)
      requires Valid() && clock <= now
      modifies this
      ensures Valid() && clock == now && logouts == old(logouts)
      ensures items == Sessions.AfterCollect(old(items), now)
    {
      clock := now;
      var rest := items.Keys;
      while rest != {}
        invariant clock == now && logouts == old(logouts)
        invariant rest <= items.Keys <= old(items).Keys
        invariant forall j :: j in items ==> items[j] == old(items)[j]
        invariant forall j :: j in old(items) && j !in rest ==> (j in items <==> now <= old(items)[j])
        decreases |rest|
      {
        var j :| j in rest;
        rest := rest - {j};
        if now > items[j] {
          items := items - {j};
        }
      }
    }
  }
}
