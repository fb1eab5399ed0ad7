// User administration: the requests that change accounts, what each does when it runs alone, and
// the locked transactions that carry them out side by side.

module Accounts {
  import opened Wrappers

  type UserId = nat

  const ADMIN := "system_admin"

  datatype User = User(enabled: bool, roles: set<string>, deleted: bool, version: nat, session: nat)

  type Users = map<UserId, User>

  datatype Request =
    | Update(id: UserId, version: nat, enabled: Option<bool>, roles: set<string>)
    | Delete(id: UserId, version: nat)
    | Reset(id: UserId, version: nat)
    | Create(id: UserId, active: bool, granted: set<string>)

  datatype Outcome = Done(users: Users) | NotFound | LastAdmin | Stale | Conflict

  predicate Live(users: Users, id: UserId) {
    id in users && !users[id].deleted
  }

  predicate EnabledAdmin(users: Users, id: UserId) {
    Live(users, id) && users[id].enabled && ADMIN in users[id].roles
  }

  /** The enabled administrators other than `id`. */
  function OtherAdmins(users: Users, id: UserId): set<UserId> {
    set a | a in users && a != id && EnabledAdmin(users, a)
  }

  predicate AdminExists(users: Users) {
    exists a :: a in users && EnabledAdmin(users, a)
  }

  // ----- a request on its own -----

  function NewEnabled(u: User, r: Request): bool
    requires r.Update?
  {
    if r.enabled.Some? then r.enabled.value else u.enabled
  }

  /** A request that names no roles keeps the ones there are. */
  function NewRoles(u: User, r: Request): set<string>
    requires r.Update?
  {
    if r.roles == {} then u.roles else r.roles
  }

  /** The request takes an administrator, even a disabled one, out of the administrators. */
  predicate Demotes(u: User, r: Request)
    requires r.Update? || r.Delete?
  {
    ADMIN in u.roles && (r.Delete? || !NewEnabled(u, r) || ADMIN !in NewRoles(u, r))
  }

  /** The row that a request writes, from the row it read and the row it finds. */
  function Written(read: User, found: User, r: Request): User
    requires !r.Create?
  {
    var next := found.(version := found.version + 1);
    match r
    case Update(_, _, _, _) =>
      next.(enabled := NewEnabled(read, r), roles := NewRoles(read, r),
            session := if read.enabled && !NewEnabled(read, r) then found.session + 1 else found.session)
    case Delete(_, _) => next.(deleted := true, session := found.session + 1)
    case Reset(_, _) => next.(session := found.session + 1)
  }

  function Created(r: Request): User
    requires r.Create?
  {
    User(r.active, r.granted, false, 1, 1)
  }

  function Apply(users: Users, r: Request): Outcome {
    if r.Create? then
      if r.id in users then Conflict else Done(users[r.id := Created(r)])
    else if !Live(users, r.id) then NotFound
    else if !r.Reset? && Demotes(users[r.id], r) && OtherAdmins(users, r.id) == {} then LastAdmin
    else if users[r.id].version != r.version then Stale
    else Done(users[r.id := Written(users[r.id], users[r.id], r)])
  }

  // ----- what a request leaves, read off the accounts -----

  /** Another live, enabled administrator is there. */
  ghost predicate Covered(users: Users, id: UserId) {
    exists a :: a in users && a != id && !users[a].deleted && users[a].enabled && ADMIN in users[a].roles
  }

  ghost predicate Succeeds(users: Users, r: Request) {
    match r
    case Create(id, _, _) => id !in users
    case Reset(id, version) => id in users && !users[id].deleted && users[id].version == version
    case Delete(id, version) =>
      && id in users && !users[id].deleted && users[id].version == version
      && (ADMIN in users[id].roles ==> Covered(users, id))
    case Update(id, version, enabled, roles) =>
      && id in users && !users[id].deleted && users[id].version == version
      && (ADMIN in users[id].roles ==>
            || Covered(users, id)
            || ((enabled == Some(true) || (enabled == None && users[id].enabled)) && (roles == {} || ADMIN in roles)))
  }

  /** Only the user's own row has changed, and to this. */
  ghost predicate Leaves(users: Users, r: Request, users': Users) {
    && r.id in users' && (forall u :: u != r.id ==> (u in users' <==> u in users))
    && (forall u :: u != r.id && u in users && u in users' ==> users'[u] == users[u])
    && match r
       case Create(id, enabled, roles) => users'[id] == User(enabled, roles, false, 1, 1)
       case Reset(id, version) =>
         && id in users
         && users'[id] == User(users[id].enabled, users[id].roles, false, version + 1, users[id].session + 1)
       case Delete(id, version) =>
         && id in users
         && users'[id] == User(users[id].enabled, users[id].roles, true, version + 1, users[id].session + 1)
       case Update(id, version, enabled, roles) =>
         && id in users && !users'[id].deleted && users'[id].version == version + 1
         && users'[id].roles == (if roles == {} then users[id].roles else roles)
         && users'[id].enabled == (if enabled == None then users[id].enabled else enabled == Some(true))
         && users'[id].session == users[id].session + if users[id].enabled && enabled == Some(false) then 1 else 0
  }

  lemma CoveredMeans(users: Users, id: UserId)
    ensures Covered(users, id) <==> OtherAdmins(users, id) != {}
  {
    if a :| a in users && a != id && !users[a].deleted && users[a].enabled && ADMIN in users[a].roles {
      assert a in OtherAdmins(users, id);
    }
    if OtherAdmins(users, id) != {} {
      var a :| a in OtherAdmins(users, id);
    }
  }

  /** A request succeeds exactly when the accounts say so, and leaves exactly what it names. */
  lemma RequestOutcome(users: Users, r: Request)
    ensures Apply(users, r).Done? <==> Succeeds(users, r)
    ensures Apply(users, r).Done? ==> Leaves(users, r, Apply(users, r).users)
  {
    CoveredMeans(users, r.id);
    hide Covered, OtherAdmins;
  }

  /** No request on its own takes away the last enabled administrator. */
  lemma ApplyKeepsAdmin(users: Users, r: Request)
    requires AdminExists(users) && Apply(users, r).Done?
    ensures AdminExists(Apply(users, r).users)
  {
    var after := Apply(users, r).users;
    var a :| a in users && EnabledAdmin(users, a);
    if a != r.id {
      assert EnabledAdmin(after, a);
    } else if !r.Create? && !r.Reset? && Demotes(users[a], r) {
      var other :| other in OtherAdmins(users, a);
      assert EnabledAdmin(after, other);
    } else {
      assert EnabledAdmin(after, a);
    }
  }

  // ----- requests side by side -----

  /** How far a transaction has come: serialized, with its row locked and read, checked, written. */
  datatype Phase =
    | Begun
    | Serialized
    | Locked(read: User)
    | Checked(read: User)
    | Pending(row: User)
    | Ended(committed: bool)

  datatype Thread = Thread(request: Request, phase: Phase)

  datatype State = State(users: Users, threads: map<nat, Thread>)

  datatype Action = Start(t: nat, request: Request) | Advance(t: nat) | Fail(t: nat)

  predicate OwnsRow(thread: Thread, id: UserId) {
    thread.request.id == id && (thread.phase.Locked? || thread.phase.Checked? || thread.phase.Pending?)
  }

  predicate OwnsAdvisory(thread: Thread) {
    && (thread.request.Update? || thread.request.Delete?)
    && !thread.phase.Begun? && !thread.phase.Ended?
  }

  predicate RowTaken(s: State, t: nat, id: UserId) {
    exists o :: o in s.threads && o != t && OwnsRow(s.threads[o], id)
  }

  predicate AdvisoryTaken(s: State, t: nat) {
    exists o :: o in s.threads && o != t && OwnsAdvisory(s.threads[o])
  }

  /**
   * What the thread does next, or nothing while it waits. `serialize` says whether transactions that can
   * remove an administrator take the advisory lock.
   */
  function NextPhase(s: State, t: nat, serialize: bool): Option<Phase>
    requires t in s.threads
  {
    var r := s.threads[t].request;
    match s.threads[t].phase
    case Begun =>
      if r.Update? || r.Delete? then
        if serialize && AdvisoryTaken(s, t) then None else Some(Serialized)
      else if RowTaken(s, t, r.id) then None
      else if Apply(s.users, r).Done? then Some(Pending(Apply(s.users, r).users[r.id]))
      else Some(Ended(false))
    case Serialized =>
      if RowTaken(s, t, r.id) then None
      else if Live(s.users, r.id) then Some(Locked(s.users[r.id]))
      else Some(Ended(false))
    case Locked(read) =>
      if (r.Update? || r.Delete?) && Demotes(read, r) && OtherAdmins(s.users, r.id) == {} then Some(Ended(false))
      else Some(Checked(read))
    case Checked(read) =>
      if !r.Create? && Live(s.users, r.id) && s.users[r.id].version == r.version
      then Some(Pending(Written(read, s.users[r.id], r)))
      else Some(Ended(false))
    case Pending(_) => Some(Ended(true))
    case Ended(_) => None
  }

  /** A thread that commits publishes its row. */
  predicate Step(s: State, a: Action, s': State, serialize: bool) {
    match a
    case Start(t, r) => t !in s.threads && s' == s.(threads := s.threads[t := Thread(r, Begun)])
    case Fail(t) =>
      && t in s.threads && !s.threads[t].phase.Ended?
      && s' == s.(threads := s.threads[t := s.threads[t].(phase := Ended(false))])
    case Advance(t) =>
      && t in s.threads
      && var next := NextPhase(s, t, serialize);
         && next.Some?
         && s' == State(if s.threads[t].phase.Pending? then s.users[s.threads[t].request.id := s.threads[t].phase.row]
                        else s.users,
                        s.threads[t := s.threads[t].(phase := next.value)])
  }

  /** The thread publishes its row in this step. */
  predicate Commits(s: State, a: Action) {
    a.Advance? && a.t in s.threads && s.threads[a.t].phase.Pending?
  }

  // ----- what the locks protect -----

  ghost predicate RowsExclusive(threads: map<nat, Thread>) {
    forall t, o :: t in threads && o in threads && t != o && OwnsRow(threads[t], threads[t].request.id) ==>
                     !OwnsRow(threads[o], threads[t].request.id)
  }

  ghost predicate AdvisoryExclusive(threads: map<nat, Thread>) {
    forall t, o :: t in threads && o in threads && t != o && OwnsAdvisory(threads[t]) ==> !OwnsAdvisory(threads[o])
  }

  /** What a thread has read still holds, and what it is about to commit is what its request does alone. */
  ghost predicate Sound(users: Users, thread: Thread, serialize: bool) {
    var r := thread.request;
    match thread.phase
    case Begun => true
    case Serialized => r.Update? || r.Delete?
    case Locked(read) => (r.Update? || r.Delete?) && Live(users, r.id) && users[r.id] == read
    case Checked(read) =>
      && (r.Update? || r.Delete?) && Live(users, r.id) && users[r.id] == read
      && (serialize && Demotes(read, r) ==> OtherAdmins(users, r.id) != {})
    case Pending(row) =>
      && (serialize ==> Apply(users, r) == Done(users[r.id := row]))
      && (Live(users, r.id) && !r.Create? ==> row == Written(users[r.id], users[r.id], r))
      && (r.Create? ==> row == Created(r) && r.id !in users)
      && (!r.Create? ==> Live(users, r.id))
    case Ended(_) => true
  }

  ghost predicate AllSound(s: State, serialize: bool) {
    && RowsExclusive(s.threads)
    && (serialize ==> AdvisoryExclusive(s.threads))
    && forall t :: t in s.threads ==> Sound(s.users, s.threads[t], serialize)
  }

  /** A commit by another thread disturbs none of this: the advisory lock holds back demotions, the row lock the row. */
  lemma OthersStaySound(s: State, t: nat, o: nat, serialize: bool)
    requires AllSound(s, serialize) && t in s.threads && o in s.threads && t != o && s.threads[t].phase.Pending?
    ensures Sound(s.users[s.threads[t].request.id := s.threads[t].phase.row], s.threads[o], serialize)
  {
    var r, thread := s.threads[t].request, s.threads[o];
    var users' := s.users[r.id := s.threads[t].phase.row];
    if thread.phase.Locked? || thread.phase.Checked? || thread.phase.Pending? {
      assert OwnsRow(thread, thread.request.id) && OwnsRow(s.threads[t], r.id);
      assert thread.request.id != r.id;
      if serialize && !thread.request.Create? && !thread.request.Reset? {
        assert OwnsAdvisory(thread);
        AdminsStay(s.users, r, thread.request.id);
      }
    }
  }

  /** Creations and password resets take away nobody's administrators. */
  lemma AdminsStay(users: Users, r: Request, id: UserId)
    requires r.Create? || r.Reset?
    requires Apply(users, r).Done?
    ensures OtherAdmins(users, id) <= OtherAdmins(Apply(users, r).users, id)
  {
  }

  lemma OwnStaysSound(s: State, t: nat, serialize: bool)
    requires AllSound(s, serialize) && t in s.threads && NextPhase(s, t, serialize).Some?
    requires !s.threads[t].phase.Pending?
    ensures Sound(s.users, s.threads[t].(phase := NextPhase(s, t, serialize).value), serialize)
  {
  }

  lemma LocksStayExclusive(s: State, t: nat, serialize: bool)
    requires AllSound(s, serialize) && t in s.threads && NextPhase(s, t, serialize).Some?
    ensures var threads' := s.threads[t := s.threads[t].(phase := NextPhase(s, t, serialize).value)];
            RowsExclusive(threads') && (serialize ==> AdvisoryExclusive(threads'))
  {
    hide Sound, Apply, Demotes, Written, OtherAdmins;
    var thread' := s.threads[t].(phase := NextPhase(s, t, serialize).value);
    var threads' := s.threads[t := thread'];
    forall x, y | x in threads' && y in threads' && x != y && OwnsRow(threads'[x], threads'[x].request.id)
      ensures !OwnsRow(threads'[y], threads'[x].request.id)
    {
      if x == t || y == t {
        var o := if x == t then y else x;
        assert OwnsRow(thread', thread'.request.id) && !OwnsRow(s.threads[t], thread'.request.id) ==>
            !RowTaken(s, t, thread'.request.id);
      }
    }
  }

  lemma StepKeepsSound(s: State, a: Action, s': State, serialize: bool)
    requires AllSound(s, serialize) && Step(s, a, s', serialize)
    ensures AllSound(s', serialize)
  {
    if a.Advance? {
      LocksStayExclusive(s, a.t, serialize);
      hide NextPhase;
      forall o | o in s'.threads
        ensures Sound(s'.users, s'.threads[o], serialize)
      {
        if Commits(s, a) {
          if o != a.t {
            OthersStaySound(s, a.t, o, serialize);
          }
        } else if o == a.t {
          OwnStaysSound(s, a.t, serialize);
        }
      }
    }
  }

  /** With the advisory lock, a commit changes the accounts as its request alone would. */
  lemma CommitIsSerial(s: State, a: Action, s': State)
    requires AllSound(s, true) && Step(s, a, s', true)
    ensures if Commits(s, a) then Apply(s.users, s.threads[a.t].request) == Done(s'.users) else s'.users == s.users
  {
    hide NextPhase;
  }

  /** So what a commit of the concurrent system leaves can be read off the accounts before and after. */
  lemma CommitLeaves(s: State, a: Action, s': State)
    requires AllSound(s, true) && Step(s, a, s', true) && Commits(s, a)
    ensures Succeeds(s.users, s.threads[a.t].request) && Leaves(s.users, s.threads[a.t].request, s'.users)
  {
    hide AllSound, Step, Apply, Succeeds, Leaves;
    CommitIsSerial(s, a, s');
    RequestOutcome(s.users, s.threads[a.t].request);
  }

  /** Where a transaction without company goes next. */
  function Alone(users: Users, r: Request, phase: Phase): Phase {
    var next := NextPhase(State(users, map[0 := Thread(r, phase)]), 0, true);
    if next.Some? then next.value else phase
  }

  /** Nothing refuses too much: undisturbed, a transaction comes to write exactly what its request specifies. */
  lemma AloneIsSpecified(users: Users, r: Request)
    ensures var last := if r.Create? || r.Reset? then Alone(users, r, Begun)
                        else Alone(users, r, Alone(users, r, Alone(users, r, Alone(users, r, Begun))));
            if Apply(users, r).Done? then last.Pending? && users[r.id := last.row] == Apply(users, r).users
            else last == Ended(false)
  {
    var begun := State(users, map[0 := Thread(r, Begun)]);
    assert !AdvisoryTaken(begun, 0) && !RowTaken(begun, 0, r.id);
    if !r.Create? && !r.Reset? {
      assert Alone(users, r, Begun) == Serialized;
      assert !RowTaken(State(users, map[0 := Thread(r, Serialized)]), 0, r.id);
      if Live(users, r.id) {
        assert Alone(users, r, Serialized) == Locked(users[r.id]);
      }
    }
  }

  // ----- whole runs -----

  ghost predicate Run(states: seq<State>, actions: seq<Action>, serialize: bool) {
    && |states| == |actions| + 1
    && states[0].threads == map[]
    && forall i :: 0 <= i < |actions| ==> Step(states[i], actions[i], states[i + 1], serialize)
  }

  lemma {:induction false} RunIsSound(states: seq<State>, actions: seq<Action>, serialize: bool, i: nat)
    requires Run(states, actions, serialize) && i < |states|
    ensures AllSound(states[i], serialize)
  {
    hide Step, AllSound;
    if i > 0 {
      RunIsSound(states, actions, serialize, i - 1);
      assert Step(states[i - 1], actions[i - 1], states[i - 1 + 1], serialize);
      StepKeepsSound(states[i - 1], actions[i - 1], states[i], serialize);
    } else {
      NoThreadsSound(states[0], serialize);
    }
  }

  lemma NoThreadsSound(s: State, serialize: bool)
    requires s.threads == map[]
    ensures AllSound(s, serialize)
  {
  }

  /** Once there is an enabled administrator, there always is one. */
  lemma {:induction false} AdminRemains(states: seq<State>, actions: seq<Action>, i: nat, j: nat)
    requires Run(states, actions, true) && i <= j < |states| && AdminExists(states[i].users)
    ensures AdminExists(states[j].users)
  {
    hide Step, AllSound, AdminExists;
    if i < j {
      AdminRemains(states, actions, i, j - 1);
      RunIsSound(states, actions, true, j - 1);
      assert Step(states[j - 1], actions[j - 1], states[j - 1 + 1], true);
      CommitIsSerial(states[j - 1], actions[j - 1], states[j]);
      if Commits(states[j - 1], actions[j - 1]) {
        ApplyKeepsAdmin(states[j - 1].users, states[j - 1].threads[actions[j - 1].t].request);
      }
    }
  }

  // ----- without the advisory lock -----

  /** An administrator who is deleted by a transaction that has come `step` phases far. */
  function SkewPhase(step: nat): Phase {
    var u := User(true, {ADMIN}, false, 1, 1);
    if step == 0 then Begun
    else if step == 1 then Serialized
    else if step == 2 then Locked(u)
    else if step == 3 then Checked(u)
    else if step == 4 then Pending(Written(u, u, Delete(0, 1)))
    else Ended(true)
  }

  function SkewUser(step: nat): User {
    var u := User(true, {ADMIN}, false, 1, 1);
    if step < 5 then u else Written(u, u, Delete(0, 1))
  }

  /** Two administrators, each being deleted by a transaction of its own; they take turns. */
  function SkewState(n: nat): State {
    if n == 0 then State(map[0 := SkewUser(0), 1 := SkewUser(0)], map[])
    else if n == 1 then SkewState(0).(threads := map[0 := Thread(Delete(0, 1), Begun)])
    else
      var i, j := (n - 1) / 2, (n - 2) / 2;
      State(map[0 := SkewUser(i), 1 := SkewUser(j)],
            map[0 := Thread(Delete(0, 1), SkewPhase(i)), 1 := Thread(Delete(1, 1), SkewPhase(j))])
  }

  function SkewAction(n: nat): Action {
    if n < 2 then Start(n, Delete(n, 1)) else Advance(n % 2)
  }

  lemma SkewStep(n: nat)
    requires n < 12
    ensures Step(SkewState(n), SkewAction(n), SkewState(n + 1), false)
  {
    if n >= 2 {
      var s, t := SkewState(n), n % 2;
      assert !RowTaken(s, t, t);
      if n == 6 || n == 7 {
        assert 1 - t in OtherAdmins(s.users, t);
      }
    }
  }

  /** Row locks alone let two transactions remove the last two administrators. */
  lemma WriteSkew() returns (states: seq<State>, actions: seq<Action>)
    ensures Run(states, actions, false) && AdminExists(states[0].users) && !AdminExists(states[|actions|].users)
  {
    states, actions := seq(13, n requires n >= 0 => SkewState(n)), seq(12, n requires n >= 0 => SkewAction(n));
    forall i | 0 <= i < 12
      ensures Step(states[i], actions[i], states[i + 1], false)
    {
      SkewStep(i);
    }
    assert EnabledAdmin(states[0].users, 0);
    assert SkewState(12).users[0].deleted && SkewState(12).users[1].deleted;
  }

  /** The system keeps an administrator in every run if and only if it takes the advisory lock. */
  lemma ProtectedIffSerialized(serialize: bool)
    ensures (forall states: seq<State>, actions: seq<Action> |
               Run(states, actions, serialize) && AdminExists(states[0].users) :: AdminExists(states[|actions|].users))
            <==> serialize
  {
    if serialize {
      forall states: seq<State>, actions: seq<Action> | Run(states, actions, serialize) && AdminExists(states[0].users)
        ensures AdminExists(states[|actions|].users)
      {
        hide Step, AdminExists;
        AdminRemains(states, actions, 0, |actions|);
      }
    } else {
      var states, actions := WriteSkew();
    }
  }
}
