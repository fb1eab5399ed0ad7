// No set of concurrent transactions can wait for one another in a circle.

module Deadlock {
  import opened Wrappers
  import opened Transactions
  import opened Interleaving
  import opened Refinement
  import opened Executions

  /** Transaction `t` waits for a lock that `u` holds. */
  ghost predicate WaitsFor(s: System, t: Tid, u: Tid) {
    t in s.threads && Blocked(s, t) && s.locks[Wants(s.threads[t]).value] == u
  }

  /** The place of an instruction's lock in the lock order. */
  function LockRank(i: Instr): Option<nat> {
    match i
    case ClaimApproval => Some(0)
    case LockDevice => Some(1)
    case CasDevice => Some(1)
    case LockRack => Some(2)
    case CasRack => Some(2)
    case LockPdu => Some(3)
    case CasPdu => Some(3)
    case LockSocket => Some(4)
    case _ => None
  }

  lemma ScriptsFollowLockOrder(r: Request, j: nat, i: nat)
    requires j < i < |Script(r)| && LockRank(Script(r)[j]).Some? && LockRank(Script(r)[i]).Some?
    ensures LockRank(Script(r)[j]).value < LockRank(Script(r)[i]).value
  {
  }

  lemma KeyRank(r: Request, i: Instr, l: Locals)
    requires KeyOf(r, i, l).Some?
    ensures LockRank(i) == Some(KeyOf(r, i, l).value.Rank())
  {
  }

  /** Every lock a transaction holds comes before the lock it wants. */
  lemma HeldBeforeWanted(s: System, t: Tid, k: Key)
    requires ThreadsOk(s) && t in s.threads && k in s.locks && s.locks[k] == t
    requires Wants(s.threads[t]).Some?
    ensures k.Rank() < Wants(s.threads[t]).value.Rank()
  {
    hide KeyOf, LockRank;
    var th := s.threads[t];
    assert HasTaken(th, k);
    var j :| 0 <= j < th.pc <= |Script(th.request)| && KeyOf(th.request, Script(th.request)[j], th.locals) == Some(k);
    KeyRank(th.request, Script(th.request)[j], th.locals);
    KeyRank(th.request, NextInstr(th), th.locals);
    ScriptsFollowLockOrder(th.request, j, th.pc);
  }

  /** Along a chain of waiting transactions the wanted locks climb the lock order. */
  lemma {:induction false} WaitingClimbs(s: System, chain: seq<Tid>, n: nat)
    requires ThreadsOk(s) && n < |chain|
    requires forall i :: 0 <= i < n ==> WaitsFor(s, chain[i], chain[i + 1])
    requires forall i :: 0 <= i <= n ==> chain[i] in s.threads && Wants(s.threads[chain[i]]).Some?
    ensures Wants(s.threads[chain[0]]).value.Rank() + n <= Wants(s.threads[chain[n]]).value.Rank()
  {
    if n > 0 {
      WaitingClimbs(s, chain, n - 1);
      assert WaitsFor(s, chain[n - 1], chain[n - 1 + 1]);
      HeldBeforeWanted(s, chain[n], Wants(s.threads[chain[n - 1]]).value);
    }
  }

  /** Each transaction of the circle waits for the next one, and the last for the first. */
  ghost predicate CircularWait(s: System, circle: seq<Tid>) {
    && |circle| > 0
    && (forall i :: 0 <= i < |circle| - 1 ==> WaitsFor(s, circle[i], circle[i + 1]))
    && WaitsFor(s, circle[|circle| - 1], circle[0])
  }

  /** Deadlock freedom: in no reachable state does a circle of transactions wait for one another. */
  lemma NoDeadlock(states: seq<System>, actions: seq<Action>, i: nat, circle: seq<Tid>)
    requires Execution(states, actions) && i < |states|
    ensures !CircularWait(states[i], circle)
  {
    AlwaysInv(states, actions, i);
    NoCircularWait(states[i], circle);
  }

  lemma NoCircularWait(s: System, circle: seq<Tid>)
    requires ThreadsOk(s)
    ensures !CircularWait(s, circle)
  {
    hide ThreadsOk, Wants;
    if CircularWait(s, circle) {
      var last := |circle| - 1;
      forall k | 0 <= k <= last
        ensures circle[k] in s.threads && Wants(s.threads[circle[k]]).Some?
      {
        assert k < last ==> WaitsFor(s, circle[k], circle[k + 1]);
      }
      WaitingClimbs(s, circle, last);
      HeldBeforeWanted(s, circle[0], Wants(s.threads[circle[last]]).value);
      assert false;
    }
  }

  /** Following whoever holds the wanted lock ends, after at most five hops, at a transaction that can run. */
  lemma {:induction false} SomeoneCanRun(s: System, t: Tid) returns (u: Tid)
    requires ThreadsOk(s) && t in s.threads
    ensures u in s.threads && !Blocked(s, u)
    decreases if Wants(s.threads[t]).Some? then 5 - Wants(s.threads[t]).value.Rank() else 0
  {
    hide Wants, Informed, HasTaken;
    if !Blocked(s, t) {
      u := t;
    } else {
      var k := Wants(s.threads[t]).value;
      var holder := s.locks[k];
      assert holder in s.threads;
      if Blocked(s, holder) {
        HeldBeforeWanted(s, holder, k);
        u := SomeoneCanRun(s, holder);
      } else {
        u := holder;
      }
    }
  }

  /** Progress: while any transaction is running, one of them is not blocked. */
  lemma AlwaysProgress(states: seq<System>, actions: seq<Action>, i: nat)
    requires Execution(states, actions) && i < |states| && states[i].threads != map[]
    ensures exists t :: t in states[i].threads && !Blocked(states[i], t)
  {
    AlwaysInv(states, actions, i);
    var t :| t in states[i].threads;
    var u := SomeoneCanRun(states[i], t);
  }
}
