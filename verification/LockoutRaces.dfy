/** Password logins with their statements interleaved (src/auth/auth.service.ts, src/auth/login-security.service.ts). */
module LockoutRaces {
  import opened Wrappers
  import Lockout

  /**
   * Where a login stands: before it reads the account, before it writes the miss
   * on the count it read, before it clears the counter, or done.
   */
  datatype Call = Entering(password: string) | Missing(count: nat) | Clearing | Finished(outcome: Lockout.Outcome)

  /** `first` is history: when the first miss since the start was recorded. */
  datatype System = System(user: Lockout.User, calls: map<nat, Call>, now: int, first: Option<int>)

  datatype Action = Begin(id: nat, password: string) | Next(id: nat) | Tick(to: int)

  type Compare = (string, string) -> bool

  /** The read, the look at the lock and the comparison; nothing is written. */
  function Check(user: Lockout.User, password: string, now: int, compare: Compare): Call {
    match user.passwordHash
    case None => Finished(Lockout.InvalidCredentials)
    case Some(hash) =>
      if Lockout.IsLocked(user, now) then Finished(Lockout.Locked(Lockout.CeilSeconds(user.lockoutUntil.value - now)))
      else if !compare(password, hash) then Missing(user.failedLoginCount)
      else if user.failedLoginCount > 0 || user.lockoutUntil.Some? then Clearing
      else Finished(Lockout.LoggedIn)
  }

  /** A miss is written over the account as it is by then, on the count that was read. */
  function Record(user: Lockout.User, count: nat, now: int): Lockout.User {
    Lockout.AfterMiss(user.(failedLoginCount := count), now)
  }

  function StepCall(s: System, id: nat, call: Call, compare: Compare): System {
    match call
    case Entering(password) => s.(calls := s.calls[id := Check(s.user, password, s.now, compare)])
    case Missing(count) =>
      s.(user := Record(s.user, count, s.now), calls := s.calls[id := Finished(Lockout.InvalidCredentials)],
         first := if s.first.Some? then s.first else Some(s.now))
    case Clearing =>
      s.(user := s.user.(failedLoginCount := 0, lockoutUntil := None),
         calls := s.calls[id := Finished(Lockout.LoggedIn)])
    case Finished(_) => s
  }

  function Apply(s: System, a: Action, compare: Compare): System {
    match a
    case Begin(id, password) => if id in s.calls then s else s.(calls := s.calls[id := Entering(password)])
    case Next(id) => if id in s.calls then StepCall(s, id, s.calls[id], compare) else s
    case Tick(to) => if to < s.now then s else s.(now := to)
  }

  function Run(s: System, actions: seq<Action>, compare: Compare): System
    decreases |actions|
  {
    if actions == [] then s else Run(Apply(s, actions[0], compare), actions[1..], compare)
  }

  function Initial(hash: string, now: int): System {
    System(Lockout.User(Some(hash), 0, None), map[], now, None)
  }

  /** Without interference the statements of a login do what the login does at once. */
  lemma LoginAlone(s: System, id: nat, password: string, compare: Compare)
    requires id !in s.calls
    ensures var t := Run(s, [Begin(id, password), Next(id), Next(id)], compare);
            var (user, outcome) := Lockout.Login(s.user, Lockout.Attempt(password, s.now, s.now), compare);
            t.user == user && id in t.calls && t.calls[id] == Finished(outcome)
  {
    var begin, next := Begin(id, password), Next(id);
    assert [begin, next, next][1..] == [next, next];
    RunTwo(Apply(s, begin, compare), next, next, compare);
  }

  lemma RunTwo(s: System, a: Action, b: Action, compare: Compare)
    ensures Run(s, [a, b], compare) == Apply(Apply(s, a, compare), b, compare)
  {
    var t := Apply(s, a, compare);
    assert [a, b][1..] == [b] && [b][1..] == [];
    assert Run(t, [b], compare) == Run(Apply(t, b, compare), [], compare);
  }

  // ---------- does a lock hold until its time? ----------

  /** The write still to come would end the lock before this time, if it came now. */
  predicate Shortens(call: Call, now: int, until: int) {
    call.Clearing? || (call.Missing? && now + Lockout.LockMs(call.count + 1) < until)
  }

  ghost predicate NoneShortens(s: System, until: int) {
    forall id | id in s.calls :: !Shortens(s.calls[id], s.now, until)
  }

  predicate LockedBefore(s: System, until: int) {
    s.now < until ==> Lockout.IsLocked(s.user, s.now)
  }

  ghost predicate Held(s: System, until: int) {
    s.now < until ==> s.user.lockoutUntil.Some? && s.user.lockoutUntil.value >= until && NoneShortens(s, until)
  }

  lemma HeldStep(s: System, a: Action, compare: Compare, until: int)
    requires Held(s, until)
    ensures Held(Apply(s, a, compare), until)
  {
    var t := Apply(s, a, compare);
    if t.now < until {
      if a.Next? && a.id in s.calls { assert !Shortens(s.calls[a.id], s.now, until); }
      forall id | id in t.calls ensures !Shortens(t.calls[id], t.now, until) {
        if id in s.calls { assert !Shortens(s.calls[id], s.now, until); }
      }
    }
  }

  lemma {:induction false} HeldRun(s: System, actions: seq<Action>, compare: Compare, until: int)
    requires Held(s, until)
    ensures LockedBefore(Run(s, actions, compare), until)
    decreases |actions|
  {
    if actions != [] {
      HeldStep(s, actions[0], compare, until);
      HeldRun(Apply(s, actions[0], compare), actions[1..], compare, until);
    }
  }

  /** Some later run finds the account unlocked before this time. */
  ghost predicate CanReopen(s: System, compare: Compare, until: int) {
    exists actions :: !LockedBefore(Run(s, actions, compare), until)
  }

  lemma ShorteningReopens(s: System, id: nat, compare: Compare, until: int)
    requires id in s.calls && s.now < until && Shortens(s.calls[id], s.now, until)
    ensures CanReopen(s, compare, until)
  {
    var wait := if s.calls[id].Clearing? then s.now else s.now + Lockout.LockMs(s.calls[id].count + 1);
    RunTwo(s, Next(id), Tick(wait), compare);
    assert !LockedBefore(Run(s, [Next(id), Tick(wait)], compare), until);
  }

  /**
   * A locked account stays locked until its time, over every interleaving,
   * exactly when no success is still to clear the counter and no miss still to
   * write would set a shorter lock than what is left: the lock a late miss sets
   * is that of the count it read, and none for a count below four.
   */
  lemma LockHoldsExactly(s: System, compare: Compare)
    requires Lockout.IsLocked(s.user, s.now)
    ensures !CanReopen(s, compare, s.user.lockoutUntil.value) <==> NoneShortens(s, s.user.lockoutUntil.value)
  {
    var until := s.user.lockoutUntil.value;
    if NoneShortens(s, until) {
      forall actions ensures LockedBefore(Run(s, actions, compare), until) {
        HeldRun(s, actions, compare, until);
      }
    } else {
      var id :| id in s.calls && Shortens(s.calls[id], s.now, until);
      ShorteningReopens(s, id, compare, until);
    }
  }

  // ---------- a run in which it does not ----------

  ghost predicate Reachable(s: System, compare: Compare) {
    exists hash, now, actions :: s == Run(Initial(hash, now), actions, compare)
  }

  lemma {:induction false} RunSnoc(s: System, actions: seq<Action>, a: Action, compare: Compare)
    ensures Run(s, actions + [a], compare) == Apply(Run(s, actions, compare), a, compare)
    decreases |actions|
  {
    if actions == [] {
      assert [a][1..] == [] && [] + [a] == [a];
    } else {
      assert (actions + [a])[1..] == actions[1..] + [a];
      RunSnoc(Apply(s, actions[0], compare), actions[1..], a, compare);
    }
  }

  lemma ReachNext(s: System, a: Action, compare: Compare)
    requires Reachable(s, compare)
    ensures Reachable(Apply(s, a, compare), compare)
  {
    var hash, now, actions :| s == Run(Initial(hash, now), actions, compare);
    RunSnoc(Initial(hash, now), actions, a, compare);
    assert Apply(s, a, compare) == Run(Initial(hash, now), actions + [a], compare);
  }

  /** A login that misses, all at once. */
  lemma MissReaches(s: System, id: nat, compare: Compare) returns (t: System)
    requires Reachable(s, compare) && id !in s.calls && s.user.passwordHash.Some? && !Lockout.IsLocked(s.user, s.now)
    requires forall p, h :: !compare(p, h)
    ensures Reachable(t, compare) && t.user == Lockout.AfterMiss(s.user, s.now) && t.now == s.now
    ensures t.calls.Keys == s.calls.Keys + {id} && forall o | o in s.calls :: t.calls[o] == s.calls[o]
  {
    ReachNext(s, Begin(id, ""), compare);
    var u := Apply(s, Begin(id, ""), compare);
    ReachNext(u, Next(id), compare);
    var v := Apply(u, Next(id), compare);
    ReachNext(v, Next(id), compare);
    t := Apply(v, Next(id), compare);
  }

  /** A miss that read a clear counter is still to write, and so many have been recorded since. */
  lemma {:induction false} LateMiss(n: nat, compare: Compare) returns (s: System)
    requires n <= 5 && forall p, h :: !compare(p, h)
    ensures Reachable(s, compare) && s.now == 0 && 0 in s.calls && s.calls[0] == Missing(0)
    ensures s.user.passwordHash.Some? && s.user.failedLoginCount == n
    ensures s.user.lockoutUntil == (if n < 5 then None else Some(Lockout.MINUTE))
    ensures forall o | o in s.calls :: o <= n
  {
    if n == 0 {
      s := Initial("", 0);
      assert Run(s, [], compare) == s;
      assert Reachable(s, compare);
      ReachNext(s, Begin(0, ""), compare);
      s := Apply(s, Begin(0, ""), compare);
      ReachNext(s, Next(0), compare);
      s := Apply(s, Next(0), compare);
    } else {
      var before := LateMiss(n - 1, compare);
      s := MissReaches(before, n, compare);
    }
  }

  /** The case arises: an account is locked, and a miss that read it long before takes the lock away. */
  lemma LockCanBeTakenAway(compare: Compare)
    requires forall p, h :: !compare(p, h)
    ensures exists s, id ::
              && Reachable(s, compare) && Lockout.IsLocked(s.user, s.now)
              && Apply(s, Next(id), compare).user.lockoutUntil.None? && Apply(s, Next(id), compare).now == s.now
  {
    var s := LateMiss(5, compare);
    assert Apply(s, Next(0), compare).user.lockoutUntil.None?;
  }

  // ---------- how slow guessing is ----------

  /** In this run every miss is written on the count it read, and no success is written. */
  ghost predicate NoneLost(s: System, actions: seq<Action>, compare: Compare)
    decreases |actions|
  {
    actions == [] ||
    (WritesTrue(s, actions[0]) && NoneLost(Apply(s, actions[0], compare), actions[1..], compare))
  }

  predicate WritesTrue(s: System, a: Action) {
    a.Next? && a.id in s.calls ==>
      match s.calls[a.id]
      case Missing(count) => count == s.user.failedLoginCount
      case Clearing => false
      case _ => true
  }

  /**
   * The misses recorded so far took the time of the locks between them, and
   * whoever is next has waited for the last.
   */
  ghost predicate Paced(s: System) {
    var n := s.user.failedLoginCount;
    && (n == 0 ==> s.user.lockoutUntil.None?)
    && (n > 0 ==> s.first.Some? && exists last ::
                    && LeftAt(s.user, last) && last <= s.now && last - s.first.value >= Lockout.Delay(1, n - 1)
                    && forall id | id in s.calls && s.calls[id] == Missing(n) :: s.now >= last + Lockout.LockMs(n))
    && (n == 0 ==> s.first.None?)
    && forall id | id in s.calls && s.calls[id].Missing? :: s.calls[id].count <= n
  }

  predicate LeftAt(user: Lockout.User, last: int) {
    user.lockoutUntil == if user.failedLoginCount < 5 then None else Some(last + Lockout.LockMs(user.failedLoginCount))
  }

  /** One more miss, recorded in its turn. */
  lemma PacedMiss(s: System, id: nat, compare: Compare)
    requires Paced(s) && id in s.calls && s.calls[id] == Missing(s.user.failedLoginCount)
    ensures Paced(Apply(s, Next(id), compare))
  {
    hide Check;
    assert LeftAt(Apply(s, Next(id), compare).user, s.now);
  }

  /** Any other action, which leaves the account as it is. */
  lemma PacedOther(s: System, a: Action, compare: Compare)
    requires Paced(s) && WritesTrue(s, a) && !(a.Next? && a.id in s.calls && s.calls[a.id].Missing?)
    ensures Paced(Apply(s, a, compare))
  {
    hide Lockout.Delay;
    var t := Apply(s, a, compare);
    var n := s.user.failedLoginCount;
    if n > 0 {
      var last :| LeftAt(s.user, last) && last <= s.now && last - s.first.value >= Lockout.Delay(1, n - 1)
                  && forall id | id in s.calls && s.calls[id] == Missing(n) :: s.now >= last + Lockout.LockMs(n);
      assert LeftAt(t.user, last);
    }
  }

  lemma PacedStep(s: System, a: Action, compare: Compare)
    requires Paced(s) && WritesTrue(s, a)
    ensures Paced(Apply(s, a, compare))
  {
    hide Paced, Apply;
    if a.Next? && a.id in s.calls && s.calls[a.id].Missing? {
      PacedMiss(s, a.id, compare);
    } else {
      PacedOther(s, a, compare);
    }
  }

  lemma {:induction false} PacedRun(s: System, actions: seq<Action>, compare: Compare)
    requires Paced(s) && NoneLost(s, actions, compare)
    ensures Paced(Run(s, actions, compare))
    decreases |actions|
  {
    if actions != [] {
      PacedStep(s, actions[0], compare);
      PacedRun(Apply(s, actions[0], compare), actions[1..], compare);
    }
  }

  /**
   * Guessing is as slow as the schedule says over every interleaving in which no
   * miss is lost: nine or more recorded misses took 81 minutes and a day for
   * each after the ninth.
   */
  lemma RecordedMissesAreSlow(hash: string, start: int, actions: seq<Action>, compare: Compare)
    requires NoneLost(Initial(hash, start), actions, compare)
    ensures var s := Run(Initial(hash, start), actions, compare); var n := s.user.failedLoginCount;
            n >= 9 ==> s.first.Some? && s.now - s.first.value >= 81 * Lockout.MINUTE + (n - 9) * 24 * Lockout.HOUR
  {
    PacedRun(Initial(hash, start), actions, compare);
    var n := Run(Initial(hash, start), actions, compare).user.failedLoginCount;
    if n >= 9 { Lockout.DelayFromNine(n); }
  }

  /** Without that there is no bound: any number of wrong passwords are compared in one moment, with no lock. */
  lemma {:induction false} LostMissesHaveNoBound(n: nat, compare: Compare) returns (s: System)
    requires forall p, h :: !compare(p, h)
    ensures Reachable(s, compare) && s.now == 0 && s.user == Lockout.User(Some(""), 0, None)
    ensures |s.calls| == n && forall i | i in s.calls :: i < n && s.calls[i] == Missing(0)
  {
    if n == 0 {
      s := Initial("", 0);
      assert Run(s, [], compare) == s;
    } else {
      s := LostMissesHaveNoBound(n - 1, compare);
      ReachNext(s, Begin(n - 1, ""), compare);
      s := Apply(s, Begin(n - 1, ""), compare);
      ReachNext(s, Next(n - 1), compare);
      s := Apply(s, Next(n - 1), compare);
    }
  }
}
