/** Password login and its lockout schedule (src/auth/login-security.service.ts, src/auth/auth.service.ts). */
module Lockout {
  import opened Text
  import opened Wrappers

  const MINUTE: int := 60 * 1000
  const HOUR: int := 60 * MINUTE

  // ---------- the schedule ----------

  datatype Tier = Tier(atFailures: nat, lockMs: int)

  const SCHEDULE: seq<Tier> :=
    [Tier(5, MINUTE), Tier(6, 5 * MINUTE), Tier(7, 15 * MINUTE), Tier(8, HOUR), Tier(9, 24 * HOUR)]

  /** `find(t => next >= t.atFailures)` */
  function FindTier(tiers: seq<Tier>, next: nat): Option<Tier> {
    if tiers == [] then None
    else if next >= tiers[0].atFailures then Some(tiers[0])
    else FindTier(tiers[1..], next)
  }

  /** How long the account is locked after so many misses in a row. */
  function LockMs(misses: nat): int {
    if misses < 5 then 0
    else if misses == 5 then MINUTE
    else if misses == 6 then 5 * MINUTE
    else if misses == 7 then 15 * MINUTE
    else if misses == 8 then HOUR
    else 24 * HOUR
  }

  lemma {:induction false} FindTierAppend(a: seq<Tier>, b: seq<Tier>, next: nat)
    ensures FindTier(a + b, next) == if FindTier(a, next).Some? then FindTier(a, next) else FindTier(b, next)
  {
    if a == [] {
      assert a + b == b;
    } else {
      FindTierAppend(a[1..], b, next);
      assert (a + b)[1..] == a[1..] + b;
    }
  }

  lemma {:induction false} FindInReverse(tiers: seq<Tier>, next: nat)
    ensures FindTier(Reverse(tiers), next)
         == if tiers == [] then None
            else if FindTier(Reverse(tiers[1..]), next).Some? then FindTier(Reverse(tiers[1..]), next)
            else if next >= tiers[0].atFailures then Some(tiers[0])
            else None
  {
    if tiers != [] {
      FindTierAppend(Reverse(tiers[1..]), [tiers[0]], next);
    }
  }

  lemma ScheduleTier(next: nat)
    ensures var tier := FindTier(Reverse(SCHEDULE), next);
            if next < 5 then tier == None else tier.Some? && tier.value.lockMs == LockMs(next)
  {
    FindInReverse(SCHEDULE, next);
    FindInReverse(SCHEDULE[1..], next);
    FindInReverse(SCHEDULE[2..], next);
    FindInReverse(SCHEDULE[3..], next);
    FindInReverse(SCHEDULE[4..], next);
    assert SCHEDULE[1..][1..] == SCHEDULE[2..];
    assert SCHEDULE[2..][1..] == SCHEDULE[3..];
    assert SCHEDULE[3..][1..] == SCHEDULE[4..];
    assert SCHEDULE[4..][1..] == [];
  }

  // ---------- the account ----------

  datatype User = User(passwordHash: Option<string>, failedLoginCount: nat, lockoutUntil: Option<int>)

  /** A login at a time of the clock; a miss is recorded at a later one. */
  datatype Attempt = Attempt(password: string, checkedAt: int, recordedAt: int)

  datatype Outcome = InvalidCredentials | Locked(retryAfter: int) | LoggedIn

  predicate IsLocked(user: User, now: int) {
    user.lockoutUntil.Some? && user.lockoutUntil.value > now
  }

  function AfterMiss(user: User, now: int): User {
    var next := user.failedLoginCount + 1;
    user.(failedLoginCount := next, lockoutUntil := if next < 5 then None else Some(now + LockMs(next)))
  }

  /** `Math.ceil(ms / 1000)` */
  function CeilSeconds(ms: int): int {
    -((-ms) / 1000)
  }

  /** `loginWithPassword` of a known address, for a comparison with the stored hash. */
  function Login(user: User, attempt: Attempt, compare: (string, string) -> bool): (User, Outcome) {
    match user.passwordHash
    case None => (user, InvalidCredentials)
    case Some(hash) =>
      if IsLocked(user, attempt.checkedAt) then
        (user, Locked(CeilSeconds(user.lockoutUntil.value - attempt.checkedAt)))
      else if !compare(attempt.password, hash) then (AfterMiss(user, attempt.recordedAt), InvalidCredentials)
      else (user.(failedLoginCount := 0, lockoutUntil := None), LoggedIn)
  }

  class Account {
    var passwordHash: Option<string>
    var failedLoginCount: nat
    var lockoutUntil: Option<int>

    function View(): User
      reads this
    {
      User(passwordHash, failedLoginCount, lockoutUntil)
    }

    constructor (hash: Option<string>)
      ensures View() == User(hash, 0, None)
    {
      passwordHash, failedLoginCount, lockoutUntil := hash, 0, None;
    }

    method RecordFailedLogin(currentCount: nat, now: int)
      modifies this`failedLoginCount, this`lockoutUntil
      ensures View() == AfterMiss(old(View()).(failedLoginCount := currentCount), now)
    {
      var next := currentCount + 1;
      ScheduleTier(next);
      var tier := FindTier(Reverse(SCHEDULE), next);
      failedLoginCount := next;
      lockoutUntil := if tier.Some? then Some(now + tier.value.lockMs) else None;
    }

    /** Also tells whether the password was compared at all. */
    method LoginWithPassword(attempt: Attempt, compare: (string, string) -> bool)
      returns (outcome: Outcome, compared: bool)
      modifies this`failedLoginCount, this`lockoutUntil
      ensures (View(), outcome) == Login(old(View()), attempt, compare)
      ensures compared <==> passwordHash.Some? && !IsLocked(old(View()), attempt.checkedAt)
    {
      if passwordHash.None? {
        return InvalidCredentials, false;
      }
      if lockoutUntil.Some? && lockoutUntil.value > attempt.checkedAt {
        return Locked(CeilSeconds(lockoutUntil.value - attempt.checkedAt)), false;
      }
      var isValid := compare(attempt.password, passwordHash.value);
      if !isValid {
        RecordFailedLogin(failedLoginCount, attempt.recordedAt);
        return InvalidCredentials, true;
      }
      if failedLoginCount > 0 || lockoutUntil.Some? {
        failedLoginCount, lockoutUntil := 0, None;
      }
      return LoggedIn, true;
    }
  }

  // ---------- a locked account ----------

  /** While it is locked, an account answers alike to any password and whatever the stored hash accepts. */
  lemma LockedTellsNothing(
      user: User, a: Attempt, b: Attempt, compare: (string, string) -> bool, other: (string, string) -> bool)
    requires user.passwordHash.Some? && IsLocked(user, a.checkedAt) && b.checkedAt == a.checkedAt
    ensures Login(user, a, compare) == Login(user, b, other) && Login(user, a, compare).0 == user
    ensures Login(user, a, compare).1.Locked? && Login(user, a, compare).1.retryAfter >= 1
  {
    CeilBounds(user.lockoutUntil.value - a.checkedAt);
  }

  lemma CeilBounds(ms: int)
    ensures CeilSeconds(ms) * 1000 >= ms > (CeilSeconds(ms) - 1) * 1000
  {
  }

  /** The wait it names is enough, and one second less is not. */
  lemma RetryAfterIsExact(user: User, a: Attempt, compare: (string, string) -> bool)
    requires user.passwordHash.Some? && IsLocked(user, a.checkedAt)
    ensures var seconds := Login(user, a, compare).1.retryAfter;
            && !IsLocked(user, a.checkedAt + seconds * 1000)
            && IsLocked(user, a.checkedAt + (seconds - 1) * 1000)
  {
    CeilBounds(user.lockoutUntil.value - a.checkedAt);
  }

  // ---------- runs ----------

  /** Attempts processed one at a time. */
  predicate OneAtATime(attempts: seq<Attempt>) {
    && (forall i | 0 <= i < |attempts| :: attempts[i].checkedAt <= attempts[i].recordedAt)
    && forall i, j | 0 <= i < j < |attempts| :: attempts[i].recordedAt <= attempts[j].checkedAt
  }

  function Run(user: User, attempts: seq<Attempt>, compare: (string, string) -> bool): User {
    if attempts == [] then user
    else Login(Run(user, attempts[..|attempts| - 1], compare), attempts[|attempts| - 1], compare).0
  }

  predicate Succeeds(user: User, attempts: seq<Attempt>, compare: (string, string) -> bool, i: nat)
    requires i < |attempts|
  {
    Login(Run(user, attempts[..i], compare), attempts[i], compare).1 == LoggedIn
  }

  predicate NoSuccess(user: User, attempts: seq<Attempt>, compare: (string, string) -> bool) {
    forall i | 0 <= i < |attempts| :: !Succeeds(user, attempts, compare, i)
  }

  /** The attempts whose password was compared and found wrong. */
  function Misses(user: User, attempts: seq<Attempt>, compare: (string, string) -> bool): (m: seq<Attempt>)
    ensures forall a | a in m :: a in attempts
  {
    if attempts == [] then []
    else
      var n := |attempts| - 1;
      var before := Run(user, attempts[..n], compare);
      var earlier := Misses(user, attempts[..n], compare);
      if IsMiss(before, attempts[n], compare) then earlier + [attempts[n]] else earlier
  }

  predicate IsMiss(user: User, a: Attempt, compare: (string, string) -> bool) {
    && user.passwordHash.Some? && !IsLocked(user, a.checkedAt)
    && !compare(a.password, user.passwordHash.value)
  }

  /** The least time from one miss to the miss so many later, when the first makes the count `from`. */
  function Delay(from: nat, steps: nat): int {
    if steps == 0 then 0 else Delay(from, steps - 1) + LockMs(from + steps - 1)
  }

  /** The counter and the lock the misses so far have left. */
  predicate LeftBy(start: User, user: User, misses: seq<Attempt>) {
    && user.failedLoginCount == start.failedLoginCount + |misses|
    && (misses != [] ==>
          user.lockoutUntil == if user.failedLoginCount < 5 then None
                               else Some(misses[|misses| - 1].recordedAt + LockMs(user.failedLoginCount)))
  }

  /** Every miss comes after the lock of the one before it. */
  predicate Apart(start: User, misses: seq<Attempt>) {
    forall i | 0 < i < |misses| ::
      misses[i].checkedAt >= misses[i - 1].recordedAt + LockMs(start.failedLoginCount + i)
  }

  lemma AttemptKeepsApart(start: User, user: User, m: seq<Attempt>, a: Attempt, compare: (string, string) -> bool)
    requires LeftBy(start, user, m) && Apart(start, m)
    requires m != [] ==> m[|m| - 1].recordedAt <= a.checkedAt
    requires Login(user, a, compare).1 != LoggedIn
    ensures var after := if IsMiss(user, a, compare) then m + [a] else m;
            LeftBy(start, Login(user, a, compare).0, after) && Apart(start, after)
  {
  }

  lemma FrontSucceedsNot(user: User, attempts: seq<Attempt>, compare: (string, string) -> bool, n: nat)
    requires NoSuccess(user, attempts, compare) && n <= |attempts|
    ensures NoSuccess(user, attempts[..n], compare)
  {
    forall i | 0 <= i < n ensures !Succeeds(user, attempts[..n], compare, i) {
      assert attempts[..n][..i] == attempts[..i];
      assert !Succeeds(user, attempts, compare, i);
    }
  }

  lemma {:induction false} MissesAreApart(user: User, attempts: seq<Attempt>, compare: (string, string) -> bool)
    requires OneAtATime(attempts) && NoSuccess(user, attempts, compare)
    ensures LeftBy(user, Run(user, attempts, compare), Misses(user, attempts, compare))
    ensures Apart(user, Misses(user, attempts, compare))
  {
    if attempts != [] {
      var n := |attempts| - 1;
      var front := attempts[..n];
      FrontSucceedsNot(user, attempts, compare, n);
      MissesAreApart(user, front, compare);
      assert !Succeeds(user, attempts, compare, n);
      var m := Misses(user, front, compare);
      if m != [] {
        assert m[|m| - 1] in m;
      }
      AttemptKeepsApart(user, Run(user, front, compare), m, attempts[n], compare);
    }
  }

  lemma {:induction false} ApartAddsUp(start: User, m: seq<Attempt>, n: nat)
    requires Apart(start, m) && n < |m| && forall a | a in m :: a.checkedAt <= a.recordedAt
    ensures m[n].recordedAt - m[0].recordedAt >= Delay(start.failedLoginCount + 1, n)
    ensures n > 0 ==> m[n].checkedAt - m[0].recordedAt >= Delay(start.failedLoginCount + 1, n)
  {
    if n > 0 {
      ApartAddsUp(start, m, n - 1);
      assert m[n] in m;
    }
  }

  /** From the first miss to the ninth 81 minutes, and a day for each one after. */
  lemma {:induction false} DelayOfNine(steps: nat)
    requires steps >= 8
    ensures Delay(1, steps) == 81 * MINUTE + (steps - 8) * 24 * HOUR
  {
    if steps == 8 {
      assert Delay(1, 4) == 0 by { assert Delay(1, 1) == 0 && Delay(1, 2) == 0 && Delay(1, 3) == 0; }
      assert Delay(1, 5) == MINUTE;
      assert Delay(1, 6) == 6 * MINUTE;
      assert Delay(1, 7) == 21 * MINUTE;
    } else {
      DelayOfNine(steps - 1);
    }
  }

  /** Over any run without a success, two misses are apart by the locks of all the misses from one to the other. */
  lemma LocksAddUp(user: User, attempts: seq<Attempt>, compare: (string, string) -> bool, n: nat)
    requires OneAtATime(attempts) && NoSuccess(user, attempts, compare)
    requires n < |Misses(user, attempts, compare)|
    ensures var m := Misses(user, attempts, compare);
            m[n].recordedAt - m[0].recordedAt >= Delay(user.failedLoginCount + 1, n)
            && (n > 0 ==> m[n].checkedAt - m[0].recordedAt >= Delay(user.failedLoginCount + 1, n))
  {
    MissesAreApart(user, attempts, compare);
    ApartAddsUp(user, Misses(user, attempts, compare), n);
  }

  /**
   * Starting from a clear counter, the n-th password found wrong, for n of nine or more, is compared no
   * earlier than 81 minutes and (n - 9) days after the first was recorded, however many attempts are made.
   */
  lemma GuessingIsSlow(user: User, attempts: seq<Attempt>, compare: (string, string) -> bool, n: nat)
    requires OneAtATime(attempts) && NoSuccess(user, attempts, compare)
    requires user.failedLoginCount == 0 && 9 <= n <= |Misses(user, attempts, compare)|
    ensures var m := Misses(user, attempts, compare);
            m[n - 1].checkedAt - m[0].recordedAt >= 81 * MINUTE + (n - 9) * 24 * HOUR
  {
    LocksAddUp(user, attempts, compare, n - 1);
    DelayFromNine(n);
  }

  lemma DelayFromNine(n: nat)
    requires n >= 9
    ensures Delay(1, n - 1) == 81 * MINUTE + (n - 9) * 24 * HOUR
  {
    DelayOfNine(n - 1);
  }

  // ---------- attempts in parallel ----------

  /** What an attempt that read the account as `read` writes over it as it is by then. */
  function Write(current: User, read: User, a: Attempt, compare: (string, string) -> bool): User {
    var after := Login(read, a, compare).0;
    if after == read then current
    else current.(failedLoginCount := after.failedLoginCount, lockoutUntil := after.lockoutUntil)
  }

  /** Attempts that all read the account before the first of them writes; they write in this order. */
  function Burst(user: User, attempts: seq<Attempt>, compare: (string, string) -> bool): User {
    if attempts == [] then user
    else Write(Burst(user, attempts[..|attempts| - 1], compare), user, attempts[|attempts| - 1], compare)
  }

  /** An attempt alone is a burst of one. */
  lemma BurstOfOne(user: User, a: Attempt, compare: (string, string) -> bool)
    ensures Burst(user, [a], compare) == Login(user, a, compare).0
  {
    assert [a][..0] == [];
  }

  predicate AllMiss(user: User, attempts: seq<Attempt>, compare: (string, string) -> bool) {
    attempts != [] && forall a | a in attempts :: IsMiss(user, a, compare)
  }

  /**
   * However many attempts read an unlocked account together, each has its
   * password compared, and together they count as one miss, that of the last to write.
   */
  lemma {:induction false} BurstCountsOnce(user: User, attempts: seq<Attempt>, compare: (string, string) -> bool)
    requires AllMiss(user, attempts, compare)
    ensures Burst(user, attempts, compare) == AfterMiss(user, attempts[|attempts| - 1].recordedAt)
  {
    var n := |attempts| - 1;
    if n > 0 {
      BurstCountsOnce(user, attempts[..n], compare);
    } else {
      assert attempts[..0] == [];
    }
    assert attempts[n] in attempts;
  }

  function BurstRun(user: User, bursts: seq<seq<Attempt>>, compare: (string, string) -> bool): User {
    if bursts == [] then user
    else Burst(BurstRun(user, bursts[..|bursts| - 1], compare), bursts[|bursts| - 1], compare)
  }

  /** Burst after burst, each found unlocked by all its attempts, and every password wrong. */
  predicate AllBurstsMiss(user: User, bursts: seq<seq<Attempt>>, compare: (string, string) -> bool) {
    forall i | 0 <= i < |bursts| :: AllMiss(BurstRun(user, bursts[..i], compare), bursts[i], compare)
  }

  lemma FrontBurstsMiss(user: User, bursts: seq<seq<Attempt>>, compare: (string, string) -> bool, n: nat)
    requires AllBurstsMiss(user, bursts, compare) && n <= |bursts|
    ensures AllBurstsMiss(user, bursts[..n], compare)
  {
    forall i | 0 <= i < n ensures AllMiss(BurstRun(user, bursts[..n][..i], compare), bursts[..n][i], compare) {
      assert bursts[..n][..i] == bursts[..i];
    }
  }

  /** How many passwords a run of bursts has compared. */
  function Comparisons(bursts: seq<seq<Attempt>>): nat {
    if bursts == [] then 0 else Comparisons(bursts[..|bursts| - 1]) + |bursts[|bursts| - 1]|
  }

  lemma {:induction false} ComparisonsOfEqualBursts(bursts: seq<seq<Attempt>>, k: nat)
    requires forall b | b in bursts :: |b| == k
    ensures Comparisons(bursts) == k * |bursts|
  {
    if bursts != [] {
      var n := |bursts| - 1;
      ComparisonsOfEqualBursts(bursts[..n], k);
      assert bursts[n] in bursts;
      TimesOneMore(k, n);
    }
  }

  lemma TimesOneMore(k: nat, n: nat)
    ensures k * (n + 1) == k * n + k
  {
  }

  /** The counter counts bursts, and the first lock comes with the fifth. */
  lemma {:induction false} BurstsAreCounted(user: User, bursts: seq<seq<Attempt>>, compare: (string, string) -> bool)
    requires user.failedLoginCount == 0 && user.lockoutUntil.None? && AllBurstsMiss(user, bursts, compare)
    ensures BurstRun(user, bursts, compare).failedLoginCount == |bursts|
    ensures BurstRun(user, bursts, compare).lockoutUntil.Some? <==> |bursts| >= 5
  {
    if bursts != [] {
      var n := |bursts| - 1;
      FrontBurstsMiss(user, bursts, compare, n);
      BurstsAreCounted(user, bursts[..n], compare);
      BurstCountsOnce(BurstRun(user, bursts[..n], compare), bursts[n], compare);
    }
  }

  /** So attempts made k at a time get 5k passwords compared before the first lock, and no fewer lock it. */
  lemma ParallelAttemptsBeforeTheLock(user: User, bursts: seq<seq<Attempt>>, compare: (string, string) -> bool, k: nat)
    requires user.failedLoginCount == 0 && user.lockoutUntil.None? && AllBurstsMiss(user, bursts, compare)
    requires k > 0 && forall b | b in bursts :: |b| == k
    ensures Comparisons(bursts) == k * |bursts|
    ensures BurstRun(user, bursts, compare).lockoutUntil.Some? <==> Comparisons(bursts) >= 5 * k
  {
    BurstsAreCounted(user, bursts, compare);
    ComparisonsOfEqualBursts(bursts, k);
    TimesAtLeastFive(k, |bursts|);
  }

  lemma TimesAtLeastFive(k: nat, n: nat)
    requires k > 0
    ensures k * n >= 5 * k <==> n >= 5
  {
    if n < 5 {
      assert k * n <= k * 4;
    } else {
      assert k * n >= k * 5;
    }
  }

  predicate NoneEmpty(bursts: seq<seq<Attempt>>) {
    forall i | 0 <= i < |bursts| :: bursts[i] != []
  }

  /** The last attempt of each burst to write. */
  function Lasts(bursts: seq<seq<Attempt>>): (r: seq<Attempt>)
    requires NoneEmpty(bursts)
    ensures |r| == |bursts| && forall i | 0 <= i < |bursts| :: r[i] == bursts[i][|bursts[i]| - 1]
  {
    seq(|bursts|, i requires 0 <= i < |bursts| => bursts[i][|bursts[i]| - 1])
  }

  /** One more attempt that misses. */
  lemma MissSnoc(user: User, attempts: seq<Attempt>, a: Attempt, compare: (string, string) -> bool)
    requires Misses(user, attempts, compare) == attempts && NoSuccess(user, attempts, compare)
    requires IsMiss(Run(user, attempts, compare), a, compare)
    ensures Run(user, attempts + [a], compare) == AfterMiss(Run(user, attempts, compare), a.recordedAt)
    ensures Misses(user, attempts + [a], compare) == attempts + [a] && NoSuccess(user, attempts + [a], compare)
  {
    var all := attempts + [a];
    assert all[..|all| - 1] == attempts && all[|all| - 1] == a;
    NoSuccessGrows(user, all, compare);
  }

  /** Bursts leave the account as their last attempts would, made one at a time. */
  lemma {:induction false} BurstsRunAsTheirLasts(user: User, bursts: seq<seq<Attempt>>,
                                                 compare: (string, string) -> bool)
    requires AllBurstsMiss(user, bursts, compare) && NoneEmpty(bursts)
    ensures Run(user, Lasts(bursts), compare) == BurstRun(user, bursts, compare)
    ensures Misses(user, Lasts(bursts), compare) == Lasts(bursts)
    ensures NoSuccess(user, Lasts(bursts), compare)
  {
    if bursts != [] {
      var n := |bursts| - 1;
      var front, last := bursts[..n], bursts[n];
      FrontBurstsMiss(user, bursts, compare, n);
      BurstsRunAsTheirLasts(user, front, compare);
      LastOfBurst(BurstRun(user, front, compare), last, compare);
      LastsSnoc(bursts);
      hide Run, Misses, NoSuccess, Burst, Lasts, IsMiss, AfterMiss;
      MissSnoc(user, Lasts(front), last[|last| - 1], compare);
    }
  }

  lemma LastOfBurst(user: User, burst: seq<Attempt>, compare: (string, string) -> bool)
    requires AllMiss(user, burst, compare)
    ensures var a := burst[|burst| - 1];
            IsMiss(user, a, compare) && Burst(user, burst, compare) == AfterMiss(user, a.recordedAt)
  {
    BurstCountsOnce(user, burst, compare);
    assert burst[|burst| - 1] in burst;
  }

  lemma LastsSnoc(bursts: seq<seq<Attempt>>)
    requires bursts != [] && NoneEmpty(bursts)
    ensures var n := |bursts| - 1;
            NoneEmpty(bursts[..n]) && Lasts(bursts) == Lasts(bursts[..n]) + [bursts[n][|bursts[n]| - 1]]
  {
  }

  lemma NoSuccessGrows(user: User, attempts: seq<Attempt>, compare: (string, string) -> bool)
    requires attempts != []
    requires NoSuccess(user, attempts[..|attempts| - 1], compare)
    requires IsMiss(Run(user, attempts[..|attempts| - 1], compare), attempts[|attempts| - 1], compare)
    ensures NoSuccess(user, attempts, compare)
  {
    var n := |attempts| - 1;
    forall i | 0 <= i < |attempts| ensures !Succeeds(user, attempts, compare, i) {
      if i < n {
        assert attempts[..n][..i] == attempts[..i];
        assert !Succeeds(user, attempts[..n], compare, i);
      }
    }
  }

  /**
   * Guessing in bursts, one after the other, gains a factor and no time: the
   * n-th burst comes as late as the n-th single guess.
   */
  lemma ParallelGuessingIsAsSlow(user: User, bursts: seq<seq<Attempt>>, compare: (string, string) -> bool, n: nat)
    requires AllBurstsMiss(user, bursts, compare) && NoneEmpty(bursts) && OneAtATime(Lasts(bursts))
    requires user.failedLoginCount == 0 && 9 <= n <= |bursts|
    ensures Lasts(bursts)[n - 1].checkedAt - Lasts(bursts)[0].recordedAt >= 81 * MINUTE + (n - 9) * 24 * HOUR
  {
    BurstsRunAsTheirLasts(user, bursts, compare);
    GuessingIsSlow(user, Lasts(bursts), compare, n);
  }
}
