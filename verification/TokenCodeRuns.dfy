/** Two runs in which a used code presented again leaves a live refresh token of it. */
module TokenCodeRuns {
  import opened Wrappers
  import opened TokenStore
  import opened TokenMachine
  import opened TokenInvariant
  import opened TokenPreservation
  import opened TokenEffects
  import opened TokenTheorems
  import opened TokenCodes
  import Authority

  const CODE := "c"
  const CLIENT := Authority.Client("client", [], false, [], [])
  const INPUT := CodeInput(CODE, "client", "uri", None, CLIENT)
  const ROW := Code("client", "uri", "user", None, "openid", None, CODE_LIFE_MS, false)
  const USED := ROW.(used := true)
  const DRAW := Draw(1, "access", "refresh", "id", 3600)

  function Start0(): State {
    Initial(0, None, [])
  }

  // ---------- a code is minted, claimed and read ----------

  function Minted(): State {
    Start0().(codes := map[CODE := ROW], minted := {CODE})
  }

  function Begun(s: State, me: CallId): State {
    Goto(s, me, CodeClaim(INPUT))
  }

  function Claimed(): State {
    Goto(Begun(Minted(), 0), 0, CodeRead(INPUT)).(codes := map[CODE := USED], holder := map[CODE := 0])
  }

  function AtIssue(): State {
    Goto(Claimed(), 0, CodeIssue(CODE, USED))
  }

  lemma Mints()
    ensures Apply(Start0(), MintCode(CODE, ROW)) == Minted()
  {
    hide StepCall;
  }

  lemma Begins(s: State, me: CallId)
    requires me !in s.calls
    ensures Apply(s, Start(me, ExchangeCode(INPUT))) == Begun(s, me)
  {
    hide StepCall;
  }

  lemma Claims()
    ensures Apply(Begun(Minted(), 0), Step(0, DRAW)) == Claimed()
  {
    hide Apply, StepCodeRead, StepCodeCheck, StepGrant;
    GrantStepIs(Begun(Minted(), 0), 0, DRAW);
  }

  lemma Reads()
    ensures Apply(Claimed(), Step(0, DRAW)) == AtIssue()
  {
    hide Apply, StepCodeClaim, StepCodeCheck, StepGrant;
    GrantStepIs(Claimed(), 0, DRAW);
  }

  ghost predicate CanReach(s: State) {
    exists actions :: s == Run(Start0(), actions)
  }

  lemma ReachNext(s: State, a: Action)
    requires CanReach(s)
    ensures CanReach(Apply(s, a))
  {
    hide Apply;
    var actions :| s == Run(Start0(), actions);
    RunConcat(Start0(), actions, [a]);
    RunOne(s, a);
    assert Apply(s, a) == Run(Start0(), actions + [a]);
  }

  lemma ReachesIssue()
    ensures CanReach(AtIssue())
  {
    Mints();
    Begins(Minted(), 0);
    Claims();
    Reads();
    hide Apply, Minted, Begun, Claimed, AtIssue, CanReach, Start0;
    ReachesStart();
    ReachNext(Start0(), MintCode(CODE, ROW));
    ReachNext(Minted(), Start(0, ExchangeCode(INPUT)));
    ReachNext(Begun(Minted(), 0), Step(0, DRAW));
    ReachNext(Claimed(), Step(0, DRAW));
  }

  lemma ReachesStart()
    ensures CanReach(Start0())
  {
    hide Apply;
    assert Run(Start0(), []) == Start0();
  }

  // ---------- the exchange outlives the verdict ----------

  function Looking(s: State): State {
    Goto(Begun(s, 1), 1, CodeCheck(CODE))
  }

  lemma Looks(s: State, d: Draw)
    requires 1 !in s.calls && (CODE in s.codes ==> s.codes[CODE].used)
    ensures Apply(Begun(s, 1), Step(1, d)) == Looking(s)
  {
    hide Apply;
    ClaimFails(Begun(s, 1), 1, d);
    assert Begun(s, 1).calls[1 := CodeCheck(CODE)] == Looking(s).calls;
  }

  lemma ReachesLook(s: State)
    requires CanReach(s) && 1 !in s.calls && (CODE in s.codes ==> s.codes[CODE].used)
    ensures CanReach(Looking(s))
  {
    hide Apply, CanReach, Begun, Looking;
    Begins(s, 1);
    Looks(s, DRAW);
    ReachNext(s, Start(1, ExchangeCode(INPUT)));
    ReachNext(Begun(s, 1), Step(1, DRAW));
  }

  /**
   * A replay seen while the first exchange still has its tokens to come: the
   * verdict runs, and afterwards the code has a live refresh token all the same.
   */
  lemma ExchangeOutlivesTheVerdict()
    ensures exists s, me, d, e, later ::
              && Reachable(s) && me in s.calls && s.calls[me] == CodeCheck(CODE)
              && CODE in s.codes && s.codes[CODE].used
              && CodeChainLives(Run(Apply(Apply(s, Step(me, d)), Step(me, e)), later), CODE)
  {
    ReachesIssue();
    ReachesLook(AtIssue());
    LookIsReachable(AtIssue());
    var s := Looking(AtIssue());
    VerdictRuns(s);
    hide Apply, Run, Reachable, CodeChainLives, CanReach, AtIssue, Looking;
    var w := Apply(Apply(s, Step(1, DRAW)), Step(1, DRAW));
    PendingCanIssue(w, 0, CODE);
    var later :| CodeChainLives(Run(w, later), CODE);
    assert Reachable(s) && s.calls[1] == CodeCheck(CODE) && CodeChainLives(Run(w, later), CODE);
  }

  lemma LookIsReachable(s: State)
    requires CanReach(Looking(s))
    ensures Reachable(Looking(s))
  {
    hide Apply, Run;
    var actions :| Looking(s) == Run(Start0(), actions);
    assert Looking(s) == Run(Initial(0, None, []), actions);
  }

  lemma VerdictRuns(s: State)
    requires s == Looking(AtIssue())
    ensures 1 in s.calls && s.calls[1] == CodeCheck(CODE) && CODE in s.codes && s.codes[CODE].used
    ensures var w := Apply(Apply(s, Step(1, DRAW)), Step(1, DRAW)); 0 in w.calls && StillToIssue(w, w.calls[0], CODE)
  {
    var t := Apply(s, Step(1, DRAW));
    ApplyEffect(s, Step(1, DRAW), 0);
    ApplyEffect(t, Step(1, DRAW), 0);
    hide Apply;
  }

  // ---------- the cleanup forgets the replay ----------

  function Born(): Birth {
    Birth(FromCode(CODE), 0, 0, "user", "client", "openid", None, 0, Issue(DRAW, "openid"))
  }

  function Issued(): State {
    Goto(InsertRoot(AtIssue(), 1, Born()), 0, Done(Pair(Born().tokens), {}))
  }

  /** One millisecond past the code's expiry, the cleanup has deleted the codes. */
  function Cleaned(): State {
    Goto(Issued().(now := CODE_LIFE_MS + 1, codes := map[]), 2, CleanTokens(CODE_LIFE_MS + 1))
  }

  lemma Issues()
    ensures Apply(AtIssue(), Step(0, DRAW)) == Issued()
  {
    hide Apply, StepCodeClaim, StepCodeRead, StepCodeCheck;
    GrantStepIs(AtIssue(), 0, DRAW);
  }

  function CleaningAt(c: Call): State {
    Goto(Issued().(now := CODE_LIFE_MS + 1), 2, c)
  }

  lemma CleanupBegins()
    ensures Apply(Issued(), Tick(CODE_LIFE_MS + 1)) == Issued().(now := CODE_LIFE_MS + 1)
    ensures Apply(Issued().(now := CODE_LIFE_MS + 1), Start(2, Cleanup)) == CleaningAt(CleanBegin)
  {
    hide StepCall;
  }

  lemma CleanupReadsTheClock()
    ensures Apply(CleaningAt(CleanBegin), Step(2, DRAW)) == CleaningAt(CleanCodes(CODE_LIFE_MS + 1))
  {
    hide Apply, DeleteExpiredCodes, DeleteExpired, EraseExpired, Issued;
    CleanStepIs(CleaningAt(CleanBegin), 2, DRAW);
  }

  lemma CleanupDeletesTheCode()
    ensures Apply(CleaningAt(CleanCodes(CODE_LIFE_MS + 1)), Step(2, DRAW)) == Cleaned()
  {
    hide Apply, DeleteExpiredCodes, DeleteExpired, EraseExpired, Issued;
    CleanStepIs(CleaningAt(CleanCodes(CODE_LIFE_MS + 1)), 2, DRAW);
    OneCode();
  }

  lemma OneCode()
    ensures DeleteExpiredCodes(Issued().codes, CODE_LIFE_MS + 1) == map[]
  {
    assert Issued().codes == map[CODE := USED];
  }

  lemma ReachesCleaned()
    ensures CanReach(Cleaned())
  {
    hide Apply, CanReach, AtIssue, Issued, CleaningAt, Cleaned;
    ReachesIssue();
    Issues();
    CleanupBegins();
    CleanupReadsTheClock();
    CleanupDeletesTheCode();
    ReachNext(AtIssue(), Step(0, DRAW));
    ReachNext(Issued(), Tick(CODE_LIFE_MS + 1));
    ReachNext(Issued().(now := CODE_LIFE_MS + 1), Start(2, Cleanup));
    ReachNext(CleaningAt(CleanBegin), Step(2, DRAW));
    ReachNext(CleaningAt(CleanCodes(CODE_LIFE_MS + 1)), Step(2, DRAW));
  }

  /** The replay of a code whose row is gone is refused, and the code's token stays live. */
  lemma CleanupForgetsTheReplay()
    ensures exists s, me, e ::
              && Reachable(s) && me in s.calls && s.calls[me] == CodeCheck(CODE) && CODE !in s.codes
              && var w := Apply(s, Step(me, e));
                 && me in w.calls && w.calls[me] == Done(Refused(InvalidCode), {}) && CodeChainLives(w, CODE)
  {
    ReachesCleaned();
    ReachesLook(Cleaned());
    LookIsReachable(Cleaned());
    ReplayIsRefused();
    hide Apply, Reachable, CodeChainLives, CanReach, Cleaned;
  }

  lemma ReplayIsRefused()
    ensures var s := Looking(Cleaned()); var w := Apply(s, Step(1, DRAW));
            && 1 in s.calls && s.calls[1] == CodeCheck(CODE) && CODE !in s.codes
            && 1 in w.calls && w.calls[1] == Done(Refused(InvalidCode), {}) && CodeChainLives(w, CODE)
  {
    var s := Looking(Cleaned());
    CheckLooks(s, 1, CODE, DRAW);
    hide Apply;
    var w := Apply(s, Step(1, DRAW));
    RootLives(w);
    assert StartsLive(w, 1, CODE);
  }

  lemma RootLives(w: State)
    requires w.born == Issued().born && w.rows == Issued().rows && w.chains == Issued().chains
    ensures StartsLive(w, 1, CODE)
  {
  }
}
