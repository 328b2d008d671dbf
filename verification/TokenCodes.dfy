/**
 * Authorization codes (src/oauth/oauth.service.ts): a code yields tokens once,
 * and what presenting a used code again does and does not revoke.
 */
module TokenCodes {
  import opened Wrappers
  import opened TokenStore
  import opened TokenMachine
  import opened TokenInvariant
  import opened TokenPreservation
  import opened TokenEffects
  import opened TokenTheorems
  import opened TokenRevokes

  // ---------- single use ----------

  /** Over any interleaving of exchanges a code yields tokens at most once. */
  lemma CodeYieldsTokensOnce(s: State, i: Id, j: Id, code: string)
    requires Reachable(s) && i in s.born && j in s.born
    requires s.born[i].origin == FromCode(code) && s.born[j].origin == FromCode(code)
    ensures i == j
    ensures code in s.codes ==> s.codes[code].used
  {
    hide Reachable, ChainsOk, RowsOk, CallsOk;
    ReachableInv(s);
    assert LinkOk(s, i);
  }

  /** Where a failed claim goes once it has looked at the code. */
  function AfterCheck(codes: map<string, Code>, code: string): Call {
    if code in codes && codes[code].used then
      var family := ByUserClient(codes[code].user, codes[code].client);
      Sweeping(family, family, Refused(InvalidCode))
    else Done(Refused(InvalidCode), {})
  }

  /**
   * A presentation whose claim fails, with anything in between its two looks at
   * the code, changes no code and no row by either; it ends in a refusal unless
   * the code was used by the time it looked again, and then goes on to revoke
   * that code's user and client. So an unused code stays unused, and nothing is
   * revoked on its account.
   */
  lemma FailedClaimSparesTheCode(s: State, me: CallId, d: Draw, between: seq<Action>, e: Draw)
    requires me in s.calls && s.calls[me].CodeClaim? && !Claimable(s.codes, s.calls[me].input, s.now)
    requires OthersOnly(between, me)
    ensures var t := Apply(s, Step(me, d));
            var u := Run(t, between);
            var w := Apply(u, Step(me, e));
            && t.codes == s.codes && t.rows == s.rows && w.codes == u.codes && w.rows == u.rows
            && me in w.calls && w.calls[me] == AfterCheck(u.codes, s.calls[me].input.code)
  {
    hide Apply, Run, AfterCheck, Claimable;
    ClaimFails(s, me, d);
    CallStays(Apply(s, Step(me, d)), me, between);
    CheckLooks(Run(Apply(s, Step(me, d)), between), me, s.calls[me].input.code, e);
  }

  lemma ClaimFails(s: State, me: CallId, d: Draw)
    requires me in s.calls && s.calls[me].CodeClaim? && !Claimable(s.codes, s.calls[me].input, s.now)
    ensures Apply(s, Step(me, d)) == Goto(s, me, CodeCheck(s.calls[me].input.code))
  {
    hide Apply, Claimable, StepCodeRead, StepCodeCheck, StepGrant;
    GrantStepIs(s, me, d);
  }

  lemma CheckLooks(u: State, me: CallId, code: string, e: Draw)
    requires me in u.calls && u.calls[me] == CodeCheck(code)
    ensures Apply(u, Step(me, e)) == Goto(u, me, AfterCheck(u.codes, code))
  {
    hide Apply, StepCodeClaim, StepCodeRead, StepGrant;
    GrantStepIs(u, me, e);
  }

  // ---------- whose a code is ----------

  predicate IssuesFor(call: Call, code: string) {
    call.CodeIssue? && call.code == code
  }

  predicate OwnedBy(b: Birth, user: string, client: string) {
    b.user == user && b.client == client
  }

  /** The code, the rows born of it and the call about to issue for it all name one user and client. */
  ghost predicate BelongsTo(s: State, code: string, user: string, client: string) {
    && code in s.minted
    && (code in s.codes ==> s.codes[code].user == user && s.codes[code].client == client)
    && (forall id | id in s.born && s.born[id].origin == FromCode(code) :: OwnedBy(s.born[id], user, client))
    && (forall me | me in s.calls && IssuesFor(s.calls[me], code) ::
          s.calls[me].row.user == user && s.calls[me].row.client == client)
  }

  lemma BelongsStep(s: State, me: CallId, d: Draw, code: string, user: string, client: string)
    requires me in s.calls && BelongsTo(s, code, user, client)
    ensures BelongsTo(StepCall(s, me, s.calls[me], d), code, user, client)
  {
    hide StepCall, Fresh, Claimable, Passes;
    StepMoves(s, me, s.calls[me], d);
    StepCodes(s, me, s.calls[me], d);
    var t := StepCall(s, me, s.calls[me], d);
    forall id | id in t.born && t.born[id].origin == FromCode(code) ensures OwnedBy(t.born[id], user, client) {
      if SameHistories(s, t) || id != d.id { assert s.born[id] == t.born[id]; }
    }
  }

  lemma BelongsApply(s: State, a: Action, code: string, user: string, client: string)
    requires BelongsTo(s, code, user, client)
    ensures BelongsTo(Apply(s, a), code, user, client)
  {
    if a.Step? && a.me in s.calls {
      StepIs(s, a.me, a.draw);
      hide Apply, StepCall, BelongsTo;
      BelongsStep(s, a.me, a.draw, code, user, client);
    } else {
      BelongsOther(s, a, code, user, client);
    }
  }

  lemma BelongsOther(s: State, a: Action, code: string, user: string, client: string)
    requires BelongsTo(s, code, user, client) && !(a.Step? && a.me in s.calls)
    ensures BelongsTo(Apply(s, a), code, user, client)
  {
    hide StepCall, DeleteClient, DeleteUser;
  }

  lemma {:induction false} BelongsRun(s: State, actions: seq<Action>, code: string, user: string, client: string)
    requires BelongsTo(s, code, user, client)
    ensures BelongsTo(Run(s, actions), code, user, client)
    decreases |actions|
  {
    hide Apply, BelongsTo;
    if actions != [] {
      BelongsApply(s, actions[0], code, user, client);
      BelongsRun(Apply(s, actions[0]), actions[1..], code, user, client);
    }
  }

  /** Every code in the table belongs to its user and client, with all that came or may come of it. */
  ghost predicate OwnersOk(s: State) {
    forall c | c in s.codes :: BelongsTo(s, c, s.codes[c].user, s.codes[c].client)
  }

  lemma OwnersApply(s: State, a: Action)
    requires Inv(s) && OwnersOk(s)
    ensures OwnersOk(Apply(s, a))
  {
    var t := Apply(s, a);
    ApplyCodes(s, a);
    hide Apply, Inv, BelongsTo;
    forall c | c in t.codes ensures BelongsTo(t, c, t.codes[c].user, t.codes[c].client) {
      if c in s.codes {
        BelongsApply(s, a, c, s.codes[c].user, s.codes[c].client);
      } else {
        NewCodeBelongs(s, a, c);
      }
    }
  }

  /** An action keeps the codes that were there, `used` aside; a new one is minted. */
  lemma ApplyCodes(s: State, a: Action)
    requires CodesOk(s)
    ensures forall c | c in Apply(s, a).codes ::
              if c in s.codes then CodeLater(s.codes[c], Apply(s, a).codes[c])
              else a.MintCode? && a.code == c && c !in s.minted
  {
    hide StepCall, DeleteClient, DeleteUser;
    if a.Step? && a.me in s.calls {
      StepCodes(s, a.me, s.calls[a.me], a.draw);
    }
  }

  lemma NewCodeBelongs(s: State, a: Action, c: string)
    requires Inv(s) && a.MintCode? && a.code == c && c !in s.minted && c in Apply(s, a).codes
    ensures BelongsTo(Apply(s, a), c, Apply(s, a).codes[c].user, Apply(s, a).codes[c].client)
  {
    hide StepCall, Inv;
    UnmintedIsUnknown(s, c);
  }

  lemma UnmintedIsUnknown(s: State, c: string)
    requires Inv(s) && c !in s.minted
    ensures forall id | id in s.born :: s.born[id].origin != FromCode(c)
    ensures forall me | me in s.calls :: !IssuesFor(s.calls[me], c)
  {
    hide ChainsOk, RowsOk, CallsOk;
    forall id | id in s.born ensures s.born[id].origin != FromCode(c) { assert LinkOk(s, id); }
    forall me | me in s.calls ensures !IssuesFor(s.calls[me], c) { assert CodeCallOk(s, me, s.calls[me]); }
  }

  lemma {:induction false} OwnersRun(s: State, actions: seq<Action>)
    requires Inv(s) && OwnersOk(s)
    ensures OwnersOk(Run(s, actions))
    decreases |actions|
  {
    hide Apply, Inv, OwnersOk;
    if actions != [] {
      ApplyOk(s, actions[0]);
      OwnersApply(s, actions[0]);
      OwnersRun(Apply(s, actions[0]), actions[1..]);
    }
  }

  lemma ReachableOwners(s: State)
    requires Reachable(s)
    ensures OwnersOk(s)
  {
    hide Inv, Run;
    var now, key, registry, actions :| s == Run(Initial(now, key, registry), actions);
    InitialOk(now, key, registry);
    OwnersRun(Initial(now, key, registry), actions);
  }

  // ---------- an exchange still under way ----------

  /** The call is past its claim of the code, and its tokens are still to come. */
  predicate StillToIssue(s: State, call: Call, code: string) {
    match call
    case CodeIssue(c, _) => c == code
    case CodeRead(i) => i.code == code && code in s.codes && Passes(s.codes[code], i, s.registry)
    case _ => false
  }

  ghost predicate NoneToIssue(s: State, code: string) {
    forall me | me in s.calls :: !StillToIssue(s, s.calls[me], code)
  }

  /** The code can yield nothing any more. */
  ghost predicate Exhausted(s: State, code: string) {
    && code in s.minted && NoneToIssue(s, code)
    && (code in s.codes ==> s.codes[code].used)
  }

  predicate NoneBorn(s: State, t: State, code: string) {
    forall id | id in t.born && t.born[id].origin == FromCode(code) :: id in s.born && t.born[id] == s.born[id]
  }

  lemma ExhaustedStep(s: State, me: CallId, d: Draw, code: string)
    requires me in s.calls && Exhausted(s, code)
    ensures var t := StepCall(s, me, s.calls[me], d); Exhausted(t, code) && NoneBorn(s, t, code)
  {
    hide StepCall, Fresh, Passes;
    StepMoves(s, me, s.calls[me], d);
    StepCodes(s, me, s.calls[me], d);
    var t := StepCall(s, me, s.calls[me], d);
    assert !StillToIssue(s, s.calls[me], code);
    forall o | o in t.calls ensures !StillToIssue(t, t.calls[o], code) {
      assert !StillToIssue(s, s.calls[o], code);
      if o != me {
        StillWaits(s, t, s.calls[o], code);
      } else {
        MineWaits(s, t, s.calls[me], t.calls[me], code);
      }
    }
  }

  /** What the claim left decides; a code's columns do not change but for `used`. */
  lemma PassesLater(a: Code, b: Code, i: CodeInput, registry: seq<string>)
    requires CodeLater(a, b)
    ensures Passes(a, i, registry) == Passes(b, i, registry)
  {
  }

  lemma StillWaits(s: State, t: State, call: Call, code: string)
    requires CodesLater(s.codes, t.codes) && t.registry == s.registry && !StillToIssue(s, call, code)
    ensures !StillToIssue(t, call, code)
  {
    hide Passes;
    if call.CodeRead? && call.input.code == code && code in t.codes {
      PassesLater(s.codes[code], t.codes[code], call.input, s.registry);
    }
  }

  lemma MineWaits(s: State, t: State, call: Call, next: Call, code: string)
    requires CodesLater(s.codes, t.codes) && t.registry == s.registry && GoesTo(s, call, next)
    requires !StillToIssue(s, call, code) && (code in s.codes ==> s.codes[code].used)
    ensures !StillToIssue(t, next, code)
  {
    hide Passes;
  }

  lemma ExhaustedApply(s: State, a: Action, code: string)
    requires Exhausted(s, code)
    ensures Exhausted(Apply(s, a), code) && NoneBorn(s, Apply(s, a), code)
  {
    if a.Step? && a.me in s.calls {
      StepIs(s, a.me, a.draw);
      hide Apply, StepCall, Exhausted, NoneBorn;
      ExhaustedStep(s, a.me, a.draw, code);
    } else {
      ExhaustedOther(s, a, code);
    }
  }

  lemma ExhaustedOther(s: State, a: Action, code: string)
    requires Exhausted(s, code) && !(a.Step? && a.me in s.calls)
    ensures Exhausted(Apply(s, a), code) && NoneBorn(s, Apply(s, a), code)
  {
    NoneMoreToIssue(s, a, code);
    hide StepCall, DeleteClient, DeleteUser, Fresh, NoneToIssue;
  }

  lemma NoneMoreToIssue(s: State, a: Action, code: string)
    requires Exhausted(s, code) && !(a.Step? && a.me in s.calls)
    ensures NoneToIssue(Apply(s, a), code)
  {
    hide StepCall, DeleteClient, DeleteUser, Passes;
    var t := Apply(s, a);
    forall o | o in t.calls ensures !StillToIssue(t, t.calls[o], code) {
      if o in s.calls { assert !StillToIssue(s, s.calls[o], code); }
    }
  }

  lemma {:induction false} ExhaustedRun(s: State, actions: seq<Action>, code: string)
    requires Exhausted(s, code)
    ensures Exhausted(Run(s, actions), code) && NoneBorn(s, Run(s, actions), code)
    decreases |actions|
  {
    hide Apply, Exhausted;
    if actions != [] {
      ExhaustedApply(s, actions[0], code);
      ExhaustedRun(Apply(s, actions[0]), actions[1..], code);
    }
  }

  // ---------- the theft verdict ----------

  predicate StartsLive(s: State, root: Id, code: string) {
    root in s.born && s.born[root].origin == FromCode(code) && Abstract(s, s.born[root].chain).Live?
  }

  /** The chain the code started has a live refresh token. */
  ghost predicate CodeChainLives(s: State, code: string) {
    exists root :: StartsLive(s, root, code)
  }

  /** The family revoke reaches the chain the code started. */
  lemma SweptChainDies(v: State, me: CallId, d: Draw, code: string, user: string, client: string)
    requires Inv(v) && me in v.calls && v.calls[me].Sweeping? && v.calls[me].revoke == ByUserClient(user, client)
    requires BelongsTo(v, code, user, client)
    ensures !CodeChainLives(Apply(v, Step(me, d)), code)
  {
    hide Apply, Abstract, Inv;
    SweepRevokes(v, me, d);
    ApplyOk(v, Step(me, d));
    BelongsApply(v, Step(me, d), code, user, client);
    var w := Apply(v, Step(me, d));
    forall root ensures !StartsLive(w, root, code) {
      if root in w.born && w.born[root].origin == FromCode(code) {
        ChainOfOwnerIsDead(w, root, user, client);
      }
    }
  }

  lemma ChainOfOwnerIsDead(w: State, root: Id, user: string, client: string)
    requires Inv(w) && root in w.born && w.born[root].user == user && w.born[root].client == client
    requires w.born[root].pos == 0 || !w.born[root].origin.FromRotation?
    requires forall id | id in w.rows && Matches(ByUserClient(user, client), id, w.rows[id]) :: w.rows[id].revoked
    ensures Abstract(w, w.born[root].chain).Dead?
  {
    var c := w.born[root].chain;
    if Abstract(w, c).Live? {
      TailIsOwned(w, root, Abstract(w, c).tail);
      assert Matches(ByUserClient(user, client), Abstract(w, c).tail, w.rows[Abstract(w, c).tail]);
    }
  }

  /** The live end of a chain belongs to the user and client of any row of it. */
  lemma TailIsOwned(w: State, root: Id, tail: Id)
    requires Inv(w) && root in w.born && Abstract(w, w.born[root].chain) == Live(tail)
    ensures tail in w.rows && w.rows[tail].user == w.born[root].user && w.rows[tail].client == w.born[root].client
  {
    hide Inv, ChainsOk, BirthsOk, Abstract, InChain;
    RootAndTail(w, root, tail);
    EndIsOwned(w, root, tail);
  }

  lemma EndIsOwned(w: State, root: Id, tail: Id)
    requires ChainsOk(w) && BirthsOk(w) && InChain(w, root)
    requires tail == w.chains[w.born[root].chain][|w.chains[w.born[root].chain]| - 1]
    ensures tail in w.born && w.born[tail].user == w.born[root].user && w.born[tail].client == w.born[root].client
  {
    hide ChainsOk, BirthsOk, Authority.ScopeSet;
    var c := w.born[root].chain;
    LinksNarrow(w, c, w.born[root].pos, |w.chains[c]| - 1);
  }

  lemma RootAndTail(w: State, root: Id, tail: Id)
    requires Inv(w) && root in w.born && Abstract(w, w.born[root].chain) == Live(tail)
    ensures ChainsOk(w) && BirthsOk(w) && InChain(w, root) && tail in w.rows && tail in w.born
    ensures tail == w.chains[w.born[root].chain][|w.chains[w.born[root].chain]| - 1]
    ensures w.rows[tail].user == w.born[tail].user && w.rows[tail].client == w.born[tail].client
  {
    assert InChain(w, root) && RowOk(w, tail);
  }

  /** A draw that is new always exists. */
  lemma FreshDrawExists(s: State)
    ensures exists d :: Fresh(s, d)
  {
    var id := AboveAll(s.born.Keys + s.rows.Keys);
    var lengths := set i | i in s.born :: |s.born[i].tokens.refreshToken|;
    var length := AboveAll(lengths);
    var token := seq(length, _ => 'x');
    var d := Draw(id, "", token, "", 0);
    forall i | i in s.born ensures s.born[i].tokens.refreshToken != token {
      assert |s.born[i].tokens.refreshToken| in lengths;
      assert |s.born[i].tokens.refreshToken| < length == |token|;
    }
    assert id !in s.born.Keys + s.rows.Keys;
    assert Fresh(s, d);
  }

  /** A number above all of a set. */
  ghost function AboveAll(ids: set<nat>): (n: nat)
    ensures forall i | i in ids :: i < n
  {
    if ids == {} then 0
    else
      var x :| x in ids;
      var n := AboveAll(ids - {x});
      assert forall i | i in ids :: i == x || i in ids - {x};
      if x < n then n else x + 1
  }

  /** A call at its insert, with a new draw, starts a live chain. */
  lemma IssueLives(s: State, me: CallId, d: Draw, code: string)
    requires me in s.calls && IssuesFor(s.calls[me], code) && Fresh(s, d)
    ensures CodeChainLives(Apply(s, Step(me, d)), code)
  {
    GrantStepIs(s, me, d);
    GrantingInserts(s, me, s.calls[me], d);
    StepIs(s, me, d);
    hide Apply, StepCall, Fresh, StepGranting;
    var t := Apply(s, Step(me, d));
    InsertedLives(s, t, d.id, code);
    assert StartsLive(t, d.id, code);
  }

  lemma InsertedLives(s: State, t: State, id: Id, code: string)
    requires id in t.born && t.born[id].origin == FromCode(code) && t.born[id].chain == |s.chains|
    requires t.chains == s.chains + [[id]] && t.rows == s.rows[id := NewRow(t.born[id])]
    ensures StartsLive(t, id, code)
  {
  }

  /** While a call is past its claim and still to issue, a run of its own steps makes the chain live. */
  lemma PendingCanIssue(v: State, me: CallId, code: string)
    requires me in v.calls && StillToIssue(v, v.calls[me], code)
    ensures exists later :: CodeChainLives(Run(v, later), code)
  {
    hide Apply, CodeChainLives, Fresh, Passes;
    FreshDrawExists(v);
    var d :| Fresh(v, d);
    if v.calls[me].CodeIssue? {
      IssueLives(v, me, d, code);
      RunOne(v, Step(me, d));
      assert CodeChainLives(Run(v, [Step(me, d)]), code);
    } else {
      ReadGoesOn(v, me, d, code);
      var u := Apply(v, Step(me, d));
      assert Fresh(u, d) by { FreshStill(v, u, d); }
      IssueLives(u, me, d, code);
      RunTwo(v, Step(me, d), Step(me, d));
      assert CodeChainLives(Run(v, [Step(me, d), Step(me, d)]), code);
    }
  }

  lemma FreshStill(v: State, u: State, d: Draw)
    requires Fresh(v, d) && u.born == v.born && u.rows == v.rows
    ensures Fresh(u, d)
  {
  }

  lemma ReadGoesOn(v: State, me: CallId, d: Draw, code: string)
    requires me in v.calls && v.calls[me].CodeRead? && StillToIssue(v, v.calls[me], code)
    ensures Apply(v, Step(me, d)) == Goto(v, me, CodeIssue(code, v.codes[code]))
  {
    hide Apply, PkceOk, AudienceOk, StepCodeClaim, StepCodeCheck, StepGrant;
    GrantStepIs(v, me, d);
  }

  lemma RunOne(s: State, a: Action)
    ensures Run(s, [a]) == Apply(s, a)
  {
    hide Apply;
    assert [a][1..] == [];
  }

  lemma RunTwo(s: State, a: Action, b: Action)
    ensures Run(s, [a, b]) == Apply(Apply(s, a), b)
  {
    hide Apply;
    assert [a, b][1..] == [b];
    RunOne(Apply(s, a), b);
  }

  /** With none still to issue, what the sweep killed stays dead, and nothing new starts. */
  lemma VerdictHolds(w: State, later: seq<Action>, code: string)
    requires Inv(w) && Exhausted(w, code) && !CodeChainLives(w, code)
    ensures !CodeChainLives(Run(w, later), code)
  {
    hide Run, Exhausted, Abstract;
    ExhaustedRun(w, later, code);
    RunOk(w, later);
    var x := Run(w, later);
    forall root ensures !StartsLive(x, root, code) {
      if root in x.born && x.born[root].origin == FromCode(code) {
        assert !StartsLive(w, root, code);
        assert InChain(w, root);
        DeadStays(w, later, w.born[root].chain);
      }
    }
  }

  /**
   * The theft verdict on a used code, exactly. From the moment its revoke has
   * run, with anything between it and the look that led to it, no later run has
   * a live refresh token from the code if and only if no exchange of the code
   * is past its claim with its tokens still to come.
   */
  lemma TheftVerdictHoldsExactly(s: State, me: CallId, d: Draw, between: seq<Action>, e: Draw)
    requires Reachable(s) && me in s.calls && s.calls[me].CodeCheck?
    requires s.calls[me].code in s.codes && s.codes[s.calls[me].code].used && OthersOnly(between, me)
    ensures var w := Apply(Run(Apply(s, Step(me, d)), between), Step(me, e));
            (forall later :: !CodeChainLives(Run(w, later), s.calls[me].code)) <==> NoneToIssue(w, s.calls[me].code)
  {
    hide Inv, Apply, Run, Reachable, CodeChainLives, StillToIssue;
    ReachableInv(s);
    VerdictStands(s, me, d, between, e);
    var code := s.calls[me].code;
    var w := Apply(Run(Apply(s, Step(me, d)), between), Step(me, e));
    if NoneToIssue(w, code) {
      forall later ensures !CodeChainLives(Run(w, later), code) {
        VerdictHolds(w, later, code);
      }
    } else {
      var other :| other in w.calls && StillToIssue(w, w.calls[other], code);
      PendingCanIssue(w, other, code);
    }
  }

  /** At that moment the code's chain is dead, and the code is used or gone. */
  lemma VerdictStands(s: State, me: CallId, d: Draw, between: seq<Action>, e: Draw)
    requires Reachable(s) && Inv(s) && me in s.calls && s.calls[me].CodeCheck?
    requires s.calls[me].code in s.codes && s.codes[s.calls[me].code].used && OthersOnly(between, me)
    ensures var w := Apply(Run(Apply(s, Step(me, d)), between), Step(me, e));
            var code := s.calls[me].code;
            && Inv(w) && !CodeChainLives(w, code) && code in w.minted && (code in w.codes ==> w.codes[code].used)
  {
    hide Inv, Apply, Run, Reachable, BelongsTo, CodeChainLives;
    ReachableOwners(s);
    CheckLooks(s, me, s.calls[me].code, d);
    var code := s.calls[me].code;
    var user, client := s.codes[code].user, s.codes[code].client;
    var t := Apply(s, Step(me, d));
    ApplyOk(s, Step(me, d));
    BelongsApply(s, Step(me, d), code, user, client);
    RunOk(t, between);
    BelongsRun(t, between, code, user, client);
    CallStays(t, me, between);
    var v := Run(t, between);
    LaterTransitive(s, t, v);
    SweptChainDies(v, me, e, code, user, client);
    ApplyOk(v, Step(me, e));
    LaterTransitive(s, v, Apply(v, Step(me, e)));
    UsedStays(s, Apply(v, Step(me, e)), code, user, client);
  }

  lemma UsedStays(s: State, w: State, code: string, user: string, client: string)
    requires Later(s, w) && code in s.codes && s.codes[code].used && BelongsTo(s, code, user, client)
    ensures code in w.minted && (code in w.codes ==> w.codes[code].used)
  {
  }

  // ---------- presenting a used code again ----------

  predicate FamilyIsDead(rows: Rows, user: string, client: string) {
    forall id | id in rows && rows[id].user == user && rows[id].client == client :: rows[id].revoked
  }

  /** Nobody deletes the client or the user of the code. */
  predicate OwnerStays(actions: seq<Action>, user: string, client: string) {
    forall a | a in actions :: a != DropClient(client) && a != DropUser(user)
  }

  /** Until it expires, a code's row is there, unless its client or user is deleted. */
  lemma {:induction false} CodeRowStays(s: State, actions: seq<Action>, code: string)
    requires Inv(s) && code in s.codes && OwnerStays(actions, s.codes[code].user, s.codes[code].client)
    requires Run(s, actions).now <= s.codes[code].expiresAt
    ensures code in Run(s, actions).codes && CodeLater(s.codes[code], Run(s, actions).codes[code])
    decreases |actions|
  {
    if actions != [] {
      var t := Apply(s, actions[0]);
      ApplyOk(s, actions[0]);
      RunOk(t, actions[1..]);
      RunStep(s, actions);
      OwnerStaysOn(actions, s.codes[code].user, s.codes[code].client);
      hide Apply, Run, Inv, OwnerStays;
      CodeRowStep(s, actions[0], code);
      CodeRowStays(t, actions[1..], code);
    }
  }

  lemma OwnerStaysOn(actions: seq<Action>, user: string, client: string)
    requires OwnerStays(actions, user, client) && actions != []
    ensures actions[0] != DropClient(client) && actions[0] != DropUser(user) && OwnerStays(actions[1..], user, client)
  {
    assert actions[0] in actions;
    forall a | a in actions[1..] ensures a != DropClient(client) && a != DropUser(user) { assert a in actions; }
  }

  lemma RunStep(s: State, actions: seq<Action>)
    requires actions != []
    ensures Run(s, actions) == Run(Apply(s, actions[0]), actions[1..])
  {
    hide Apply;
  }

  lemma CodeRowStep(s: State, a: Action, code: string)
    requires Inv(s) && code in s.codes && Apply(s, a).now <= s.codes[code].expiresAt
    requires a != DropClient(s.codes[code].client) && a != DropUser(s.codes[code].user)
    ensures code in Apply(s, a).codes && CodeLater(s.codes[code], Apply(s, a).codes[code])
  {
    if a.Step? && a.me in s.calls {
      StepIs(s, a.me, a.draw);
      hide Apply, StepCall, Inv;
      CodeRowOwnStep(s, a.me, a.draw, code);
    } else {
      CodeRowOther(s, a, code);
    }
  }

  lemma CodeRowOwnStep(s: State, me: CallId, d: Draw, code: string)
    requires Inv(s) && me in s.calls && code in s.codes
    requires StepCall(s, me, s.calls[me], d).now <= s.codes[code].expiresAt
    ensures var t := StepCall(s, me, s.calls[me], d); code in t.codes && CodeLater(s.codes[code], t.codes[code])
  {
    hide StepCall, Inv, GoesTo, BornOf, BornNow, SameHistories, Fresh;
    StepCodes(s, me, s.calls[me], d);
    StepMoves(s, me, s.calls[me], d);
    if s.calls[me].CleanCodes? { CleanupClock(s, me); }
  }

  lemma CleanupClock(s: State, me: CallId)
    requires Inv(s) && me in s.calls && s.calls[me].CleanCodes?
    ensures s.calls[me].at <= s.now
  {
    hide ChainsOk, BirthsOk, RowsOk, CodesOk;
    assert CallOk(s, s.calls[me]);
  }

  lemma CodeRowOther(s: State, a: Action, code: string)
    requires Inv(s) && code in s.codes && !(a.Step? && a.me in s.calls)
    requires a != DropClient(s.codes[code].client) && a != DropUser(s.codes[code].user)
    ensures code in Apply(s, a).codes && CodeLater(s.codes[code], Apply(s, a).codes[code])
  {
    hide StepCall, DeleteClient, DeleteUser, ChainsOk, BirthsOk, RowsOk, CallsOk;
  }

  /** The states of a presentation: before its look at why it failed, and before its revoke. */
  function AtLook(s: State, me: CallId, d: Draw, first: seq<Action>): State {
    Run(Apply(s, Step(me, d)), first)
  }

  function AtRevoke(s: State, me: CallId, d: Draw, first: seq<Action>, e: Draw, second: seq<Action>): State {
    Run(Apply(AtLook(s, me, d, first), Step(me, e)), second)
  }

  /**
   * A used code presented again, with anything in between. If its row is still
   * there when the failed claim looks, the presentation revokes every live row
   * of the code's user and client, and no later run has a live refresh token
   * from the code exactly when no exchange of it is still to issue. If the row
   * is gone, nothing is revoked and nothing changes. And the row is there
   * whenever the look comes no later than the code's expiry, with its client
   * and user not deleted meanwhile.
   */
  lemma UsedCodePresentedAgain(s: State, me: CallId, d: Draw, first: seq<Action>, e: Draw, second: seq<Action>, f: Draw)
    requires Reachable(s) && me in s.calls && s.calls[me].CodeClaim?
    requires s.calls[me].input.code in s.codes && s.codes[s.calls[me].input.code].used
    requires OthersOnly(first, me) && OthersOnly(second, me)
    ensures var c := s.calls[me].input.code;
            var u := AtLook(s, me, d, first);
            var v := AtRevoke(s, me, d, first, e, second);
            var w := Apply(v, Step(me, f));
            && (c in u.codes ==>
                  && FamilyIsDead(w.rows, u.codes[c].user, u.codes[c].client)
                  && ((forall later :: !CodeChainLives(Run(w, later), c)) <==> NoneToIssue(w, c)))
            && (c !in u.codes ==> w == v && me in w.calls && w.calls[me] == Done(Refused(InvalidCode), {}))
            && (u.now <= s.codes[c].expiresAt && OwnerStays(first, s.codes[c].user, s.codes[c].client) ==> c in u.codes)
  {
    var c := s.calls[me].input.code;
    LookFindsTheRow(s, me, d, first);
    ReplayReaches(s, me, d, first);
    hide Apply, Run, Reachable, OwnerStays, FamilyIsDead, CodeChainLives, NoneToIssue;
    var u := AtLook(s, me, d, first);
    if c in u.codes {
      TheftVerdictHoldsExactly(u, me, e, second, f);
      FamilyDies(u, me, c, e, second, f);
    } else {
      NothingHappens(u, me, c, e, second, f);
    }
  }

  /** The failed claim, and where the call stands at its look. */
  lemma ReplayReaches(s: State, me: CallId, d: Draw, first: seq<Action>)
    requires Reachable(s) && me in s.calls && s.calls[me].CodeClaim?
    requires s.calls[me].input.code in s.codes && s.codes[s.calls[me].input.code].used && OthersOnly(first, me)
    ensures var c := s.calls[me].input.code; var u := AtLook(s, me, d, first);
            && Reachable(u) && me in u.calls && u.calls[me] == CodeCheck(c) && (c in u.codes ==> u.codes[c].used)
  {
    hide Inv, Apply, Run, Reachable, BelongsTo;
    ReachableInv(s);
    ReachableOwners(s);
    ClaimFails(s, me, d);
    var c := s.calls[me].input.code;
    var t := Apply(s, Step(me, d));
    ApplyOk(s, Step(me, d));
    RunOk(t, first);
    CallStays(t, me, first);
    LaterTransitive(s, t, Run(t, first));
    UsedStays(s, Run(t, first), c, s.codes[c].user, s.codes[c].client);
    ReachableOn(s, Step(me, d), first);
  }

  lemma ReachableOn(s: State, a: Action, more: seq<Action>)
    requires Reachable(s)
    ensures Reachable(Run(Apply(s, a), more))
  {
    hide Apply, Initial;
    var now, key, registry, actions :| s == Run(Initial(now, key, registry), actions);
    RunConcat(Initial(now, key, registry), actions, [a] + more);
    assert ([a] + more)[1..] == more;
    assert Run(Initial(now, key, registry), actions + ([a] + more)) == Run(Apply(s, a), more);
  }

  lemma {:induction false} RunConcat(s: State, a: seq<Action>, b: seq<Action>)
    ensures Run(s, a + b) == Run(Run(s, a), b)
    decreases |a|
  {
    hide Apply;
    if a == [] {
      assert a + b == b;
    } else {
      assert (a + b)[1..] == a[1..] + b;
      RunConcat(Apply(s, a[0]), a[1..], b);
    }
  }

  lemma LookFindsTheRow(s: State, me: CallId, d: Draw, first: seq<Action>)
    requires Reachable(s) && me in s.calls && s.calls[me].CodeClaim?
    requires s.calls[me].input.code in s.codes && s.codes[s.calls[me].input.code].used
    ensures var c := s.calls[me].input.code; var u := AtLook(s, me, d, first);
            u.now <= s.codes[c].expiresAt && OwnerStays(first, s.codes[c].user, s.codes[c].client) ==> c in u.codes
  {
    hide Apply, Run, Inv, Reachable, OwnerStays;
    ReachableInv(s);
    ApplyOk(s, Step(me, d));
    ClaimFails(s, me, d);
    var c := s.calls[me].input.code;
    var t := Apply(s, Step(me, d));
    if AtLook(s, me, d, first).now <= s.codes[c].expiresAt && OwnerStays(first, s.codes[c].user, s.codes[c].client) {
      CodeRowStays(t, first, c);
    }
  }

  lemma FamilyDies(u: State, me: CallId, c: string, e: Draw, second: seq<Action>, f: Draw)
    requires me in u.calls && u.calls[me] == CodeCheck(c) && c in u.codes && u.codes[c].used && OthersOnly(second, me)
    ensures var w := Apply(Run(Apply(u, Step(me, e)), second), Step(me, f));
            FamilyIsDead(w.rows, u.codes[c].user, u.codes[c].client)
  {
    hide Apply, Run, FamilyIsDead, Matches;
    CheckLooks(u, me, c, e);
    CallStays(Apply(u, Step(me, e)), me, second);
    var v := Run(Apply(u, Step(me, e)), second);
    SweepRevokes(v, me, f);
    FamilyMatches(Apply(v, Step(me, f)).rows, u.codes[c].user, u.codes[c].client);
  }

  lemma FamilyMatches(rows: Rows, user: string, client: string)
    requires forall id | id in rows && Matches(ByUserClient(user, client), id, rows[id]) :: rows[id].revoked
    ensures FamilyIsDead(rows, user, client)
  {
    forall id | id in rows && rows[id].user == user && rows[id].client == client ensures rows[id].revoked {
      assert Matches(ByUserClient(user, client), id, rows[id]);
    }
  }

  lemma NothingHappens(u: State, me: CallId, c: string, e: Draw, second: seq<Action>, f: Draw)
    requires me in u.calls && u.calls[me] == CodeCheck(c) && c !in u.codes && OthersOnly(second, me)
    ensures var v := Run(Apply(u, Step(me, e)), second); var w := Apply(v, Step(me, f));
            w == v && me in w.calls && w.calls[me] == Done(Refused(InvalidCode), {})
  {
    hide Apply, Run;
    CheckLooks(u, me, c, e);
    CallStays(Apply(u, Step(me, e)), me, second);
    var v := Run(Apply(u, Step(me, e)), second);
    DoneStays(v, me, f);
  }

  lemma DoneStays(v: State, me: CallId, f: Draw)
    requires me in v.calls && v.calls[me].Done?
    ensures Apply(v, Step(me, f)) == v
  {
    hide Apply, DeleteExpiredCodes, DeleteExpired, EraseExpired;
    CleanStepIs(v, me, f);
  }
}
