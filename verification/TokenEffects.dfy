/** What single steps of the token machine touch, call by call. */
module TokenEffects {
  import opened Wrappers
  import opened TokenStore
  import opened TokenMachine
  import Authority

  predicate SameHistories(s: State, t: State) {
    t.born == s.born && t.chains == s.chains
  }

  predicate Inserts(c: Call) {
    c.Claiming? || c.CodeIssue? || c.Granting?
  }

  /** Nothing but the call itself moves, and the clock and the settings never do. */
  predicate Moves(s: State, t: State, me: CallId) {
    && me in t.calls && t.calls == s.calls[me := t.calls[me]]
    && t.now == s.now && t.registry == s.registry && t.minted == s.minted
  }

  predicate BornNow(s: State, t: State, id: Id) {
    id in t.born && t.born == s.born[id := t.born[id]]
  }

  /** What the call that inserts a row makes of it. */
  predicate BornOf(c: Call, b: Birth) {
    match c
    case Claiming(snap, _, _) => b.origin == FromRotation(snap.id)
    case CodeIssue(code, row) => b.origin == FromCode(code) && b.user == row.user && b.client == row.client
    case Granting(_, _, _, _) => b.origin == FromDevice
    case _ => false
  }

  /** Such a step that inserts no row. */
  predicate Quiet(s: State, t: State, me: CallId) {
    Moves(s, t, me) && SameHistories(s, t)
  }

  /** A call of the code exchange past its claim, with its tokens still to come. */
  predicate PastClaim(c: Call) {
    c.CodeRead? || c.CodeIssue?
  }

  /** A step that has nothing to do with codes. */
  predicate OffCodes(s: State, t: State, me: CallId) {
    t.codes == s.codes && me in t.calls && !PastClaim(t.calls[me])
  }

  // ---------- the refresh grant ----------

  lemma GotoQuiet(s: State, me: CallId, c: Call)
    requires !PastClaim(c)
    ensures Quiet(s, Goto(s, me, c), me) && OffCodes(s, Goto(s, me, c), me)
  {
  }

  lemma FindingQuiet(s: State, me: CallId, token: string, client: string, bound: Option<Authority.Client>)
    ensures var t := StepFinding(s, me, token, client, bound); Quiet(s, t, me) && OffCodes(s, t, me)
  {
    hide Least, Goto, Quiet, OffCodes;
    var found := WithLookup(s.rows, Hmac(token));
    GotoQuiet(s, me, Done(Refused(InvalidToken), {}));
    if found != {} {
      var id := Least(found);
      GotoQuiet(s, me, GraceBegin(Snap(id, s.rows[id]), Replay));
      GotoQuiet(s, me, Loaded(Snap(id, s.rows[id]), bound));
    }
  }

  lemma LoadedQuiet(s: State, me: CallId, snap: Snap, bound: Option<Authority.Client>)
    ensures var t := StepLoaded(s, me, snap, bound); Quiet(s, t, me) && OffCodes(s, t, me)
  {
    hide Authority.RefreshBounds;
  }

  lemma RefindingQuiet(s: State, me: CallId, id: Id)
    ensures var t := StepRefinding(s, me, id); Quiet(s, t, me) && OffCodes(s, t, me)
  {
  }

  /** A claim inserts only when it finds its row live and its draw is new. */
  lemma ClaimingMoves(s: State, me: CallId, snap: Snap, bounds: Authority.Bounds, sealMs: nat, d: Draw)
    ensures var t := StepClaiming(s, me, snap, bounds, sealMs, d);
            && Moves(s, t, me) && OffCodes(s, t, me)
            && (snap.id !in s.rows || s.rows[snap.id].revoked || !Fresh(s, d) ==> SameHistories(s, t))
            && (SameHistories(s, t) || (BornNow(s, t, d.id) && t.born[d.id].origin == FromRotation(snap.id)))
  {
    hide ClaimedRows, Fresh, Extend;
  }

  lemma RefreshMoves(s: State, me: CallId, c: Call, d: Draw)
    requires IsRefresh(c)
    ensures var t := StepRefresh(s, me, c, d);
            && Moves(s, t, me) && OffCodes(s, t, me)
            && (SameHistories(s, t)
                || (c.Claiming? && Fresh(s, d) && c.snap.id in s.rows && !s.rows[c.snap.id].revoked
                    && BornNow(s, t, d.id) && BornOf(c, t.born[d.id])))
  {
    hide StepFinding, StepLoaded, StepRefinding, StepClaiming, Fresh, Moves, OffCodes;
    match c
    case Finding(token, client, bound) => FindingQuiet(s, me, token, client, bound);
    case Loaded(snap, bound) => LoadedQuiet(s, me, snap, bound);
    case Claiming(snap, bounds, sealMs) => ClaimingMoves(s, me, snap, bounds, sealMs, d);
    case Refinding(id) => RefindingQuiet(s, me, id);
  }

  lemma GraceBeginQuiet(s: State, me: CallId, snap: Snap, why: Why)
    ensures var t := StepGraceBegin(s, me, snap, why); Quiet(s, t, me) && OffCodes(s, t, me)
  {
    hide AfterErase, Overdue;
  }

  lemma GraceEraseQuiet(s: State, me: CallId, snap: Snap, why: Why, at: Time)
    ensures var t := StepGraceErase(s, me, snap, why, at); Quiet(s, t, me) && OffCodes(s, t, me)
  {
    hide AfterErase, EraseWhere;
  }

  lemma ChildFindQuiet(s: State, me: CallId, snap: Snap, why: Why, at: Time, window: nat)
    ensures var t := StepChildFind(s, me, snap, why, at, window); Quiet(s, t, me) && OffCodes(s, t, me)
  {
    hide ChildrenOf, NoPair, Least;
  }

  lemma ChildTouchQuiet(s: State, me: CallId, snap: Snap, why: Why, at: Time, child: Id)
    ensures var t := StepChildTouch(s, me, snap, why, at, child); Quiet(s, t, me) && OffCodes(s, t, me)
  {
    hide LiveAt, OpenReplay, NoPair, TouchLive;
  }

  lemma ChildCountQuiet(s: State, me: CallId, snap: Snap, why: Why, child: Id)
    ensures var t := StepChildCount(s, me, snap, why, child); Quiet(s, t, me) && OffCodes(s, t, me)
  {
    hide ChildrenOf, NoPair;
  }

  lemma GraceQuiet(s: State, me: CallId, c: Call)
    requires IsGrace(c)
    ensures var t := StepGrace(s, me, c); Quiet(s, t, me) && OffCodes(s, t, me)
  {
    hide StepGraceBegin, StepGraceErase, StepChildFind, StepChildTouch, StepChildCount, Quiet, OffCodes;
    match c
    case GraceBegin(snap, why) => GraceBeginQuiet(s, me, snap, why);
    case GraceErase(snap, why, at) => GraceEraseQuiet(s, me, snap, why, at);
    case ChildFind(snap, why, at, window) => ChildFindQuiet(s, me, snap, why, at, window);
    case ChildTouch(snap, why, at, window, child) => ChildTouchQuiet(s, me, snap, why, at, child);
    case ChildCount(snap, why, at, child) => ChildCountQuiet(s, me, snap, why, child);
  }

  // ---------- the revoke paths ----------

  lemma RevokeQuiet(s: State, me: CallId, c: Call)
    requires IsRevoke(c)
    ensures var t := StepRevoke(s, me, c); Quiet(s, t, me) && OffCodes(s, t, me)
  {
    hide Matching, RevokeWhere, EraseWhere, Around, Least;
  }

  // ---------- the grants ----------

  /** A code's row loses or keeps its place; of its columns only `used` moves, and only up. */
  predicate CodesLater(before: map<string, Code>, after: map<string, Code>) {
    forall c | c in after :: c in before && CodeLater(before[c], after[c])
  }

  predicate CodeLater(a: Code, b: Code) {
    b == a.(used := b.used) && (a.used ==> b.used)
  }

  /** An exchange claims an unused code, or goes on to look at why it could not. */
  lemma ClaimingCodeMoves(s: State, me: CallId, i: CodeInput)
    ensures var t := StepCodeClaim(s, me, i);
            && Quiet(s, t, me) && CodesLater(s.codes, t.codes) && t.codes.Keys == s.codes.Keys
            && (if Claimable(s.codes, i, s.now) then t.calls[me] == CodeRead(i) else t.calls[me] == CodeCheck(i.code))
  {
    hide CodesLater, Claimable;
    UsedLater(s.codes, i.code);
    SameLater(s.codes);
    ClaimableIsThere(s.codes, i, s.now);
  }

  lemma ClaimableIsThere(codes: map<string, Code>, i: CodeInput, now: Time)
    ensures Claimable(codes, i, now) ==> i.code in codes && !codes[i.code].used
  {
  }

  lemma UsedLater(codes: map<string, Code>, code: string)
    ensures code in codes ==> CodesLater(codes, codes[code := codes[code].(used := true)])
  {
  }

  lemma SameLater(codes: map<string, Code>)
    ensures CodesLater(codes, codes)
  {
  }

  /** The code as the claim left it lets the exchange go on. */
  predicate Passes(code: Code, i: CodeInput, registry: seq<string>) {
    PkceOk(code, i.verifier) && AudienceOk(code, i, registry)
  }

  lemma ReadingCodeMoves(s: State, me: CallId, i: CodeInput)
    ensures var t := StepCodeRead(s, me, i);
            && Quiet(s, t, me) && t.codes == s.codes
            && if i.code in s.codes && Passes(s.codes[i.code], i, s.registry)
               then t.calls[me] == CodeIssue(i.code, s.codes[i.code]) else !PastClaim(t.calls[me])
  {
    hide PkceOk, AudienceOk;
  }

  lemma CheckingCodeMoves(s: State, me: CallId, code: string)
    ensures var t := StepCodeCheck(s, me, code); Quiet(s, t, me) && OffCodes(s, t, me)
  {
  }

  lemma GrantMoves(s: State, me: CallId, origin: Origin, user: string, client: string, scope: string,
                   resource: Option<Authority.Uri>, d: Draw)
    ensures var t := StepGrant(s, me, origin, user, client, scope, resource, d);
            && Moves(s, t, me) && OffCodes(s, t, me)
            && if !Fresh(s, d) then SameHistories(s, t)
               else BornNow(s, t, d.id)
                    && t.born[d.id].origin == origin && t.born[d.id].user == user && t.born[d.id].client == client
  {
    hide Fresh;
  }

  /** Where a step of a grant goes: past the claim only by claiming, and on to issue only by passing. */
  predicate GoesTo(s: State, c: Call, next: Call) {
    match c
    case CodeClaim(i) => if Claimable(s.codes, i, s.now) then next == CodeRead(i) else !PastClaim(next)
    case CodeRead(i) =>
      if i.code in s.codes && Passes(s.codes[i.code], i, s.registry)
      then next == CodeIssue(i.code, s.codes[i.code]) else !PastClaim(next)
    case _ => !PastClaim(next)
  }

  lemma GrantingMoves(s: State, me: CallId, c: Call, d: Draw)
    requires IsGrant(c)
    ensures var t := StepGranting(s, me, c, d);
            && Moves(s, t, me) && (c.CodeClaim? || t.codes == s.codes) && CodesLater(s.codes, t.codes)
            && t.codes.Keys == s.codes.Keys && GoesTo(s, c, t.calls[me])
            && (SameHistories(s, t) || (Inserts(c) && Fresh(s, d) && BornNow(s, t, d.id) && BornOf(c, t.born[d.id])))
  {
    hide StepCodeClaim, StepCodeRead, StepCodeCheck, StepGrant, Fresh, CodesLater, Claimable, Passes;
    SameLater(s.codes);
    match c
    case CodeClaim(input) => ClaimingCodeMoves(s, me, input);
    case CodeRead(input) => ReadingCodeMoves(s, me, input);
    case CodeIssue(code, row) => GrantMoves(s, me, FromCode(code), row.user, row.client, row.scope, row.resource, d);
    case CodeCheck(code) => CheckingCodeMoves(s, me, code);
    case Granting(user, client, scope, resource) => GrantMoves(s, me, FromDevice, user, client, scope, resource, d);
  }

  // ---------- the cleanup ----------

  lemma CleanQuiet(s: State, me: CallId, c: Call)
    requires IsClean(c) && me in s.calls && s.calls[me] == c
    ensures var t := StepClean(s, me, c);
            && Quiet(s, t, me) && !PastClaim(t.calls[me]) && CodesLater(s.codes, t.codes)
            && t.codes == if c.CleanCodes? then DeleteExpiredCodes(s.codes, c.at) else s.codes
  {
    hide DeleteExpired, EraseExpired;
    SameLater(s.codes);
    assert s.calls == s.calls[me := c];
  }

  // ---------- all steps ----------

  lemma StepMoves(s: State, me: CallId, c: Call, d: Draw)
    requires me in s.calls && s.calls[me] == c
    ensures var t := StepCall(s, me, c, d);
            && Moves(s, t, me)
            && (SameHistories(s, t)
                || (Inserts(c) && Fresh(s, d) && (c.Claiming? ==> c.snap.id in s.rows && !s.rows[c.snap.id].revoked)
                    && BornNow(s, t, d.id) && BornOf(c, t.born[d.id])))
  {
    hide StepRefresh, StepGrace, StepRevoke, StepGranting, StepClean, Fresh, Moves, CodesLater, OffCodes, BornNow,
         BornOf, GoesTo;
    if IsRefresh(c) {
      RefreshMoves(s, me, c, d);
    } else if IsGrace(c) {
      GraceQuiet(s, me, c);
    } else if IsRevoke(c) {
      RevokeQuiet(s, me, c);
    } else if IsGrant(c) {
      GrantingMoves(s, me, c, d);
    } else {
      CleanQuiet(s, me, c);
    }
  }

  /**
   * Codes are claimed by an exchange and deleted by the cleanup; no other step touches them, and only
   * an exchange goes past a claim.
   */
  lemma StepCodes(s: State, me: CallId, c: Call, d: Draw)
    requires me in s.calls && s.calls[me] == c
    ensures var t := StepCall(s, me, c, d);
            && me in t.calls && CodesLater(s.codes, t.codes) && GoesTo(s, c, t.calls[me])
            && (!c.CleanCodes? ==> t.codes.Keys == s.codes.Keys)
            && (c.CleanCodes? ==> t.codes == DeleteExpiredCodes(s.codes, c.at))
  {
    hide StepRefresh, StepGrace, StepRevoke, StepGranting, StepClean, Fresh, SameHistories, CodesLater, BornNow, BornOf,
         DeleteExpiredCodes;
    SameLater(s.codes);
    if IsRefresh(c) {
      RefreshMoves(s, me, c, d);
    } else if IsGrace(c) {
      GraceQuiet(s, me, c);
    } else if IsRevoke(c) {
      RevokeQuiet(s, me, c);
    } else if IsGrant(c) {
      GrantingMoves(s, me, c, d);
    } else {
      CleanQuiet(s, me, c);
    }
  }

  // ---------- a step by its kind ----------

  lemma RefreshStepIs(s: State, me: CallId, d: Draw)
    requires me in s.calls && IsRefresh(s.calls[me])
    ensures Apply(s, Step(me, d)) == StepRefresh(s, me, s.calls[me], d)
  {
    hide StepRefresh, StepGrace, StepRevoke, StepGranting, StepClean;
  }

  lemma GraceStepIs(s: State, me: CallId, d: Draw)
    requires me in s.calls && IsGrace(s.calls[me])
    ensures Apply(s, Step(me, d)) == StepGrace(s, me, s.calls[me])
  {
    hide StepRefresh, StepGrace, StepRevoke, StepGranting, StepClean;
  }

  lemma RevokeStepIs(s: State, me: CallId, d: Draw)
    requires me in s.calls && IsRevoke(s.calls[me])
    ensures Apply(s, Step(me, d)) == StepRevoke(s, me, s.calls[me])
  {
    hide StepRefresh, StepGrace, StepRevoke, StepGranting, StepClean;
  }

  lemma GrantStepIs(s: State, me: CallId, d: Draw)
    requires me in s.calls && IsGrant(s.calls[me])
    ensures Apply(s, Step(me, d)) == StepGranting(s, me, s.calls[me], d)
  {
    hide StepRefresh, StepGrace, StepRevoke, StepGranting, StepClean;
  }

  lemma CleanStepIs(s: State, me: CallId, d: Draw)
    requires me in s.calls && IsClean(s.calls[me])
    ensures Apply(s, Step(me, d)) == StepClean(s, me, s.calls[me])
  {
    hide StepRefresh, StepGrace, StepRevoke, StepGranting, StepClean;
  }

  lemma StepIs(s: State, me: CallId, d: Draw)
    requires me in s.calls
    ensures Apply(s, Step(me, d)) == StepCall(s, me, s.calls[me], d)
  {
    hide StepCall;
  }

  // ---------- runs ----------

  lemma ApplyEffect(s: State, a: Action, me: CallId)
    requires me in s.calls && !(a.Step? && a.me == me)
    ensures me in Apply(s, a).calls && Apply(s, a).calls[me] == s.calls[me]
  {
    hide StepCall;
    if a.Step? && a.me in s.calls { StepMoves(s, a.me, s.calls[a.me], a.draw); }
  }

  /** Actions of others, in between two steps of a call. */
  predicate OthersOnly(actions: seq<Action>, me: CallId) {
    forall a | a in actions :: !(a.Step? && a.me == me)
  }

  /** A call is moved by its own steps only. */
  lemma {:induction false} CallStays(s: State, me: CallId, others: seq<Action>)
    requires me in s.calls && OthersOnly(others, me)
    ensures me in Run(s, others).calls && Run(s, others).calls[me] == s.calls[me]
    decreases |others|
  {
    hide Apply;
    if others != [] {
      ApplyEffect(s, others[0], me);
      CallStays(Apply(s, others[0]), me, others[1..]);
    }
  }
}
