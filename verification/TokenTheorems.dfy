/**
 * What the token endpoint promises over every interleaving of any number of
 * calls: rotation chains, permanent death, kept pairs, replays and the reuse
 * grace.
 */
module TokenTheorems {
  import opened Wrappers
  import opened TokenStore
  import opened TokenMachine
  import opened TokenInvariant
  import opened TokenPreservation
  import opened TokenEffects
  import Authority

  /** A state some run of the service reaches from the empty database. */
  ghost predicate Reachable(s: State) {
    exists now, key, registry, actions :: s == Run(Initial(now, key, registry), actions)
  }

  lemma ReachableInv(s: State)
    requires Reachable(s)
    ensures Inv(s)
  {
    hide Inv, Run, Initial;
    var now, key, registry, actions :| s == Run(Initial(now, key, registry), actions);
    InitialOk(now, key, registry);
    RunOk(Initial(now, key, registry), actions);
  }

  lemma ReachableCall(s: State, me: CallId)
    requires Reachable(s) && me in s.calls
    ensures ChainsOk(s) && BirthsOk(s) && RowsOk(s) && CallOk(s, s.calls[me])
  {
    hide ChainsOk, BirthsOk, RowsOk, CodesOk, CallOk, Reachable;
    ReachableInv(s);
  }

  // ---------- rotation chains ----------

  /** No row is ever rotated twice. */
  lemma RotatedOnce(s: State, i: Id, j: Id)
    requires Reachable(s) && i in s.born && j in s.born
    requires s.born[i].origin.FromRotation? && s.born[i].origin == s.born[j].origin
    ensures i == j
  {
    ReachableInv(s);
    SameParent(s, i, j);
  }

  lemma SameParent(s: State, i: Id, j: Id)
    requires ChainsOk(s) && InChain(s, i) && LinkOk(s, i) && InChain(s, j) && LinkOk(s, j)
    requires s.born[i].origin.FromRotation? && s.born[i].origin == s.born[j].origin
    ensures i == j
  {
    var b, c := s.born[i], s.born[j];
    assert ChainEntryOk(s, b.chain, b.pos - 1) && ChainEntryOk(s, c.chain, c.pos - 1);
    assert b.chain == c.chain && b.pos == c.pos;
  }

  /** So no two rows in the table name the same parent. */
  lemma SiblingRows(s: State, i: Id, j: Id)
    requires Reachable(s) && i in s.rows && j in s.rows
    requires s.rows[i].rotatedFrom.Some? && s.rows[i].rotatedFrom == s.rows[j].rotatedFrom
    ensures i == j
  {
    ReachableInv(s);
    assert RowOk(s, i) && RowOk(s, j);
    RotatedOnce(s, i, j);
  }

  /** A chain has at most one row that is not revoked, and it is the last one inserted. */
  lemma OneLiveRowPerChain(s: State, i: Id, j: Id)
    requires Reachable(s) && i in s.rows && i in s.born && j in s.born && s.born[i].chain == s.born[j].chain
    requires !s.rows[i].revoked
    ensures s.born[j].pos <= s.born[i].pos
    ensures j in s.rows && !s.rows[j].revoked ==> i == j
  {
    ReachableInv(s);
    assert RowOk(s, i) && InChain(s, j);
    if j in s.rows && !s.rows[j].revoked {
      assert RowOk(s, j);
      SameTail(s, i, j);
    }
  }

  datatype ChainState = Live(tail: Id) | Dead

  function Last(c: seq<Id>): Id
    requires |c| > 0
  {
    c[|c| - 1]
  }

  /** The abstract chains: a chain is its live end, or dead. */
  function Abstract(s: State, c: nat): ChainState {
    if c < |s.chains| && |s.chains[c]| > 0 && Last(s.chains[c]) in s.rows && !s.rows[Last(s.chains[c])].revoked
    then Live(Last(s.chains[c])) else Dead
  }

  /** The abstraction is exact: a chain is Live at a row just when that row of it is not revoked. */
  lemma AbstractIsExact(s: State, id: Id)
    requires Reachable(s) && id in s.rows
    ensures id in s.born && (Abstract(s, s.born[id].chain) == Live(id) <==> !s.rows[id].revoked)
  {
    ReachableInv(s);
    assert RowOk(s, id);
    LiveIsLast(s, id);
  }

  lemma LiveIsLast(s: State, id: Id)
    requires id in s.rows && InChain(s, id) && (!s.rows[id].revoked ==> IsTail(s, id))
    ensures Abstract(s, s.born[id].chain) == Live(id) <==> !s.rows[id].revoked
  {
  }

  /** One abstract step of a chain: stay, die, or rotate to a row inserted now from the old end. */
  predicate ChainStep(s: State, t: State, a: ChainState, b: ChainState) {
    || a == b
    || (a.Live? && b.Dead?)
    || (a.Live? && b.Live? && b.tail !in s.born && b.tail in t.born && t.born[b.tail].origin == FromRotation(a.tail))
  }

  /** A chain that begins: one row, inserted now, that is no rotation. */
  predicate ChainBegins(s: State, t: State, a: ChainState) {
    a.Live? && a.tail !in s.born && a.tail in t.born && !t.born[a.tail].origin.FromRotation?
  }

  predicate ChainRefines(s: State, t: State, c: nat) {
    if c < |s.chains| then ChainStep(s, t, Abstract(s, c), Abstract(t, c)) else ChainBegins(s, t, Abstract(t, c))
  }

  /**
   * The concurrent system refines the abstract one: every action moves every
   * chain by an abstract step, no chain disappears, and at most one begins.
   */
  lemma RefinesChains(s: State, a: Action, c: nat)
    requires Reachable(s) && c < |Apply(s, a).chains|
    ensures |s.chains| <= |Apply(s, a).chains| <= |s.chains| + 1
    ensures ChainRefines(s, Apply(s, a), c)
  {
    ReachableInv(s);
    ChainMoves(s, a, c);
  }

  lemma ChainMoves(s: State, a: Action, c: nat)
    requires Inv(s) && c < |Apply(s, a).chains|
    ensures |s.chains| <= |Apply(s, a).chains| <= |s.chains| + 1
    ensures ChainRefines(s, Apply(s, a), c)
  {
    ApplyOk(s, a);
    if a.Step? && a.me in s.calls {
      StepIs(s, a.me, a.draw);
      hide Apply, Inv, ChainRefines, StepCall;
      StepChain(s, StepCall(s, a.me, s.calls[a.me], a.draw), a.me, a.draw, c);
    } else {
      OtherChain(s, a, c);
    }
  }

  lemma OtherChain(s: State, a: Action, c: nat)
    requires ChainsOk(s) && !(a.Step? && a.me in s.calls) && Later(s, Apply(s, a)) && c < |Apply(s, a).chains|
    ensures Apply(s, a).chains == s.chains && ChainRefines(s, Apply(s, a), c)
  {
    hide StepCall, ChainsOk, Later, ChainRefines;
    QuietChain(s, Apply(s, a), c);
  }

  lemma StepChain(s: State, t: State, me: CallId, d: Draw, c: nat)
    requires Inv(s) && me in s.calls && t == StepCall(s, me, s.calls[me], d) && Later(s, t) && c < |t.chains|
    ensures |s.chains| <= |t.chains| <= |s.chains| + 1 && ChainRefines(s, t, c)
  {
    var call := s.calls[me];
    StepMoves(s, me, call, d);
    hide StepCall, ChainRefines, Later, ChainsOk, RowsOk, Fresh, BornNow, BornOf, Moves;
    if SameHistories(s, t) {
      QuietChain(s, t, c);
    } else {
      InsertChain(s, t, me, call, d, c);
    }
  }

  lemma InsertChain(s: State, t: State, me: CallId, call: Call, d: Draw, c: nat)
    requires Inv(s) && me in s.calls && call == s.calls[me] && t == StepCall(s, me, call, d) && c < |t.chains|
    requires Inserts(call) && Fresh(s, d)
    requires (call.Claiming? ==> call.snap.id in s.rows && !s.rows[call.snap.id].revoked)
    ensures |s.chains| <= |t.chains| <= |s.chains| + 1 && ChainRefines(s, t, c)
  {
    hide StepGrace, StepRevoke, StepClean, ChainRefines, StepClaiming, StepGrant, Fresh;
    if call.Claiming? {
      ClaimedIsTail(s, me, call);
      ClaimingChain(s, t, me, call.snap, call.bounds, call.sealMs, d, c);
    } else {
      GrantingChain(s, t, me, call, d, c);
    }
  }

  lemma ClaimedIsTail(s: State, me: CallId, call: Call)
    requires Inv(s) && me in s.calls && s.calls[me] == call && call.Claiming?
    requires call.snap.id in s.rows && !s.rows[call.snap.id].revoked
    ensures IsTail(s, call.snap.id)
  {
    assert CallOk(s, call) && RowOk(s, call.snap.id);
  }

  lemma QuietChain(s: State, t: State, c: nat)
    requires ChainsOk(s) && Later(s, t) && t.chains == s.chains && c < |s.chains|
    ensures ChainRefines(s, t, c)
  {
    assert ChainEntryOk(s, c, |s.chains[c]| - 1);
    var tail := Last(s.chains[c]);
    if tail in t.rows { assert RowLater(s, t, tail); }
  }

  lemma ClaimingChain(s: State, t: State, me: CallId, snap: Snap, bounds: Authority.Bounds, sealMs: nat, d: Draw,
                      c: nat)
    requires ChainsOk(s) && IsTail(s, snap.id) && Fresh(s, d)
    requires snap.id in s.rows && !s.rows[snap.id].revoked && t == StepClaiming(s, me, snap, bounds, sealMs, d)
    requires c < |t.chains|
    ensures |t.chains| == |s.chains| && ChainRefines(s, t, c)
  {
    var b := ChildBirth(s, snap, bounds, d);
    ClaimingAppends(s, me, snap, bounds, sealMs, d);
    ClaimedKeys(s, snap, sealMs, d.id, b);
    assert ChainEntryOk(s, c, |s.chains[c]| - 1);
    var tail := Last(s.chains[c]);
    if c == b.chain {
      assert tail == snap.id && Last(t.chains[c]) == d.id;
    } else if tail in s.rows {
      ClaimedRow(s, snap, sealMs, d.id, b, tail);
    }
  }

  /** What a grant with a new draw inserts: one root row. */
  lemma GrantingInserts(s: State, me: CallId, c: Call, d: Draw)
    requires (c.CodeIssue? || c.Granting?) && Fresh(s, d)
    ensures var t := StepCall(s, me, c, d);
            && d.id in t.born && !t.born[d.id].origin.FromRotation? && t.born == s.born[d.id := t.born[d.id]]
            && t.chains == s.chains + [[d.id]] && t.rows == s.rows[d.id := NewRow(t.born[d.id])]
  {
  }

  lemma GrantingChain(s: State, t: State, me: CallId, call: Call, d: Draw, c: nat)
    requires ChainsOk(s) && (call.CodeIssue? || call.Granting?) && Fresh(s, d)
    requires t == StepCall(s, me, call, d) && c < |t.chains|
    ensures |t.chains| == |s.chains| + 1 && ChainRefines(s, t, c)
  {
    GrantingInserts(s, me, call, d);
    if c < |s.chains| {
      assert ChainEntryOk(s, c, |s.chains[c]| - 1);
    }
  }

  // ---------- death is permanent ----------

  /** A dead chain never lives again, whatever runs: only a fresh grant makes a live row, on a new chain. */
  lemma DeathIsPermanent(s: State, actions: seq<Action>, c: nat)
    requires Reachable(s) && c < |s.chains| && Abstract(s, c) == Dead
    ensures Abstract(Run(s, actions), c) == Dead
  {
    ReachableInv(s);
    DeadStays(s, actions, c);
  }

  lemma {:induction false} DeadStays(s: State, actions: seq<Action>, c: nat)
    requires Inv(s) && c < |s.chains| && Abstract(s, c) == Dead
    ensures Abstract(Run(s, actions), c) == Dead
    decreases |actions|
  {
    if actions != [] {
      ApplyOk(s, actions[0]);
      ChainMoves(s, actions[0], c);
      DeadStays(Apply(s, actions[0]), actions[1..], c);
    }
  }

  /** What a successful rotation leaves: the old end revoked, the new one live, the pair returned its own. */
  predicate Rotated(s: State, t: State, me: CallId, id: Id, child: Id) {
    && id in t.rows && t.rows[id].revoked
    && child !in s.born && child in t.born && t.born[child].origin == FromRotation(id)
    && child in t.rows && !t.rows[child].revoked && t.rows[child].rotatedFrom == Some(id)
    && me in t.calls && t.calls[me] == Done(Pair(t.born[child].tokens), {})
  }

  /** A claim that succeeds takes the live end of its chain; any other claim inserts no row. */
  lemma ClaimNeedsALiveChain(s: State, me: CallId, d: Draw)
    requires Reachable(s) && me in s.calls && s.calls[me].Claiming?
    ensures var id := s.calls[me].snap.id; var t := Apply(s, Step(me, d));
            && id in s.born
            && (t.born != s.born ==> Abstract(s, s.born[id].chain) == Live(id) && Rotated(s, t, me, id, d.id))
            && (t.born == s.born ==> t.rows == s.rows)
  {
    hide Apply, Reachable, Abstract, Rotated, BirthsOk, ChainsOk, RowsOk;
    ReachableCall(s, me);
    RefreshStepIs(s, me, d);
    ClaimTakesTheTail(s, me, s.calls[me], d);
  }

  lemma ClaimTakesTheTail(s: State, me: CallId, call: Call, d: Draw)
    requires Reachable(s) && ChainsOk(s) && BirthsOk(s) && RowsOk(s) && CallOk(s, call) && call.Claiming?
    ensures var id := call.snap.id; var t := StepRefresh(s, me, call, d);
            && id in s.born
            && (t.born != s.born ==> Abstract(s, s.born[id].chain) == Live(id) && Rotated(s, t, me, id, d.id))
            && (t.born == s.born ==> t.rows == s.rows)
  {
    var id := call.snap.id;
    if id in s.rows && !s.rows[id].revoked && Fresh(s, d) {
      AbstractIsExact(s, id);
      OwnParent(s, call.snap);
      ClaimRotates(s, me, call.snap, call.bounds, call.sealMs, d);
      hide Reachable, ChainsOk, BirthsOk, RowsOk, Abstract, ClaimedRows, StepFinding, StepLoaded, StepRefinding;
    }
  }

  lemma OwnParent(s: State, snap: Snap)
    requires ChainsOk(s) && BirthsOk(s) && SnapOk(s, snap)
    ensures snap.row.rotatedFrom != Some(snap.id)
  {
    assert LinkOk(s, snap.id);
    NotOwnParent(s, snap.id);
  }

  lemma ClaimRotates(s: State, me: CallId, snap: Snap, bounds: Authority.Bounds, sealMs: nat, d: Draw)
    requires snap.id in s.rows && !s.rows[snap.id].revoked && snap.row.rotatedFrom != Some(snap.id) && Fresh(s, d)
    ensures Rotated(s, StepClaiming(s, me, snap, bounds, sealMs, d), me, snap.id, d.id)
  {
    var b := ChildBirth(s, snap, bounds, d);
    ClaimedKeys(s, snap, sealMs, d.id, b);
    ClaimedParent(s, snap, sealMs, d.id, b);
  }

  /** A step that hands out no pair and inserts nothing. */
  predicate ComesToNothing(s: State, t: State, me: CallId) {
    t.born == s.born && t.rows == s.rows && me in t.calls && !(t.calls[me].Done? && t.calls[me].reply.Pair?)
  }

  lemma LateClaimFails(s: State, me: CallId, d: Draw)
    requires me in s.calls && s.calls[me].Claiming?
    requires s.calls[me].snap.id in s.rows ==> s.rows[s.calls[me].snap.id].revoked
    ensures ComesToNothing(s, Apply(s, Step(me, d)), me)
  {
    hide Apply, ClaimedRows, Fresh, StepFinding, StepLoaded, StepRefinding;
    RefreshStepIs(s, me, d);
  }

  lemma LateReplayFails(s: State, me: CallId, d: Draw)
    requires me in s.calls && s.calls[me].ChildTouch?
    requires s.calls[me].child in s.rows ==> s.rows[s.calls[me].child].revoked
    ensures ComesToNothing(s, Apply(s, Step(me, d)), me)
  {
    hide Apply, OpenReplay, StepGraceBegin, StepGraceErase, StepChildFind, StepChildCount;
    GraceStepIs(s, me, d);
  }

  /** The row a call's next statement needs to find live. */
  function Needs(c: Call): Option<Id> {
    match c
    case Claiming(snap, _, _) => Some(snap.id)
    case ChildTouch(_, _, _, _, child) => Some(child)
    case _ => None
  }

  /** What a call's next statement revokes, when it is the revoke of a family or a user. */
  function Cuts(c: Call): Option<Where> {
    match c
    case Sweeping(revoke, _, _) => Some(revoke)
    case Disconnecting(user, client) => Some(ByUserClient(user, client))
    case _ => None
  }

  /**
   * Once a family-wide or user-wide revoke commits (a disconnect included), with
   * anything run since: a rotation that needs a row the revoke selected loses its
   * claim, and a replay that needs it as its live child gets nothing, however
   * early they read it.
   */
  lemma NothingSurvivesARevoke(s: State, me: CallId, d: Draw, others: seq<Action>, late: CallId, e: Draw, id: Id)
    requires Reachable(s) && me in s.calls && Cuts(s.calls[me]).Some?
    requires id in s.rows && Matches(Cuts(s.calls[me]).value, id, s.rows[id])
    requires var u := Run(Apply(s, Step(me, d)), others); late in u.calls && Needs(u.calls[late]) == Some(id)
    ensures var u := Run(Apply(s, Step(me, d)), others); ComesToNothing(u, Apply(u, Step(late, e)), late)
  {
    hide Apply, Reachable, Matches, ComesToNothing;
    var u := Run(Apply(s, Step(me, d)), others);
    CutStaysDead(s, me, d, others, id);
    if u.calls[late].Claiming? { LateClaimFails(u, late, e); } else { LateReplayFails(u, late, e); }
  }

  lemma CutStaysDead(s: State, me: CallId, d: Draw, others: seq<Action>, id: Id)
    requires Reachable(s) && me in s.calls && Cuts(s.calls[me]).Some?
    requires id in s.rows && Matches(Cuts(s.calls[me]).value, id, s.rows[id])
    ensures var u := Run(Apply(s, Step(me, d)), others); id in u.rows ==> u.rows[id].revoked
  {
    hide Apply, Reachable, Run, Matches, Cuts;
    ReachableInv(s);
    ApplyOk(s, Step(me, d));
    CutRevokes(s, me, d, id);
    RevokedStays(Apply(s, Step(me, d)), others, id);
  }

  lemma CutRevokes(s: State, me: CallId, d: Draw, id: Id)
    requires me in s.calls && Cuts(s.calls[me]).Some? && id in s.rows
    requires Matches(Cuts(s.calls[me]).value, id, s.rows[id])
    ensures id in Apply(s, Step(me, d)).rows && Apply(s, Step(me, d)).rows[id].revoked
  {
    hide Apply, StepErasing, StepFindingOne, StepRevokingOne, StepErasingOne;
    RevokeStepIs(s, me, d);
  }

  /** A row once revoked stays revoked for as long as it is there. */
  lemma RevokedStays(s: State, actions: seq<Action>, id: Id)
    requires Inv(s) && id in s.rows && s.rows[id].revoked
    ensures id in Run(s, actions).rows ==> Run(s, actions).rows[id].revoked
  {
    RunOk(s, actions);
    assert RowOk(s, id);
    var u := Run(s, actions);
    if id in u.rows { assert RowLater(s, u, id); }
  }

  // ---------- kept pairs ----------

  /** The one rotation of `id`, into a row that has not rotated itself. */
  predicate OnlyRotation(s: State, id: Id, child: Id) {
    && child in s.born && s.born[child].origin == FromRotation(id)
    && (forall i | i in s.born :: s.born[i].origin == FromRotation(id) ==> i == child)
    && (forall i | i in s.born :: s.born[i].origin != FromRotation(child))
  }

  /**
   * A row that holds a kept pair is revoked, was rotated exactly once, holds
   * exactly the pair that rotation issued, and its child has not rotated.
   */
  lemma KeptPairs(s: State, id: Id)
    requires Reachable(s) && id in s.rows && s.rows[id].graceReplay.Some?
    ensures s.rows[id].revoked && s.rows[id].graceReplay.value.V1?
    ensures exists child ::
              && OnlyRotation(s, id, child)
              && s.rows[id].graceReplay.value.plain == SealedPair(s.born[child].tokens, id, s.born[child].at)
              && (child in s.rows ==>
                    s.rows[child].lookup == Hmac(s.rows[id].graceReplay.value.plain.tokens.refreshToken))
  {
    ReachableInv(s);
    assert RowOk(s, id) && SnapOk(s, Snap(id, s.rows[id]));
    var child := ChildOf(s, id);
    TailOnlyRotation(s, id);
    if child in s.rows { ChildLookup(s, child); }
  }

  lemma ChildLookup(s: State, child: Id)
    requires RowsOk(s) && child in s.rows && child in s.born
    ensures s.rows[child].lookup == Hmac(s.born[child].tokens.refreshToken)
  {
    assert RowOk(s, child);
  }

  lemma TailOnlyRotation(s: State, id: Id)
    requires ChainsOk(s) && BirthsOk(s) && HasChild(s, id) && IsTail(s, ChildOf(s, id))
    ensures OnlyRotation(s, id, ChildOf(s, id))
  {
    OnlyChild(s, id);
    NoChild(s, ChildOf(s, id));
  }

  lemma OnlyChild(s: State, id: Id)
    requires ChainsOk(s) && BirthsOk(s) && HasChild(s, id)
    ensures ChildOf(s, id) in s.born && s.born[ChildOf(s, id)].origin == FromRotation(id)
    ensures forall i | i in s.born :: s.born[i].origin == FromRotation(id) ==> i == ChildOf(s, id)
  {
    var b := s.born[id];
    var child := ChildOf(s, id);
    assert ChainEntryOk(s, b.chain, b.pos + 1);
    assert LinkOk(s, child);
    forall i | i in s.born && s.born[i].origin == FromRotation(id) ensures i == child {
      SameParent(s, i, child);
    }
  }

  lemma NoChild(s: State, id: Id)
    requires ChainsOk(s) && BirthsOk(s) && IsTail(s, id)
    ensures forall i | i in s.born :: s.born[i].origin != FromRotation(id)
  {
    forall i | i in s.born ensures s.born[i].origin != FromRotation(id) {
      RotationIsLater(s, i);
    }
  }

  lemma RotationIsLater(s: State, i: Id)
    requires ChainsOk(s) && BirthsOk(s) && i in s.born
    ensures s.born[i].origin.FromRotation? ==>
              InChain(s, s.born[i].origin.parent) && HasChild(s, s.born[i].origin.parent)
  {
    assert InChain(s, i) && LinkOk(s, i);
    if s.born[i].origin.FromRotation? {
      assert ChainEntryOk(s, s.born[i].chain, s.born[i].pos - 1);
    }
  }

  // ---------- replays ----------

  /** The reply is the pair of that rotation, with a lifetime that is what is left of it, to the second. */
  predicate ReplayedPair(b: Birth, at: Time, p: Tokens) {
    && p == b.tokens.(expiresIn := p.expiresIn)
    && (b.tokens.expiresIn >= 0 ==> 0 <= p.expiresIn <= b.tokens.expiresIn)
    && (p.expiresIn > 0 ==> at + p.expiresIn * 1000 < b.at + b.tokens.expiresIn * 1000 + 1000)
  }

  /** What makes a replay succeed: a live child, and both clocks within the window. */
  predicate ReplayAllowed(s: State, snap: Snap, at: Time, window: nat, child: Id) {
    && LiveAt(s.rows, child, at)
    && OnlyRotation(s, snap.id, child)
    && snap.row.revokedAt.Some? && at - snap.row.revokedAt.value <= window <= GRACE_MAX_SECONDS * 1000
    && s.born[child].at <= at < s.born[child].at + GRACE_MAX_SECONDS * 1000
  }

  /**
   * A replay (or a lost race) that succeeds inserts nothing and returns exactly
   * the pair its rotation returned, only while the child is live and has not
   * rotated, at most the window after the revocation it read and less than
   * sixty seconds after the rotation itself.
   */
  lemma ReplayReturnsTheRotationsPair(s: State, me: CallId, d: Draw)
    requires Reachable(s) && me in s.calls && s.calls[me].ChildTouch?
    requires var t := Apply(s, Step(me, d)); me in t.calls && t.calls[me].Done? && t.calls[me].reply.Pair?
    ensures var t := Apply(s, Step(me, d)); var c := s.calls[me];
            && t.born == s.born && t.rows.Keys == s.rows.Keys
            && ReplayAllowed(s, c.snap, c.at, c.window, c.child)
            && ReplayedPair(s.born[c.child], c.at, t.calls[me].reply.tokens)
  {
    hide Apply, Reachable, ChainsOk, BirthsOk, RowsOk, CallOk, ReplayAllowed, ReplayedPair, StepChildTouch;
    ReachableCall(s, me);
    GraceStepIs(s, me, d);
    var c := s.calls[me];
    TouchReplays(s, me, c.snap, c.why, c.at, c.window, c.child);
  }

  /** The snapshot holds a pair, and `at` is before the end of its window. */
  predicate KeptAt(row: Row, at: Time) {
    row.graceReplay.Some? && row.graceReplayUntil.Some? && at < row.graceReplayUntil.value
  }

  /** And it does succeed: the touch of a live child returns the pair exactly when the snapshot still holds it. */
  lemma TouchAnswersExactly(s: State, me: CallId, d: Draw)
    requires Reachable(s) && me in s.calls && s.calls[me].ChildTouch?
    requires LiveAt(s.rows, s.calls[me].child, s.calls[me].at)
    ensures var t := Apply(s, Step(me, d)); var c := s.calls[me];
            && me in t.calls
            && (if KeptAt(c.snap.row, c.at) then t.calls[me].Done? && t.calls[me].reply.Pair?
                else t.calls[me] == NoPair(c.snap, c.why))
  {
    hide Apply, Reachable, ChainsOk, BirthsOk, RowsOk, CallOk, StepChildTouch, StepGraceBegin, StepGraceErase,
         StepChildFind, StepChildCount, LiveAt, KeptAt;
    ReachableCall(s, me);
    GraceStepIs(s, me, d);
    var c := s.calls[me];
    TouchAnswers(s, me, c.snap, c.why, c.at, c.window, c.child);
  }

  lemma TouchAnswers(s: State, me: CallId, snap: Snap, why: Why, at: Time, window: nat, child: Id)
    requires CallOk(s, ChildTouch(snap, why, at, window, child)) && LiveAt(s.rows, child, at)
    ensures var t := StepChildTouch(s, me, snap, why, at, child);
            && me in t.calls
            && (if KeptAt(snap.row, at) then t.calls[me].Done? && t.calls[me].reply.Pair?
                else t.calls[me] == NoPair(snap, why))
  {
    hide OpenReplay, TouchLive, KeptAt;
    KeptOpens(s, snap, at);
  }

  lemma KeptOpens(s: State, snap: Snap, at: Time)
    requires KeptOk(s, snap.id, snap.row)
    ensures OpenReplay(s.key, snap.id, snap.row, at).Some? <==> KeptAt(snap.row, at)
  {
  }

  lemma TouchReplays(s: State, me: CallId, snap: Snap, why: Why, at: Time, window: nat, child: Id)
    requires ChainsOk(s) && BirthsOk(s) && RowsOk(s) && CallOk(s, ChildTouch(snap, why, at, window, child))
    requires var t := StepChildTouch(s, me, snap, why, at, child); t.calls[me].Done? && t.calls[me].reply.Pair?
    ensures var t := StepChildTouch(s, me, snap, why, at, child);
            && t.born == s.born && t.rows.Keys == s.rows.Keys
            && ReplayAllowed(s, snap, at, window, child)
            && ReplayedPair(s.born[child], at, t.calls[me].reply.tokens)
  {
    hide ChainsOk, BirthsOk, RowsOk, StepChildTouch, OpenReplay, LiveAt, OnlyRotation, ReplayedPair, SnapOk, HasChild,
         ChildOf;
    TouchOpens(s, me, snap, why, at, child);
    LiveChildIsOnly(s, snap.id, at);
    OpenedPair(s, snap, at);
  }

  lemma TouchOpens(s: State, me: CallId, snap: Snap, why: Why, at: Time, child: Id)
    requires var t := StepChildTouch(s, me, snap, why, at, child); t.calls[me].Done? && t.calls[me].reply.Pair?
    ensures var t := StepChildTouch(s, me, snap, why, at, child);
            var tokens := OpenReplay(s.key, snap.id, snap.row, at);
            && LiveAt(s.rows, child, at) && t.born == s.born && t.rows.Keys == s.rows.Keys
            && tokens.Some? && t.calls[me].reply.tokens == tokens.value
  {
    hide OpenReplay;
  }

  lemma LiveChildIsOnly(s: State, id: Id, at: Time)
    requires ChainsOk(s) && BirthsOk(s) && RowsOk(s) && HasChild(s, id) && LiveAt(s.rows, ChildOf(s, id), at)
    ensures OnlyRotation(s, id, ChildOf(s, id))
  {
    assert RowOk(s, ChildOf(s, id));
    TailOnlyRotation(s, id);
  }

  lemma OpenedPair(s: State, snap: Snap, at: Time)
    requires SnapOk(s, snap) && OpenReplay(s.key, snap.id, snap.row, at).Some?
    requires snap.row.graceReplay.Some? ==> s.born[ChildOf(s, snap.id)].at <= at
    ensures HasChild(s, snap.id) && ChildOf(s, snap.id) in s.born
    ensures ReplayedPair(s.born[ChildOf(s, snap.id)], at, OpenReplay(s.key, snap.id, snap.row, at).value)
    ensures s.born[ChildOf(s, snap.id)].at <= at < s.born[ChildOf(s, snap.id)].at + GRACE_MAX_SECONDS * 1000
  {
    var b := s.born[ChildOf(s, snap.id)];
    LifetimeShrinks(b.tokens.expiresIn, at - b.at);
  }

  lemma LifetimeShrinks(life: int, age: int)
    requires age >= 0
    ensures var left := Max(0, life - age / 1000);
            (life >= 0 ==> 0 <= left <= life) && (left > 0 ==> age + left * 1000 < life * 1000 + 1000)
  {
  }

  /** Opened later, the same kept pair is the same but for a lifetime that has not grown. */
  lemma LaterReplaysLiveNoLonger(key: Option<nat>, id: Id, row: Row, early: Time, late: Time)
    requires early <= late && OpenReplay(key, id, row, late).Some?
    ensures OpenReplay(key, id, row, early).Some?
    ensures var p := OpenReplay(key, id, row, early).value; var q := OpenReplay(key, id, row, late).value;
            q == p.(expiresIn := q.expiresIn) && q.expiresIn <= p.expiresIn
  {
    var issued := row.graceReplay.value.plain.issuedAt;
    assert (early - issued) / 1000 <= (late - issued) / 1000;
  }

  predicate InGrace(c: Call) {
    c.GraceBegin? || c.GraceErase? || c.ChildFind? || c.ChildTouch? || c.ChildCount?
  }

  /** No row inserted, deleted, revoked or stamped. */
  predicate RevokesNothing(s: State, t: State) {
    && t.born == s.born && t.rows.Keys == s.rows.Keys
    && forall id | id in s.rows ::
         t.rows[id].revoked == s.rows[id].revoked && t.rows[id].revokedAt == s.rows[id].revokedAt
  }

  predicate ChildHasRotated(s: State, id: Id) {
    exists child, grandchild ::
      && child in s.born && s.born[child].origin == FromRotation(id)
      && grandchild in s.born && s.born[grandchild].origin == FromRotation(child)
  }

  /** Where the decision on a replay can go. */
  predicate ReplayGoes(s: State, snap: Snap, next: Call) {
    || (InGrace(next) && next.why == Replay && next.snap == snap)
    || (next.Done? && next.reply.Pair?)
    || (next == Done(Refused(AlreadyRotated), {}) && ChildHasRotated(s, snap.id))
    || next == Sweeping(ByUserClient(snap.row.user, snap.row.client), ByUserClient(snap.row.user, snap.row.client),
                        Refused(TokenRevoked))
  }

  /** A step of the decision: it revokes nothing and goes to one of these. */
  predicate Decides(s: State, t: State, me: CallId, snap: Snap) {
    RevokesNothing(s, t) && me in t.calls && ReplayGoes(s, snap, t.calls[me])
  }

  /**
   * Deciding a replay revokes nothing. It is refused as already rotated only
   * when the child has itself rotated; every other replay that gets no pair
   * goes to the revoke of its user and client.
   */
  lemma ReplayDichotomy(s: State, me: CallId, d: Draw)
    requires Reachable(s) && me in s.calls && InGrace(s.calls[me]) && s.calls[me].why == Replay
    ensures var t := Apply(s, Step(me, d));
            RevokesNothing(s, t) && me in t.calls && ReplayGoes(s, s.calls[me].snap, t.calls[me])
  {
    hide Apply, Reachable, ChainsOk, BirthsOk, RowsOk, CallOk, RevokesNothing, ReplayGoes, StepGrace;
    ReachableCall(s, me);
    GraceStepIs(s, me, d);
    GraceDecides(s, me, s.calls[me]);
  }

  lemma GraceDecides(s: State, me: CallId, c: Call)
    requires ChainsOk(s) && BirthsOk(s) && RowsOk(s) && CallOk(s, c) && InGrace(c) && c.why == Replay
    ensures Decides(s, StepGrace(s, me, c), me, c.snap)
  {
    hide StepGraceBegin, StepGraceErase, StepChildFind, StepChildTouch, StepChildCount, Decides, ChainsOk, BirthsOk,
         RowsOk, CallOk;
    match c
    case GraceBegin(snap, _) => BeginDecides(s, me, snap);
    case ChildFind(snap, _, at, window) => FindDecides(s, me, snap, at, window);
    case GraceErase(snap, _, at) => EraseDecides(s, me, snap, at);
    case ChildTouch(snap, _, at, window, child) => TouchDecides(s, me, snap, at, window, child);
    case ChildCount(snap, _, at, child) => CountDecides(s, me, snap, at, child);
  }

  lemma BeginDecides(s: State, me: CallId, snap: Snap)
    ensures Decides(s, StepGraceBegin(s, me, snap, Replay), me, snap)
  {
    hide WithinGrace, Overdue, ChildHasRotated;
  }

  lemma FindDecides(s: State, me: CallId, snap: Snap, at: Time, window: nat)
    ensures Decides(s, StepChildFind(s, me, snap, Replay, at, window), me, snap)
  {
    hide ChildrenOf, Least, ChildHasRotated;
  }

  lemma EraseDecides(s: State, me: CallId, snap: Snap, at: Time)
    ensures Decides(s, StepGraceErase(s, me, snap, Replay, at), me, snap)
  {
    hide WithinGrace, ChildHasRotated;
  }

  lemma TouchDecides(s: State, me: CallId, snap: Snap, at: Time, window: nat, child: Id)
    ensures Decides(s, StepChildTouch(s, me, snap, Replay, at, child), me, snap)
  {
    hide OpenReplay, ChildHasRotated;
  }

  lemma CountDecides(s: State, me: CallId, snap: Snap, at: Time, child: Id)
    requires ChainsOk(s) && BirthsOk(s) && RowsOk(s) && CallOk(s, ChildCount(snap, Replay, at, child))
    ensures Decides(s, StepChildCount(s, me, snap, Replay, child), me, snap)
  {
    hide ChainsOk, BirthsOk, RowsOk, CallOk, ChildHasRotated, ChildrenOf;
    if ChildrenOf(s.rows, child, snap.row.user, snap.row.client) != {} {
      SomeGrandchild(s, snap, at, child);
    }
  }

  lemma SomeGrandchild(s: State, snap: Snap, at: Time, child: Id)
    requires ChainsOk(s) && BirthsOk(s) && RowsOk(s) && CallOk(s, ChildCount(snap, Replay, at, child))
    requires ChildrenOf(s.rows, child, snap.row.user, snap.row.client) != {}
    ensures ChildHasRotated(s, snap.id)
  {
    hide ChainsOk, BirthsOk, RowOk, SnapOk, ChildHasRotated;
    var g :| g in ChildrenOf(s.rows, child, snap.row.user, snap.row.client);
    GrandchildRotated(s, snap, child, g);
  }

  lemma GrandchildRotated(s: State, snap: Snap, child: Id, g: Id)
    requires ChainsOk(s) && BirthsOk(s) && HasChild(s, snap.id) && child == ChildOf(s, snap.id)
    requires g in s.rows && RowOk(s, g) && s.rows[g].rotatedFrom == Some(child)
    ensures ChildHasRotated(s, snap.id)
  {
    OnlyChild(s, snap.id);
    assert s.born[g].origin == FromRotation(child);
  }

  // ---------- what the grace is for ----------

  /** Where the call stands once its steps with `first` and `second` between them are taken. */
  function ThreeSteps(s: State, me: CallId, d: Draw, first: seq<Action>, e: Draw, second: seq<Action>): State {
    Run(Apply(Run(Apply(s, Step(me, d)), first), Step(me, e)), second)
  }

  /**
   * A racer gets its pair: a call that asks for the grace while its snapshot
   * still holds the pair, within the window, is given it, whatever the others
   * do meanwhile, as long as the child is live when it is looked at. So it
   * never comes to the family revoke.
   */
  lemma RacerGetsThePair(s: State, me: CallId, d: Draw, first: seq<Action>, e: Draw, second: seq<Action>, f: Draw,
                         child: Id)
    requires Reachable(s) && me in s.calls && s.calls[me].GraceBegin?
    requires KeptAt(s.calls[me].snap.row, s.now) && WithinGrace(s.calls[me].snap.row, s.windowMs, s.now)
    requires child in s.born && s.born[child].origin == FromRotation(s.calls[me].snap.id)
    requires OthersOnly(first, me) && OthersOnly(second, me)
    requires LiveAt(ThreeSteps(s, me, d, first, e, second).rows, child, s.now)
    ensures var x := Apply(ThreeSteps(s, me, d, first, e, second), Step(me, f));
            me in x.calls && x.calls[me].Done? && x.calls[me].reply.Pair?
  {
    hide Inv, Apply, Run, Reachable, KeptAt, WithinGrace, LiveAt;
    ReachableInv(s);
    var snap, why, at, window := s.calls[me].snap, s.calls[me].why, s.now, s.windowMs;
    var t := Apply(s, Step(me, d));
    RacerBegins(s, me, d);
    ApplyOk(s, Step(me, d));
    RunOk(t, first);
    CallStays(t, me, first);
    var u := Run(t, first);
    LaterTransitive(s, t, u);
    ApplyOk(u, Step(me, e));
    var v := Apply(u, Step(me, e));
    RunOk(v, second);
    var w := Run(v, second);
    LaterTransitive(u, v, w);
    ChildWasThere(s, u, w, child, at);
    RacerFindsItsChild(u, me, e, snap, why, at, window, child);
    CallStays(v, me, second);
    RacerIsAnswered(w, me, f, snap, why, at, window, child);
  }

  lemma RacerBegins(s: State, me: CallId, d: Draw)
    requires Inv(s) && me in s.calls && s.calls[me].GraceBegin?
    requires KeptAt(s.calls[me].snap.row, s.now) && WithinGrace(s.calls[me].snap.row, s.windowMs, s.now)
    ensures Apply(s, Step(me, d)) == Goto(s, me, ChildFind(s.calls[me].snap, s.calls[me].why, s.now, s.windowMs))
  {
    hide Inv, Apply, StepGraceErase, StepChildFind, StepChildTouch, StepChildCount;
    KeptNeedsAKey(s, me);
    GraceStepIs(s, me, d);
  }

  lemma KeptNeedsAKey(s: State, me: CallId)
    requires Inv(s) && me in s.calls && s.calls[me].GraceBegin? && s.calls[me].snap.row.graceReplay.Some?
    ensures s.key.Some?
  {
    assert CallOk(s, s.calls[me]);
  }

  lemma ChildWasThere(s: State, u: State, w: State, child: Id, at: Time)
    requires Later(s, u) && Later(u, w) && child in s.born && LiveAt(w.rows, child, at)
    ensures child in u.rows && child in u.born && u.born[child] == s.born[child]
  {
    assert RowLater(u, w, child);
  }

  lemma RacerFindsItsChild(u: State, me: CallId, e: Draw, snap: Snap, why: Why, at: Time, window: nat, child: Id)
    requires Inv(u) && me in u.calls && u.calls[me] == ChildFind(snap, why, at, window)
    requires child in u.rows && child in u.born && u.born[child].origin == FromRotation(snap.id)
    ensures Apply(u, Step(me, e)) == Goto(u, me, ChildTouch(snap, why, at, window, child))
  {
    hide Inv, Apply, ChildrenOf, StepChildFind, StepGraceBegin, StepGraceErase, StepChildTouch, StepChildCount;
    GraceStepIs(u, me, e);
    ChildIsFound(u, me, child);
    FindGoesOn(u, me, snap, why, at, window, child);
  }

  lemma FindGoesOn(u: State, me: CallId, snap: Snap, why: Why, at: Time, window: nat, child: Id)
    requires ChildrenOf(u.rows, snap.id, snap.row.user, snap.row.client) == {child}
    ensures StepChildFind(u, me, snap, why, at, window) == Goto(u, me, ChildTouch(snap, why, at, window, child))
  {
    hide ChildrenOf, NoPair;
  }

  lemma ChildIsFound(u: State, me: CallId, child: Id)
    requires Inv(u) && me in u.calls && u.calls[me].ChildFind? && child in u.rows && child in u.born
    requires u.born[child].origin == FromRotation(u.calls[me].snap.id)
    ensures ChildrenOf(u.rows, u.calls[me].snap.id, u.calls[me].snap.row.user, u.calls[me].snap.row.client) == {child}
  {
    var snap := u.calls[me].snap;
    SnapOfCall(u, me, child);
    hide Inv, SnapOk, RowOk, LinkOk, InChain, HasChild, ChildOf, ChildrenOf;
    ChildrenAreTheChild(u, snap.id, snap.row.user, snap.row.client);
    ChildMatches(u, snap, child);
  }

  lemma SnapOfCall(u: State, me: CallId, child: Id)
    requires Inv(u) && me in u.calls && u.calls[me].ChildFind? && child in u.rows && child in u.born
    ensures SnapOk(u, u.calls[me].snap) && InChain(u, u.calls[me].snap.id)
    ensures RowOk(u, child) && InChain(u, child) && LinkOk(u, child)
  {
    hide LinkOk, RowOk, KeptOk, Agrees, GraceOpen, CodesOk, ChainsOk;
    assert CallOk(u, u.calls[me]);
  }

  lemma ChildMatches(u: State, snap: Snap, child: Id)
    requires SnapOk(u, snap) && child in u.rows && RowOk(u, child) && InChain(u, child) && LinkOk(u, child)
    requires u.born[child].origin == FromRotation(snap.id)
    ensures child in ChildrenOf(u.rows, snap.id, snap.row.user, snap.row.client)
  {
  }

  lemma RacerIsJudged(w: State, me: CallId)
    requires Inv(w) && me in w.calls
    ensures CallOk(w, w.calls[me])
  {
    hide CallOk, ChainsOk, BirthsOk, RowsOk, CodesOk;
  }

  lemma RacerIsAnswered(w: State, me: CallId, f: Draw, snap: Snap, why: Why, at: Time, window: nat, child: Id)
    requires Inv(w) && me in w.calls && w.calls[me] == ChildTouch(snap, why, at, window, child)
    requires LiveAt(w.rows, child, at) && KeptAt(snap.row, at)
    ensures var x := Apply(w, Step(me, f)); me in x.calls && x.calls[me].Done? && x.calls[me].reply.Pair?
  {
    hide Inv, Apply, KeptAt, LiveAt, StepChildTouch, StepGraceBegin, StepGraceErase, StepChildFind, StepChildCount,
         ChainsOk, BirthsOk, RowsOk, CodesOk, SnapOk, CallOk;
    RacerIsJudged(w, me);
    GraceStepIs(w, me, f);
    TouchAnswers(w, me, snap, why, at, window, child);
  }

  // ---------- authority along a chain ----------

  predicate CarriesNoMore(a: Birth, b: Birth) {
    && b.user == a.user && b.client == a.client && b.resource == a.resource
    && Authority.ScopeSet(b.scope) <= Authority.ScopeSet(a.scope) && a.at <= b.at
  }

  /** Down a rotation chain the grant stays the same user, client and resource, and scopes only go. */
  lemma ChainNarrows(s: State, c: nat, i: nat, j: nat)
    requires Reachable(s) && c < |s.chains| && i <= j < |s.chains[c]|
    ensures s.chains[c][i] in s.born && s.chains[c][j] in s.born
    ensures CarriesNoMore(s.born[s.chains[c][i]], s.born[s.chains[c][j]])
  {
    ReachableInv(s);
    LinksNarrow(s, c, i, j);
  }

  lemma {:induction false} LinksNarrow(s: State, c: nat, i: nat, j: nat)
    requires ChainsOk(s) && BirthsOk(s) && c < |s.chains| && i <= j < |s.chains[c]|
    ensures s.chains[c][i] in s.born && s.chains[c][j] in s.born
    ensures CarriesNoMore(s.born[s.chains[c][i]], s.born[s.chains[c][j]])
    decreases j
  {
    hide ChainsOk, BirthsOk, ChainEntryOk, Authority.ScopeSet;
    EntryIsBorn(s, c, j);
    if i < j {
      LinksNarrow(s, c, i, j - 1);
      OneLinkNarrows(s, c, j);
    }
  }

  lemma EntryIsBorn(s: State, c: nat, i: nat)
    requires ChainsOk(s) && c < |s.chains| && i < |s.chains[c]|
    ensures s.chains[c][i] in s.born
  {
    assert ChainEntryOk(s, c, i);
  }

  lemma OneLinkNarrows(s: State, c: nat, j: nat)
    requires ChainsOk(s) && BirthsOk(s) && c < |s.chains| && 0 < j < |s.chains[c]|
    ensures s.chains[c][j - 1] in s.born && s.chains[c][j] in s.born
    ensures CarriesNoMore(s.born[s.chains[c][j - 1]], s.born[s.chains[c][j]])
  {
    assert ChainEntryOk(s, c, j - 1) && ChainEntryOk(s, c, j);
    assert LinkOk(s, s.chains[c][j]);
  }
}
