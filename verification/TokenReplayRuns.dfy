/** A run in which a session revoke of a token rotated long ago spares its replay the family revoke. */
module TokenReplayRuns {
  import opened Wrappers
  import opened TokenStore
  import opened TokenMachine
  import opened TokenInvariant
  import opened TokenPreservation
  import opened TokenEffects
  import opened TokenTheorems
  import opened TokenRevokes
  import opened TokenReplays
  import Codes = TokenCodes
  import Authority

  const FIRST := Draw(1, "access", "one", "id", 3600)
  const SECOND := Draw(2, "access", "two", "id", 3600)
  const THIRD := Draw(3, "access", "three", "id", 3600)

  lemma ReachNext(s: State, a: Action)
    requires Reachable(s)
    ensures Reachable(Apply(s, a))
  {
    hide Apply;
    var now, key, registry, actions :| s == Run(Initial(now, key, registry), actions);
    Codes.RunConcat(Initial(now, key, registry), actions, [a]);
    Codes.RunOne(s, a);
    assert Apply(s, a) == Run(Initial(now, key, registry), actions + [a]);
  }

  // ---------- one rotation, nothing in between ----------

  /** The row is live, of the client, unexpired, bound to no resource, and the only one with the token. */
  predicate CanRotate(s: State, me: CallId, id: Id, token: string, d: Draw) {
    && me !in s.calls && id in s.rows && WithLookup(s.rows, Hmac(token)) == {id} && Fresh(s, d)
    && s.rows[id].client == "client" && !s.rows[id].revoked && s.now <= s.rows[id].expiresAt
  }

  function RotatedState(s: State, me: CallId, id: Id, d: Draw): State
    requires id in s.rows
  {
    StepClaiming(s, me, Snap(id, s.rows[id]), Authority.Bounds(s.rows[id].scope, s.rows[id].resource), s.windowMs, d)
  }

  lemma LeastOfOne(id: Id)
    ensures Least({id}) == id
  {
  }

  lemma FindsRow(s: State, me: CallId, id: Id, token: string, d: Draw)
    requires me in s.calls && s.calls[me] == Finding(token, "client", None)
    requires id in s.rows && WithLookup(s.rows, Hmac(token)) == {id} && s.rows[id].client == "client"
    ensures var snap := Snap(id, s.rows[id]);
            Apply(s, Step(me, d))
            == Goto(s, me, if s.rows[id].revoked then GraceBegin(snap, Replay) else Loaded(snap, None))
  {
    hide Apply, WithLookup, StepLoaded, StepClaiming, StepRefinding, Least;
    LeastOfOne(id);
    RefreshStepIs(s, me, d);
  }

  lemma LoadedClaims(s: State, me: CallId, snap: Snap, d: Draw)
    requires me in s.calls && s.calls[me] == Loaded(snap, None) && s.now <= snap.row.expiresAt
    ensures Apply(s, Step(me, d))
         == Goto(s, me, Claiming(snap, Authority.Bounds(snap.row.scope, snap.row.resource), s.windowMs))
  {
    hide Apply, StepFinding, StepClaiming, StepRefinding;
    RefreshStepIs(s, me, d);
  }

  function ClaimOf(s: State, id: Id): Call
    requires id in s.rows
  {
    Claiming(Snap(id, s.rows[id]), Authority.Bounds(s.rows[id].scope, s.rows[id].resource), s.windowMs)
  }

  lemma ClaimsRow(s: State, me: CallId, id: Id, d: Draw)
    requires id in s.rows && !s.rows[id].revoked && Fresh(s, d)
    ensures Apply(Goto(s, me, ClaimOf(s, id)), Step(me, d)) == RotatedState(s, me, id, d)
  {
    hide Apply, StepFinding, StepLoaded, StepRefinding;
    var claim := Goto(s, me, ClaimOf(s, id));
    RefreshStepIs(claim, me, d);
    ClaimsAlike(s, claim, me, id, d);
  }

  /** The claim reads nothing of the other calls. */
  lemma ClaimsAlike(s: State, claim: State, me: CallId, id: Id, d: Draw)
    requires id in s.rows && !s.rows[id].revoked && Fresh(s, d) && claim == Goto(s, me, ClaimOf(s, id))
    ensures var snap := Snap(id, s.rows[id]); var bounds := Authority.Bounds(s.rows[id].scope, s.rows[id].resource);
            StepClaiming(claim, me, snap, bounds, s.windowMs, d) == StepClaiming(s, me, snap, bounds, s.windowMs, d)
  {
    var snap := Snap(id, s.rows[id]);
    var bounds := Authority.Bounds(s.rows[id].scope, s.rows[id].resource);
    var b := ChildBirth(s, snap, bounds, d);
    assert ChildBirth(claim, snap, bounds, d) == b;
    assert ClaimedRows(claim, snap, s.windowMs, d.id, b) == ClaimedRows(s, snap, s.windowMs, d.id, b);
    hide ClaimedRows, ChildBirth, Extend;
    assert claim.calls[me := Done(Pair(b.tokens), {})] == s.calls[me := Done(Pair(b.tokens), {})];
  }

  /** A refresh that is not disturbed rotates its row. */
  lemma RotationReaches(s: State, me: CallId, id: Id, token: string, d: Draw)
    requires Reachable(s) && CanRotate(s, me, id, token, d)
    ensures Reachable(RotatedState(s, me, id, d))
  {
    hide Apply, Reachable, WithLookup, RotatedState, Fresh, Goto;
    var snap := Snap(id, s.rows[id]);
    FindingReaches(s, me, id, token, d);
    GotoKeeps(s, me, Loaded(snap, None));
    LoadedClaims(Goto(s, me, Loaded(snap, None)), me, snap, d);
    ReachNext(Goto(s, me, Loaded(snap, None)), Step(me, d));
    GotoAgain(s, me, Loaded(snap, None), ClaimOf(s, id));
    ClaimsRow(s, me, id, d);
    ReachNext(Goto(s, me, ClaimOf(s, id)), Step(me, d));
  }

  lemma GotoKeeps(s: State, me: CallId, c: Call)
    ensures var t := Goto(s, me, c); me in t.calls && t.calls[me] == c && t == s.(calls := t.calls)
  {
  }

  /** A refresh finds its row. */
  lemma FindingReaches(s: State, me: CallId, id: Id, token: string, d: Draw)
    requires Reachable(s) && me !in s.calls
    requires id in s.rows && WithLookup(s.rows, Hmac(token)) == {id} && s.rows[id].client == "client"
    ensures var snap := Snap(id, s.rows[id]);
            Reachable(Goto(s, me, if s.rows[id].revoked then GraceBegin(snap, Replay) else Loaded(snap, None)))
  {
    hide Apply, Reachable, WithLookup, Goto;
    var begin := Goto(s, me, Finding(token, "client", None));
    GotoKeeps(s, me, Finding(token, "client", None));
    StartsRefresh(s, me, token);
    ReachNext(s, Start(me, Refresh(token, "client", None)));
    FindsRow(begin, me, id, token, d);
    var snap := Snap(id, s.rows[id]);
    var next := if s.rows[id].revoked then GraceBegin(snap, Replay) else Loaded(snap, None);
    GotoAgain(s, me, Finding(token, "client", None), next);
    ReachNext(begin, Step(me, d));
  }

  lemma StartsRefresh(s: State, me: CallId, token: string)
    requires me !in s.calls
    ensures Apply(s, Start(me, Refresh(token, "client", None))) == Goto(s, me, Finding(token, "client", None))
  {
    hide StepCall;
  }

  predicate SameRow(a: Row, b: Row) {
    && a.lookup == b.lookup && a.user == b.user && a.client == b.client && a.resource == b.resource
    && a.scope == b.scope
    && a.expiresAt == b.expiresAt && a.rotatedFrom == b.rotatedFrom
  }

  /** What a rotation leaves of a row that was there. */
  lemma ClaimedLeaves(s: State, snap: Snap, sealMs: nat, id: Id, b: Birth, o: Id)
    requires snap.id in s.rows && o in s.rows && o != id && snap.row.rotatedFrom != Some(snap.id)
    ensures var rows := ClaimedRows(s, snap, sealMs, id, b);
            && o in rows && SameRow(rows[o], s.rows[o]) && (rows[o].revoked <==> o == snap.id || s.rows[o].revoked)
            && (snap.row.rotatedFrom == Some(o) ==> rows[o].graceReplay.None?)
  {
  }

  lemma RotationLeaves(s: State, me: CallId, id: Id, d: Draw, o: Id)
    requires id in s.rows && !s.rows[id].revoked && Fresh(s, d) && o in s.rows && s.rows[id].rotatedFrom != Some(id)
    ensures var t := RotatedState(s, me, id, d);
            && o in t.rows && SameRow(t.rows[o], s.rows[o]) && (t.rows[o].revoked <==> o == id || s.rows[o].revoked)
            && (s.rows[id].rotatedFrom == Some(o) ==> t.rows[o].graceReplay.None?)
  {
    hide ClaimedRows, Extend, SameRow;
    ClaimedLeaves(s, Snap(id, s.rows[id]), s.windowMs, d.id, ChildBirth(s, Snap(id, s.rows[id]),
      Authority.Bounds(s.rows[id].scope, s.rows[id].resource), d), o);
  }

  lemma RotationAdds(s: State, me: CallId, id: Id, d: Draw)
    requires id in s.rows && !s.rows[id].revoked && Fresh(s, d)
    ensures var t := RotatedState(s, me, id, d);
            && t.now == s.now && t.key == s.key && t.windowMs == s.windowMs && t.calls.Keys == s.calls.Keys + {me}
            && t.rows.Keys == s.rows.Keys + {d.id} && t.born.Keys == s.born.Keys + {d.id}
            && forall o | o in s.born :: t.born[o] == s.born[o]
  {
    hide ClaimedRows, Extend;
    ClaimAddsRow(s, Snap(id, s.rows[id]), s.windowMs, d.id, ChildBirth(s, Snap(id, s.rows[id]),
      Authority.Bounds(s.rows[id].scope, s.rows[id].resource), d));
  }

  lemma ClaimAddsRow(s: State, snap: Snap, sealMs: nat, id: Id, b: Birth)
    requires snap.id in s.rows
    ensures ClaimedRows(s, snap, sealMs, id, b).Keys == s.rows.Keys + {id}
  {
  }

  lemma RotationBears(s: State, me: CallId, id: Id, d: Draw)
    requires id in s.rows && !s.rows[id].revoked && Fresh(s, d)
    ensures var t := RotatedState(s, me, id, d); var r := s.rows[id];
            && d.id in t.rows && !t.rows[d.id].revoked && t.rows[d.id].lookup == Hmac(d.refreshToken)
            && t.rows[d.id].user == r.user && t.rows[d.id].client == r.client && t.rows[d.id].rotatedFrom == Some(id)
            && t.rows[d.id].expiresAt == s.now + REFRESH_LIFE_MS
            && d.id in t.born && t.born[d.id].origin == FromRotation(id) && t.born[d.id].at == s.now
            && t.born[d.id].tokens.refreshToken == d.refreshToken
  {
    hide ClaimedRows, Extend;
    NewRowIsThere(s, Snap(id, s.rows[id]), s.windowMs, d.id, ChildBirth(s, Snap(id, s.rows[id]),
      Authority.Bounds(s.rows[id].scope, s.rows[id].resource), d));
  }

  lemma NewRowIsThere(s: State, snap: Snap, sealMs: nat, id: Id, b: Birth)
    requires snap.id in s.rows
    ensures id in ClaimedRows(s, snap, sealMs, id, b) && ClaimedRows(s, snap, sealMs, id, b)[id] == NewRow(b)
  {
  }

  // ---------- the token, its child and its grandchild ----------

  function Root(): Birth {
    Birth(FromDevice, 0, 0, "user", "client", "openid", None, 0, Issue(FIRST, "openid"))
  }

  function Start0(): State {
    Initial(0, Some(0), [])
  }

  function Granted(): State {
    Goto(InsertRoot(Start0(), 1, Root()), 0, Done(Pair(Root().tokens), {}))
  }

  lemma GrantReaches()
    ensures Reachable(Granted())
  {
    assert Run(Initial(0, Some(0), []), []) == Start0();
    assert Reachable(Start0());
    hide Apply, Reachable, InsertRoot;
    var begin := Goto(Start0(), 0, Granting("user", "client", "openid", None));
    StartsGrant();
    ReachNext(Start0(), Start(0, DeviceGrant("user", "client", "openid", None)));
    Grants();
    ReachNext(begin, Step(0, FIRST));
  }

  lemma StartsGrant()
    ensures Apply(Start0(), Start(0, DeviceGrant("user", "client", "openid", None)))
         == Goto(Start0(), 0, Granting("user", "client", "openid", None))
  {
    hide StepCall;
  }

  lemma Grants()
    ensures Apply(Goto(Start0(), 0, Granting("user", "client", "openid", None)), Step(0, FIRST)) == Granted()
  {
    hide Apply, StepCodeClaim, StepCodeRead, StepCodeCheck;
    GrantStepIs(Goto(Start0(), 0, Granting("user", "client", "openid", None)), 0, FIRST);
  }

  function Token(i: nat): string {
    if i == 1 then "one" else if i == 2 then "two" else "three"
  }

  function DrawOf(i: nat): Draw {
    if i == 1 then FIRST else if i == 2 then SECOND else THIRD
  }

  function UpTo(n: nat): set<nat> {
    if n <= 1 then {1} else if n == 2 then {1, 2} else {1, 2, 3}
  }

  /** The i-th row of a line of n: dead unless it is the last. */
  predicate InLine(s: State, i: nat, n: nat) {
    && i in s.rows && i in s.born
    && s.rows[i].user == "user" && s.rows[i].client == "client" && s.rows[i].expiresAt == REFRESH_LIFE_MS
    && s.rows[i].revoked == (i < n) && s.rows[i].lookup == Hmac(Token(i))
    && s.rows[i].rotatedFrom == (if i == 1 then None else Some(i - 1))
    && s.born[i].tokens.refreshToken == Token(i) && s.born[i].at == 0
    && (i > 1 ==> s.born[i].origin == FromRotation(i - 1))
  }

  /** The rows by now: each the child of the one before. */
  predicate LineUp(s: State, n: nat) {
    && s.now == 0 && s.key == Some(0) && s.windowMs == 30000 && (forall o | o in s.calls :: o < n)
    && s.rows.Keys == UpTo(n) && s.born.Keys == UpTo(n)
    && InLine(s, 1, n) && (n >= 2 ==> InLine(s, 2, n)) && (n >= 3 ==> InLine(s, 3, n) && s.rows[1].graceReplay.None?)
  }

  lemma FirstInLine()
    ensures LineUp(Granted(), 1)
  {
  }

  lemma LastCanRotate(s: State, n: nat)
    requires 1 <= n <= 2 && LineUp(s, n)
    ensures CanRotate(s, n, n, Token(n), DrawOf(n + 1))
  {
    assert WithLookup(s.rows, Hmac(Token(n))) == {n};
  }

  lemma StaysInLine(s: State, n: nat, i: nat)
    requires 1 <= n <= 2 && LineUp(s, n) && 1 <= i <= n
    ensures InLine(RotatedState(s, n, n, DrawOf(n + 1)), i, n + 1)
  {
    hide RotatedState, WithLookup;
    LastCanRotate(s, n);
    RotationLeaves(s, n, n, DrawOf(n + 1), i);
    RotationAdds(s, n, n, DrawOf(n + 1));
  }

  lemma JoinsLine(s: State, n: nat)
    requires 1 <= n <= 2 && LineUp(s, n)
    ensures InLine(RotatedState(s, n, n, DrawOf(n + 1)), n + 1, n + 1)
  {
    hide RotatedState, WithLookup;
    LastCanRotate(s, n);
    RotationBears(s, n, n, DrawOf(n + 1));
  }

  lemma NextInLine(s: State, n: nat)
    requires 1 <= n <= 2 && LineUp(s, n) && Reachable(s)
    ensures var t := RotatedState(s, n, n, DrawOf(n + 1)); LineUp(t, n + 1) && Reachable(t)
  {
    hide RotatedState, WithLookup, Reachable, Fresh;
    LastCanRotate(s, n);
    RotationReaches(s, n, n, Token(n), DrawOf(n + 1));
    RotationAdds(s, n, n, DrawOf(n + 1));
    StaysInLine(s, n, 1);
    if n == 2 { StaysInLine(s, n, 2); RotationLeaves(s, n, n, DrawOf(n + 1), 1); }
    JoinsLine(s, n);
  }

  /** A token, its child and its grandchild, all of one moment. */
  lemma ThreeInLine() returns (s: State)
    ensures LineUp(s, 3) && Reachable(s)
  {
    hide Reachable, LineUp, RotatedState;
    GrantReaches();
    FirstInLine();
    NextInLine(Granted(), 1);
    InLineRows(RotatedState(Granted(), 1, 1, SECOND), 2);
    NextInLine(RotatedState(Granted(), 1, 1, SECOND), 2);
    s := RotatedState(RotatedState(Granted(), 1, 1, SECOND), 2, 2, THIRD);
  }

  lemma InLineRows(s: State, n: nat)
    requires LineUp(s, n) && 1 <= n <= 3
    ensures n in s.rows
  {
  }

  // ---------- the session revoke and the replay ----------

  const LATER: nat := 61000

  function Stamped(s: State): State
    requires 1 in s.rows
  {
    Goto(s, 3, ErasingOne(EraseAround(BySession(1, "user"), Around(1, s.rows[1]))))
      .(rows := RevokeWhere(s.rows, BySession(1, "user"), false, s.now))
  }

  /** A session revoke of the first row, as far as its revoking statement. */
  lemma StampReaches(s: State)
    requires Reachable(s) && 3 !in s.calls && 1 in s.rows && s.rows[1].user == "user"
    ensures Reachable(Stamped(s))
  {
    hide Inv, Apply, Reachable, RevokeWhere, Around, EraseAround, Goto, Matching;
    var find := BySession(1, "user");
    var notes := RevokingOne(find, Some(Around(1, s.rows[1])));
    StartsRevoke(s);
    GotoKeeps(s, 3, FindingOne(find));
    var begin := Goto(s, 3, FindingOne(find));
    ReachNext(s, Start(3, RevokeSession(1, "user")));
    ReachableInv(begin);
    FindOneGoesOn(begin, 3, FIRST, find, 1);
    ReachNext(begin, Step(3, FIRST));
    GotoAgain(s, 3, FindingOne(find), notes);
    GotoKeeps(s, 3, notes);
    RevokeOneGoesOn(Goto(s, 3, notes), 3, FIRST, find, Around(1, s.rows[1]));
    ReachNext(Goto(s, 3, notes), Step(3, FIRST));
    GotoAgain(s, 3, notes, ErasingOne(EraseAround(find, Around(1, s.rows[1]))));
  }

  lemma StartsRevoke(s: State)
    requires 3 !in s.calls
    ensures Apply(s, Start(3, RevokeSession(1, "user"))) == Goto(s, 3, FindingOne(BySession(1, "user")))
  {
    hide StepCall;
  }

  lemma TickIs(s: State, ms: nat)
    ensures Apply(s, Tick(ms)) == s.(now := s.now + ms)
  {
    hide StepCall;
  }

  /** The replay about to be judged, a second after the longest window of the rotation and at once after the stamp. */
  function Judged(s: State): State
    requires 1 in s.rows
  {
    var t := Stamped(s.(now := LATER));
    Goto(t, 4, GraceBegin(Snap(1, t.rows[1]), Replay))
  }

  lemma JudgedIsReachable(s: State)
    requires Reachable(s) && LineUp(s, 3)
    ensures Reachable(Judged(s))
  {
    var t := s.(now := LATER);
    var u := Stamped(t);
    assert WithLookup(u.rows, Hmac("one")) == {1};
    assert u.rows[1].revoked && u.rows[1].client == "client" && 4 !in u.calls;
    hide Apply, Reachable, Stamped, WithLookup;
    TickIs(s, LATER);
    ReachNext(s, Tick(LATER));
    StampReaches(t);
    FindingReaches(u, 4, 1, "one", FIRST);
  }

  lemma JudgedWithinWindow(s: State)
    requires LineUp(s, 3)
    ensures var u := Judged(s); var snap := Snap(1, u.rows[1]);
            && u.calls[4] == GraceBegin(snap, Replay) && u.key.Some? && u.now == LATER
            && WithinGrace(snap.row, u.windowMs, u.now) && !Overdue(snap.row, u.now)
            && ChildMovedOn(u.rows, snap, 2, u.now)
  {
    var u := Judged(s);
    assert 3 in ChildrenOf(u.rows, 2, "user", "client");
    assert ChildrenOf(u.rows, 1, "user", "client") == {2};
  }

  /**
   * The case arises: a token rotated longer ago than any window, whose row a
   * session revoke has just stamped again, is replayed; it is refused as already
   * rotated and no row is revoked.
   */
  lemma StampedReplayIsSpared()
    ensures exists u, me, d, child ::
              && Reachable(u) && me in u.calls && u.calls[me].GraceBegin? && u.calls[me].why == Replay
              && child in u.born && u.born[child].origin == FromRotation(u.calls[me].snap.id)
              && u.now - u.born[child].at > GRACE_MAX_SECONDS * 1000
              && FourSteps(u, me, d) == Goto(u, me, Done(Refused(AlreadyRotated), {}))
  {
    var s := ThreeInLine();
    JudgedIsReachable(s);
    JudgedWithinWindow(s);
    var u := Judged(s);
    assert 2 in u.born && u.born[2].origin == FromRotation(1) && u.born[2].at == 0;
    hide Reachable, FourSteps, Judged, ChildMovedOn, WithinGrace, Overdue;
    ReplayWithinWindowIsSpared(u, 4, FIRST, 2);
    assert u.calls[4].snap.id == 1;
  }
}
