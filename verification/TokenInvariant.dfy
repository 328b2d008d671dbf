/**
 * The inductive invariant of the token machine and the relation every step
 * keeps to the state before it. `Later` is what a call with a stale snapshot
 * may rely on: whatever others do, rows only die, revoked rows never gain a
 * kept pair, chains only grow at their end.
 */
module TokenInvariant {
  import opened Wrappers
  import opened TokenStore
  import opened TokenMachine
  import Authority

  // ---------- chains ----------

  predicate InChain(s: State, id: Id) {
    && id in s.born
    && s.born[id].chain < |s.chains|
    && s.born[id].pos < |s.chains[s.born[id].chain]|
    && s.chains[s.born[id].chain][s.born[id].pos] == id
  }

  /** The last row ever inserted in its chain. */
  predicate IsTail(s: State, id: Id) {
    InChain(s, id) && s.born[id].pos == |s.chains[s.born[id].chain]| - 1
  }

  predicate HasChild(s: State, id: Id) {
    InChain(s, id) && s.born[id].pos < |s.chains[s.born[id].chain]| - 1
  }

  /** The one row inserted by rotating `id`. */
  function ChildOf(s: State, id: Id): Id
    requires HasChild(s, id)
  {
    s.chains[s.born[id].chain][s.born[id].pos + 1]
  }

  ghost predicate ChainEntryOk(s: State, c: nat, k: nat)
    requires c < |s.chains| && k < |s.chains[c]|
  {
    var id := s.chains[c][k];
    id in s.born && s.born[id].chain == c && s.born[id].pos == k
  }

  ghost predicate ChainsOk(s: State) {
    && (forall c | 0 <= c < |s.chains| :: |s.chains[c]| > 0)
    && (forall c, k | 0 <= c < |s.chains| && 0 <= k < |s.chains[c]| :: ChainEntryOk(s, c, k))
    && (forall id | id in s.born :: InChain(s, id))
  }

  /** A child carries its parent's grant and no more. */
  predicate Inherits(child: Birth, parent: Birth) {
    && child.user == parent.user && child.client == parent.client && child.resource == parent.resource
    && Authority.ScopeSet(child.scope) <= Authority.ScopeSet(parent.scope)
    && parent.at <= child.at
  }

  ghost predicate LinkOk(s: State, id: Id)
    requires InChain(s, id)
  {
    var b := s.born[id];
    && b.at <= s.now
    && (b.origin.FromRotation? <==> b.pos > 0)
    && (b.pos > 0 ==>
          && b.origin.parent == s.chains[b.chain][b.pos - 1]
          && InChain(s, b.origin.parent)
          && Inherits(b, s.born[b.origin.parent]))
    && (b.origin.FromCode? ==> b.origin.code in s.holder)
  }

  ghost predicate BirthsOk(s: State) {
    && (forall id | id in s.born :: InChain(s, id) && LinkOk(s, id))
    && (forall i, j | i in s.born && j in s.born && i != j ::
          s.born[i].tokens.refreshToken != s.born[j].tokens.refreshToken)
    && (forall i, j | i in s.born && j in s.born && i != j && s.born[i].origin.FromCode? ::
          s.born[i].origin != s.born[j].origin)
  }

  // ---------- rows and snapshots ----------

  /** The columns that never change are those the row was inserted with. */
  predicate Agrees(row: Row, b: Birth) {
    && row.lookup == Hmac(b.tokens.refreshToken)
    && row.user == b.user && row.client == b.client && row.scope == b.scope && row.resource == b.resource
    && row.expiresAt == b.at + REFRESH_LIFE_MS
    && row.rotatedFrom == b.Parent()
  }

  /**
   * A kept pair, on a row or on a stale snapshot of it: sealed under our key
   * for this row at the rotation, holding exactly the pair that rotation
   * issued, for at most the sixty seconds that follow it.
   */
  ghost predicate KeptOk(s: State, id: Id, row: Row) {
    && row.graceReplay.Some? == row.graceReplayUntil.Some?
    && (row.graceReplay.Some? ==>
          && row.revoked && s.key.Some? && HasChild(s, id) && ChildOf(s, id) in s.born
          && var child := s.born[ChildOf(s, id)];
             && row.graceReplay.value == V1(s.key.value, SealedPair(child.tokens, id, child.at))
             && row.graceReplayUntil.value <= child.at + GRACE_MAX_SECONDS * 1000)
  }

  ghost predicate SnapOk(s: State, snap: Snap) {
    && InChain(s, snap.id)
    && Agrees(snap.row, s.born[snap.id])
    && KeptOk(s, snap.id, snap.row)
    && (snap.row.revoked ==> snap.row.revokedAt.Some? && snap.row.revokedAt.value <= s.now)
    && (snap.row.revoked && snap.id in s.rows ==> s.rows[snap.id].revoked)
  }

  ghost predicate RowOk(s: State, id: Id)
    requires id in s.rows
  {
    && SnapOk(s, Snap(id, s.rows[id]))
    && (!s.rows[id].revoked ==> IsTail(s, id))
    && (s.rows[id].graceReplay.Some? && HasChild(s, id) ==> IsTail(s, ChildOf(s, id)))
  }

  ghost predicate RowsOk(s: State) {
    forall id | id in s.rows :: RowOk(s, id)
  }

  // ---------- calls ----------

  /** Rows a revoke has cut stay dead. */
  predicate AllDead(s: State, ids: set<Id>) {
    forall id | id in ids :: id in s.born && (id in s.rows ==> s.rows[id].revoked)
  }

  predicate AllBare(s: State, ids: set<Id>) {
    forall id | id in ids && id in s.rows :: s.rows[id].graceReplay.None?
  }

  /** The erasing statement reaches every row the revoking one selects. */
  predicate Covers(erase: Where, revoke: Where) {
    match revoke
    case ByUserClient(u, c) => erase == ByUserClient(u, c) || erase == ByUser(u)
    case ByUser(u) => erase == ByUser(u)
    case ByUserExcept(u, _) => erase == ByUser(u)
    case _ => false
  }

  predicate SelectsBorn(s: State, w: Where, id: Id)
    requires id in s.born
  {
    var b := s.born[id];
    Selects(w, id, b.user, b.client, Hmac(b.tokens.refreshToken))
  }

  ghost predicate GraceOk(s: State, snap: Snap, at: Time) {
    && SnapOk(s, snap) && snap.row.revoked && at <= s.now
    && (snap.row.graceReplay.Some? ==> s.born[ChildOf(s, snap.id)].at <= at)
  }

  ghost predicate CallOk(s: State, c: Call) {
    match c
    case Loaded(snap, _) => SnapOk(s, snap) && !snap.row.revoked
    case Claiming(snap, bounds, sealMs) =>
      && SnapOk(s, snap) && !snap.row.revoked && sealMs <= GRACE_MAX_SECONDS * 1000
      && bounds.resource == snap.row.resource
      && Authority.ScopeSet(bounds.scope) <= Authority.ScopeSet(snap.row.scope)
    case Refinding(id) => id in s.born && (id in s.rows ==> s.rows[id].revoked)
    case GraceBegin(snap, _) =>
      SnapOk(s, snap) && snap.row.revoked && (snap.row.graceReplay.Some? ==> s.born[ChildOf(s, snap.id)].at <= s.now)
    case GraceErase(snap, _, at) => GraceOk(s, snap, at)
    case ChildFind(snap, _, at, window) => GraceOk(s, snap, at) && GraceOpen(s, snap, at, window)
    case ChildTouch(snap, _, at, window, child) =>
      GraceOk(s, snap, at) && GraceOpen(s, snap, at, window) && HasChild(s, snap.id) && child == ChildOf(s, snap.id)
    case ChildCount(snap, _, at, child) =>
      GraceOk(s, snap, at) && HasChild(s, snap.id) && child == ChildOf(s, snap.id)
    case Sweeping(revoke, erase, _) => Covers(erase, revoke)
    case Erasing(revoke, erase, _, cut) =>
      && Covers(erase, revoke) && AllDead(s, cut)
      && (forall id | id in cut :: id in s.born && SelectsBorn(s, erase, id))
    case Done(_, cut) => AllDead(s, cut) && AllBare(s, cut)
    case CleanCodes(at) => at <= s.now
    case CleanTokens(at) => at <= s.now
    case CleanKept(at) => at <= s.now
    case _ => true
  }

  /** The window was open when the call asked. */
  predicate GraceOpen(s: State, snap: Snap, at: Time, window: nat) {
    s.key.Some? && snap.row.revokedAt.Some? && snap.row.expiresAt > at
    && at - snap.row.revokedAt.value <= window <= GRACE_MAX_SECONDS * 1000
  }

  ghost predicate CallsOk(s: State) {
    forall me | me in s.calls :: CallOk(s, s.calls[me])
  }

  // ---------- codes ----------

  predicate Unspent(s: State, code: string) {
    forall id | id in s.born :: s.born[id].origin != FromCode(code)
  }

  /** A call past its claim holds its code alone, and has not yielded tokens yet. */
  predicate HoldsCode(s: State, me: CallId, code: string) {
    code in s.holder && s.holder[code] == me && Unspent(s, code)
  }

  predicate CodeCallOk(s: State, me: CallId, c: Call) {
    match c
    case CodeRead(i) => HoldsCode(s, me, i.code)
    case CodeIssue(code, _) => HoldsCode(s, me, code)
    case _ => true
  }

  ghost predicate CodesOk(s: State) {
    && (forall c | c in s.codes :: c in s.minted)
    && (forall c | c in s.holder :: c in s.minted)
    && (forall c | c in s.codes && !s.codes[c].used :: c !in s.holder)
    && (forall me | me in s.calls :: CodeCallOk(s, me, s.calls[me]))
  }

  ghost predicate Inv(s: State) {
    && s.windowMs <= GRACE_MAX_SECONDS * 1000
    && ChainsOk(s) && BirthsOk(s) && RowsOk(s) && CallsOk(s) && CodesOk(s)
  }

  // ---------- what every step keeps ----------

  ghost predicate Later(s: State, t: State) {
    && s.now <= t.now && t.key == s.key
    && (forall id | id in s.born :: id in t.born && t.born[id] == s.born[id])
    && |s.chains| <= |t.chains| && (forall c | 0 <= c < |s.chains| :: s.chains[c] <= t.chains[c])
    && (forall id | id in t.rows && id in s.born :: RowLater(s, t, id))
    && s.minted <= t.minted
    && (forall c | c in t.codes && c in s.minted :: c in s.codes && (s.codes[c].used ==> t.codes[c].used))
  }

  predicate RowLater(s: State, t: State, id: Id)
    requires id in t.rows
  {
    && id in s.rows
    && (s.rows[id].revoked ==> t.rows[id].revoked)
    && (s.rows[id].revoked && t.rows[id].graceReplay.Some? ==> t.rows[id].graceReplay == s.rows[id].graceReplay)
  }

  lemma LaterTransitive(s: State, t: State, u: State)
    requires Later(s, t) && Later(t, u)
    ensures Later(s, u)
  {
    forall id | id in u.rows && id in s.born ensures RowLater(s, u, id) {
      assert id in t.born;
      assert RowLater(t, u, id);
      assert RowLater(s, t, id);
    }
  }

  lemma ChainStable(s: State, t: State, id: Id)
    requires Later(s, t) && InChain(s, id)
    ensures InChain(t, id)
    ensures HasChild(s, id) ==> HasChild(t, id) && ChildOf(t, id) == ChildOf(s, id)
  {
    var c := s.born[id].chain;
    assert s.chains[c] <= t.chains[c];
  }

  lemma SnapStable(s: State, t: State, snap: Snap)
    requires Later(s, t) && SnapOk(s, snap)
    ensures SnapOk(t, snap)
  {
    ChainStable(s, t, snap.id);
  }

  lemma GraceStable(s: State, t: State, snap: Snap)
    requires Later(s, t) && SnapOk(s, snap)
    ensures SnapOk(t, snap)
    ensures HasChild(s, snap.id) ==> HasChild(t, snap.id) && ChildOf(t, snap.id) == ChildOf(s, snap.id)
    ensures snap.row.graceReplay.Some? ==> t.born[ChildOf(t, snap.id)] == s.born[ChildOf(s, snap.id)]
  {
    SnapStable(s, t, snap);
    ChainStable(s, t, snap.id);
  }

  lemma GraceCallStable(s: State, t: State, c: Call)
    requires c.GraceBegin? || c.GraceErase? || c.ChildFind? || c.ChildTouch? || c.ChildCount?
    requires Later(s, t) && CallOk(s, c)
    ensures CallOk(t, c)
  {
    GraceStable(s, t, c.snap);
  }

  lemma SnapCallStable(s: State, t: State, c: Call)
    requires c.Loaded? || c.Claiming?
    requires Later(s, t) && CallOk(s, c)
    ensures CallOk(t, c)
  {
    SnapStable(s, t, c.snap);
  }

  lemma CutCallStable(s: State, t: State, c: Call)
    requires c.Erasing? || c.Done?
    requires Later(s, t) && CallOk(s, c)
    ensures CallOk(t, c)
  {
    DeadStable(s, t, c.cut);
  }

  /** What a call in flight holds true stays true whatever the others do. */
  lemma CallStable(s: State, t: State, c: Call)
    requires Later(s, t) && CallOk(s, c)
    ensures CallOk(t, c)
  {
    if c.GraceBegin? || c.GraceErase? || c.ChildFind? || c.ChildTouch? || c.ChildCount? {
      GraceCallStable(s, t, c);
    } else if c.Loaded? || c.Claiming? {
      SnapCallStable(s, t, c);
    } else if c.Erasing? || c.Done? {
      CutCallStable(s, t, c);
    } else if c.Refinding? {
      assert c.id in t.rows ==> RowLater(s, t, c.id);
    }
  }

  lemma DeadStable(s: State, t: State, ids: set<Id>)
    requires Later(s, t) && AllDead(s, ids)
    ensures AllDead(t, ids)
    ensures AllBare(s, ids) ==> AllBare(t, ids)
  {
    forall id | id in ids && id in t.rows ensures RowLater(s, t, id) {}
  }
}
