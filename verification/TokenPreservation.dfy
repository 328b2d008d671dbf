/** Every step of the token machine keeps the invariant and moves to a later state. */
module TokenPreservation {
  import opened Wrappers
  import opened TokenStore
  import opened TokenMachine
  import opened TokenInvariant
  import Authority

  /** A step keeps the invariant and only moves the state on. */
  ghost predicate Sound(s: State, t: State) {
    Inv(t) && Later(s, t)
  }

  // ---------- steps that insert no row ----------

  /** What a statement other than an insert does to a row: revoke it, touch it, erase its pair. */
  predicate RowMove(r: Row, q: Row, now: Time) {
    && q == r.(revoked := q.revoked, revokedAt := q.revokedAt, graceReplay := q.graceReplay,
               graceReplayUntil := q.graceReplayUntil, lastUsedAt := q.lastUsedAt)
    && (r.revoked ==> q.revoked)
    && (q.revoked ==> q.revokedAt.Some? && q.revokedAt.value <= now)
    && ((q.graceReplay == r.graceReplay && q.graceReplayUntil == r.graceReplayUntil)
        || (q.graceReplay.None? && q.graceReplayUntil.None?))
  }

  ghost predicate SameHistory(s: State, t: State) {
    && s.now <= t.now && t.key == s.key && t.born == s.born && t.chains == s.chains
    && (forall c | c in s.holder :: c in t.holder)
    && t.windowMs <= GRACE_MAX_SECONDS * 1000
  }

  predicate RowsMove(before: Rows, after: Rows, now: Time) {
    forall id | id in after :: id in before && RowMove(before[id], after[id], now)
  }

  ghost predicate CodesMove(s: State, t: State) {
    && s.minted <= t.minted
    && (forall c | c in t.codes && c in s.minted :: c in s.codes && (s.codes[c].used ==> t.codes[c].used))
  }

  lemma QuietRow(s: State, t: State, id: Id)
    requires Inv(s) && SameHistory(s, t) && id in t.rows && id in s.rows && RowMove(s.rows[id], t.rows[id], t.now)
    ensures RowOk(t, id) && RowLater(s, t, id)
  {
    var r, q := s.rows[id], t.rows[id];
    assert RowOk(s, id) && SnapOk(s, Snap(id, r));
    assert InChain(t, id) && Agrees(q, t.born[id]);
    QuietKept(s, t, id, r, q);
    if !q.revoked { assert IsTail(s, id); assert IsTail(t, id); }
    if q.graceReplay.Some? && HasChild(t, id) { assert IsTail(s, ChildOf(s, id)); assert IsTail(t, ChildOf(t, id)); }
  }

  lemma QuietKept(s: State, t: State, id: Id, r: Row, q: Row)
    requires SameHistory(s, t) && InChain(s, id) && KeptOk(s, id, r) && RowMove(r, q, t.now)
    ensures KeptOk(t, id, q)
  {
    if q.graceReplay.Some? {
      assert HasChild(s, id) && HasChild(t, id) && ChildOf(t, id) == ChildOf(s, id);
    }
  }

  lemma QuietLater(s: State, t: State)
    requires Inv(s) && SameHistory(s, t) && RowsMove(s.rows, t.rows, t.now) && CodesMove(s, t)
    ensures Later(s, t) && ChainsOk(t) && BirthsOk(t) && RowsOk(t)
  {
    forall id | id in t.rows ensures RowOk(t, id) && RowLater(s, t, id) { QuietRow(s, t, id); }
    forall c, k | 0 <= c < |t.chains| && 0 <= k < |t.chains[c]| ensures ChainEntryOk(t, c, k) {
      assert ChainEntryOk(s, c, k);
    }
    forall id | id in t.born ensures InChain(t, id) && LinkOk(t, id) { assert InChain(s, id) && LinkOk(s, id); }
  }

  /** The calls of the others are as they were; only `me` may have moved. */
  ghost predicate OthersSame(s: State, t: State, me: CallId) {
    forall o | o in t.calls && o != me :: o in s.calls && t.calls[o] == s.calls[o]
  }

  lemma CallsKept(s: State, t: State, me: CallId)
    requires Inv(s) && Later(s, t) && OthersSame(s, t, me)
    requires me in t.calls ==> CallOk(t, t.calls[me])
    ensures CallsOk(t)
  {
    forall o | o in t.calls ensures CallOk(t, t.calls[o]) {
      if o != me { CallStable(s, t, s.calls[o]); }
    }
  }

  /** A step that leaves codes and births alone keeps the code half of the invariant. */
  lemma CodesQuiet(s: State, t: State, me: CallId)
    requires Inv(s) && t.born == s.born && t.holder == s.holder && t.minted == s.minted
    requires forall c | c in t.codes :: c in s.codes && t.codes[c] == s.codes[c]
    requires OthersSame(s, t, me) && (me in t.calls ==> CodeCallOk(t, me, t.calls[me]))
    ensures CodesOk(t) && CodesMove(s, t)
  {
    forall o | o in t.calls ensures CodeCallOk(t, o, t.calls[o]) {
      if o != me { assert CodeCallOk(s, o, s.calls[o]); }
    }
  }

  /** The common shape: `me` moves to `c` while the rows move quietly to `rows`. */
  lemma QuietStep(s: State, me: CallId, c: Call, rows: Rows)
    requires Inv(s) && RowsMove(s.rows, rows, s.now)
    requires CallOk(Goto(s, me, c).(rows := rows), c)
    requires CodeCallOk(s, me, c)
    ensures Sound(s, Goto(s, me, c).(rows := rows))
  {
    hide ChainsOk, BirthsOk, RowsOk, CallsOk, CodesOk, CallOk, Later, RowsMove, CodesMove;
    var t := Goto(s, me, c).(rows := rows);
    assert CodeCallOk(t, me, c);
    CodesQuiet(s, t, me);
    QuietLater(s, t);
    CallsKept(s, t, me);
  }

  lemma RowStays(s: State, id: Id)
    requires Inv(s) && id in s.rows
    ensures RowMove(s.rows[id], s.rows[id], s.now)
  {
    assert RowOk(s, id);
  }

  lemma RowsStay(s: State)
    requires Inv(s)
    ensures RowsMove(s.rows, s.rows, s.now)
  {
    forall id | id in s.rows ensures RowMove(s.rows[id], s.rows[id], s.now) { assert RowOk(s, id); }
  }

  lemma LocalStep(s: State, me: CallId, c: Call)
    requires Inv(s) && CallOk(s, c) && CodeCallOk(s, me, c)
    ensures Sound(s, Goto(s, me, c))
  {
    RowsStay(s);
    var t := Goto(s, me, c);
    assert t == t.(rows := s.rows);
    CallSame(s, t, c);
    QuietStep(s, me, c, s.rows);
  }

  /** A call's condition reads the clock, the key, the history and the rows only. */
  lemma CallSame(s: State, t: State, c: Call)
    requires t == s.(calls := t.calls) && CallOk(s, c)
    ensures CallOk(t, c)
  {
    assert Later(s, t) by {
      forall id | id in t.rows && id in s.born ensures RowLater(s, t, id) {}
    }
    CallStable(s, t, c);
  }

  lemma ThenErased(before: Rows, after: Rows, w: Where, now: Time)
    requires RowsMove(before, after, now)
    ensures RowsMove(before, EraseWhere(after, w), now)
  {
  }

  lemma EraseMoves(s: State, w: Where)
    requires Inv(s)
    ensures RowsMove(s.rows, EraseWhere(s.rows, w), s.now)
  {
    RowsStay(s);
    ThenErased(s.rows, s.rows, w, s.now);
  }

  lemma RevokeMoves(s: State, w: Where, onlyLive: bool)
    requires Inv(s)
    ensures RowsMove(s.rows, RevokeWhere(s.rows, w, onlyLive, s.now), s.now)
  {
    hide Inv;
    RowsStay(s);
  }

  lemma TouchMoves(s: State, child: Id, at: Time)
    requires Inv(s)
    ensures RowsMove(s.rows, TouchLive(s.rows, child, at), s.now)
  {
    hide Inv;
    RowsStay(s);
  }

  // ---------- the refresh grant ----------

  lemma RowSnap(s: State, id: Id)
    requires Inv(s) && id in s.rows
    ensures SnapOk(s, Snap(id, s.rows[id]))
    ensures s.rows[id].graceReplay.Some? ==> ChildOf(s, id) in s.born && s.born[ChildOf(s, id)].at <= s.now
  {
    assert RowOk(s, id);
    if s.rows[id].graceReplay.Some? {
      assert LinkOk(s, ChildOf(s, id));
    }
  }

  lemma FindingOk(s: State, me: CallId, token: string, client: string, bound: Option<Authority.Client>)
    requires Inv(s)
    ensures Sound(s, StepFinding(s, me, token, client, bound))
  {
    hide Inv, Sound;
    var found := WithLookup(s.rows, Hmac(token));
    if found == {} {
      PlainDoneOk(s, me, Refused(InvalidToken));
    } else {
      var id := Least(found);
      RowSnap(s, id);
      if s.rows[id].client != client {
        PlainDoneOk(s, me, Refused(InvalidToken));
      } else if s.rows[id].revoked {
        LocalStep(s, me, GraceBegin(Snap(id, s.rows[id]), Replay));
      } else {
        LocalStep(s, me, Loaded(Snap(id, s.rows[id]), bound));
      }
    }
  }

  lemma LoadedOk(s: State, me: CallId, snap: Snap, bound: Option<Authority.Client>)
    requires Inv(s) && CallOk(s, Loaded(snap, bound))
    ensures Sound(s, StepLoaded(s, me, snap, bound))
  {
    var bounds := Authority.RefreshBounds(bound, snap.row.scope, snap.row.resource, s.registry);
    if bounds.Some? { BoundsOk(s, snap, bound); }
    hide Inv, Sound, CallOk, Authority.RefreshBounds;
    if snap.row.expiresAt < s.now {
      PlainDoneOk(s, me, Refused(TokenExpired));
    } else if bounds.None? {
      PlainDoneOk(s, me, Refused(ResourceRefused));
    } else {
      LocalStep(s, me, Claiming(snap, bounds.value, s.windowMs));
    }
  }

  lemma BoundsOk(s: State, snap: Snap, bound: Option<Authority.Client>)
    requires s.windowMs <= GRACE_MAX_SECONDS * 1000 && SnapOk(s, snap) && !snap.row.revoked
    requires Authority.RefreshBounds(bound, snap.row.scope, snap.row.resource, s.registry).Some?
    ensures var bounds := Authority.RefreshBounds(bound, snap.row.scope, snap.row.resource, s.registry);
            CallOk(s, Claiming(snap, bounds.value, s.windowMs))
  {
    hide SnapOk, Authority.RefreshBounds, Authority.ScopeSet, Authority.AllowedSet, Authority.IsResourceAllowed;
    Authority.RefreshNarrows(bound, snap.row.scope, snap.row.resource, s.registry);
  }

  /** A call that ends with a reply and no rows to its account. */
  lemma PlainDoneOk(s: State, me: CallId, reply: Reply)
    requires Inv(s)
    ensures Sound(s, Goto(s, me, Done(reply, {})))
  {
    hide Inv, Sound, CallOk;
    DoneCallOk(s, reply, {});
    LocalStep(s, me, Done(reply, {}));
  }

  lemma RefindingOk(s: State, me: CallId, id: Id)
    requires Inv(s) && CallOk(s, Refinding(id))
    ensures Sound(s, StepRefinding(s, me, id))
  {
    hide Inv, Sound;
    if id in s.rows {
      RowSnap(s, id);
      LocalStep(s, me, GraceBegin(Snap(id, s.rows[id]), LostRace));
    } else {
      PlainDoneOk(s, me, Refused(AlreadyRotated));
    }
  }

  lemma NoPairOk(s: State, snap: Snap, why: Why)
    ensures CallOk(s, NoPair(snap, why))
  {
  }

  lemma AfterEraseOk(s: State, me: CallId, snap: Snap, why: Why, at: Time)
    requires Inv(s) && GraceOk(s, snap, at)
    ensures CallOk(s, AfterErase(s, snap, why, at)) && CodeCallOk(s, me, AfterErase(s, snap, why, at))
  {
    hide SnapOk, ChainsOk, BirthsOk, RowsOk, CallsOk, CodesOk, NoPair;
    NoPairOk(s, snap, why);
  }

  lemma GraceBeginOk(s: State, me: CallId, snap: Snap, why: Why)
    requires Inv(s) && CallOk(s, GraceBegin(snap, why))
    ensures Sound(s, StepGraceBegin(s, me, snap, why))
  {
    hide Inv, Sound, AfterErase;
    if Overdue(snap.row, s.now) {
      LocalStep(s, me, GraceErase(snap, why, s.now));
    } else {
      AfterEraseOk(s, me, snap, why, s.now);
      LocalStep(s, me, AfterErase(s, snap, why, s.now));
    }
  }

  lemma GraceEraseOk(s: State, me: CallId, snap: Snap, why: Why, at: Time)
    requires Inv(s) && CallOk(s, GraceErase(snap, why, at))
    ensures Sound(s, StepGraceErase(s, me, snap, why, at))
  {
    hide Inv, Sound, AfterErase, EraseWhere, RowsMove;
    var rows := EraseWhere(s.rows, ByIds({snap.id}, None, None));
    EraseMoves(s, ByIds({snap.id}, None, None));
    var next := AfterErase(s, snap, why, at);
    AfterEraseOk(s, me, snap, why, at);
    CallOnRows(s, rows, me, next);
    QuietStep(s, me, next, rows);
  }

  /** A condition on a call survives a quiet move of the rows. */
  lemma CallOnRows(s: State, rows: Rows, me: CallId, c: Call)
    requires Inv(s) && RowsMove(s.rows, rows, s.now) && CallOk(s, c)
    ensures CallOk(Goto(s, me, c).(rows := rows), c)
  {
    var t := Goto(s, me, c).(rows := rows);
    QuietLater(s, t);
    CallStable(s, t, c);
  }

  /** The children a query sees of a row are at most the one its rotation inserted. */
  lemma ChildrenAreTheChild(s: State, id: Id, user: string, client: string)
    requires Inv(s) && InChain(s, id)
    ensures forall c | c in ChildrenOf(s.rows, id, user, client) :: HasChild(s, id) && c == ChildOf(s, id)
  {
    forall c | c in ChildrenOf(s.rows, id, user, client) ensures HasChild(s, id) && c == ChildOf(s, id) {
      assert RowOk(s, c) && InChain(s, c) && LinkOk(s, c);
      hide Inv;
      RotatedFromIsParent(s, id, c);
    }
  }

  lemma RotatedFromIsParent(s: State, id: Id, c: Id)
    requires ChainsOk(s) && InChain(s, c) && LinkOk(s, c) && c in s.rows && RowOk(s, c)
    requires s.rows[c].rotatedFrom == Some(id)
    ensures HasChild(s, id) && c == ChildOf(s, id)
  {
    var b := s.born[c];
    assert b.origin == FromRotation(id);
    assert ChainEntryOk(s, b.chain, b.pos - 1);
  }

  lemma ChildFindOk(s: State, me: CallId, snap: Snap, why: Why, at: Time, window: nat)
    requires Inv(s) && CallOk(s, ChildFind(snap, why, at, window))
    ensures Sound(s, StepChildFind(s, me, snap, why, at, window))
  {
    hide Inv, Sound;
    var children := ChildrenOf(s.rows, snap.id, snap.row.user, snap.row.client);
    ChildrenAreTheChild(s, snap.id, snap.row.user, snap.row.client);
    if children == {} {
      LocalStep(s, me, NoPair(snap, why));
    } else {
      LocalStep(s, me, ChildTouch(snap, why, at, window, Least(children)));
    }
  }

  lemma ChildTouchOk(s: State, me: CallId, snap: Snap, why: Why, at: Time, window: nat, child: Id)
    requires Inv(s) && CallOk(s, ChildTouch(snap, why, at, window, child))
    ensures Sound(s, StepChildTouch(s, me, snap, why, at, child))
  {
    hide Inv, Sound, RowsMove, OpenReplay, TouchLive;
    if !LiveAt(s.rows, child, at) {
      LocalStep(s, me, ChildCount(snap, why, at, child));
    } else {
      var tokens := OpenReplay(s.key, snap.id, snap.row, at);
      var next := if tokens.Some? then Done(Pair(tokens.value), {}) else NoPair(snap, why);
      TouchMoves(s, child, at);
      if tokens.None? { NoPairOk(s, snap, why); }
      CallOnRows(s, TouchLive(s.rows, child, at), me, next);
      QuietStep(s, me, next, TouchLive(s.rows, child, at));
    }
  }

  lemma ChildCountOk(s: State, me: CallId, snap: Snap, why: Why, at: Time, child: Id)
    requires Inv(s) && CallOk(s, ChildCount(snap, why, at, child))
    ensures Sound(s, StepChildCount(s, me, snap, why, child))
  {
    hide Inv, Sound;
    if ChildrenOf(s.rows, child, snap.row.user, snap.row.client) == {} {
      LocalStep(s, me, NoPair(snap, why));
    } else {
      PlainDoneOk(s, me, Refused(AlreadyRotated));
    }
  }

  // ---------- the revoke paths ----------

  lemma SweepCuts(s: State, revoke: Where, erase: Where)
    requires RowsOk(s) && Covers(erase, revoke)
    ensures forall id | id in Matching(s.rows, revoke) ::
              && id in s.born && SelectsBorn(s, erase, id)
              && RevokeWhere(s.rows, revoke, true, s.now)[id].revoked
  {
    forall id | id in Matching(s.rows, revoke) ensures id in s.born && SelectsBorn(s, erase, id) {
      assert RowOk(s, id);
    }
  }

  lemma SweepingOk(s: State, me: CallId, revoke: Where, erase: Where, after: Reply)
    requires Inv(s) && CallOk(s, Sweeping(revoke, erase, after))
    ensures Sound(s, StepSweeping(s, me, revoke, erase, after))
  {
    var rows := RevokeWhere(s.rows, revoke, true, s.now);
    var c := Erasing(revoke, erase, after, Matching(s.rows, revoke));
    RevokeMoves(s, revoke, true);
    SweepCuts(s, revoke, erase);
    SweptCallOk(s, Goto(s, me, c).(rows := rows), revoke, erase, after);
    hide Inv, Sound, RowsMove, RevokeWhere, Matching, CallOk;
    QuietStep(s, me, c, rows);
  }

  lemma SweptCallOk(s: State, t: State, revoke: Where, erase: Where, after: Reply)
    requires t.born == s.born && t.rows == RevokeWhere(s.rows, revoke, true, s.now) && Covers(erase, revoke)
    requires forall id | id in Matching(s.rows, revoke) ::
               id in s.born && SelectsBorn(s, erase, id) && id in t.rows && t.rows[id].revoked
    ensures CallOk(t, Erasing(revoke, erase, after, Matching(s.rows, revoke)))
  {
  }

  lemma ErasedAreBare(s: State, erase: Where, cut: set<Id>)
    requires RowsOk(s) && AllDead(s, cut) && forall id | id in cut :: id in s.born && SelectsBorn(s, erase, id)
    ensures forall id | id in cut && id in EraseWhere(s.rows, erase) ::
              && id in s.rows && EraseWhere(s.rows, erase)[id].revoked
              && EraseWhere(s.rows, erase)[id].graceReplay.None?
  {
    forall id | id in cut && id in s.rows ensures Matches(erase, id, s.rows[id]) {
      assert RowOk(s, id);
    }
  }

  lemma DoneCallOk(t: State, reply: Reply, cut: set<Id>)
    requires forall id | id in cut ::
              id in t.born && (id in t.rows ==> t.rows[id].revoked && t.rows[id].graceReplay.None?)
    ensures CallOk(t, Done(reply, cut))
  {
  }

  lemma ErasingOk(s: State, me: CallId, revoke: Where, erase: Where, after: Reply, cut: set<Id>)
    requires Inv(s) && CallOk(s, Erasing(revoke, erase, after, cut))
    ensures Sound(s, StepErasing(s, me, erase, after, cut))
  {
    EraseMoves(s, erase);
    ErasedAreBare(s, erase, cut);
    DoneCallOk(Goto(s, me, Done(after, cut)).(rows := EraseWhere(s.rows, erase)), after, cut);
    hide Inv, Sound, RowsMove, EraseWhere, CallOk;
    QuietStep(s, me, Done(after, cut), EraseWhere(s.rows, erase));
  }

  /** Both statements of a disconnect, on the rows. */
  function Disconnected(rows: Rows, family: Where, at: Time): Rows {
    EraseWhere(RevokeWhere(rows, family, true, at), family)
  }

  lemma DisconnectMoves(s: State, family: Where)
    requires Inv(s)
    ensures RowsMove(s.rows, Disconnected(s.rows, family, s.now), s.now)
  {
    RevokeMoves(s, family, true);
    ThenErased(s.rows, RevokeWhere(s.rows, family, true, s.now), family, s.now);
  }

  lemma DisconnectCuts(s: State, family: Where)
    requires RowsOk(s)
    ensures forall id | id in Matching(s.rows, family) ::
              && id in s.born && id in Disconnected(s.rows, family, s.now)
              && Disconnected(s.rows, family, s.now)[id].revoked
              && Disconnected(s.rows, family, s.now)[id].graceReplay.None?
  {
    var revoked := RevokeWhere(s.rows, family, true, s.now);
    forall id | id in Matching(s.rows, family) ensures id in s.born && Matches(family, id, revoked[id]) {
      assert RowOk(s, id);
    }
  }

  lemma DisconnectingOk(s: State, me: CallId, user: string, client: string)
    requires Inv(s)
    ensures Sound(s, StepDisconnecting(s, me, user, client))
  {
    var family := ByUserClient(user, client);
    DisconnectMoves(s, family);
    DisconnectCuts(s, family);
    DisconnectedRows(s, me, user, client);
    DoneCallOk(Goto(s, me, Done(Acknowledged, Matching(s.rows, family))).(rows := Disconnected(s.rows, family, s.now)),
               Acknowledged, Matching(s.rows, family));
    hide Inv, Sound, RowsMove, Matching, Disconnected, StepDisconnecting, CallOk;
    QuietStep(s, me, Done(Acknowledged, Matching(s.rows, family)), Disconnected(s.rows, family, s.now));
  }

  lemma DisconnectedRows(s: State, me: CallId, user: string, client: string)
    ensures var family := ByUserClient(user, client);
            StepDisconnecting(s, me, user, client)
            == Goto(s, me, Done(Acknowledged, Matching(s.rows, family))).(rows := Disconnected(s.rows, family, s.now))
  {
  }

  lemma RevokingOneOk(s: State, me: CallId, find: Where, around: Option<set<Id>>)
    requires Inv(s)
    ensures Sound(s, StepRevokingOne(s, me, find, around))
  {
    hide Inv, Sound, RowsMove, RevokeWhere;
    RevokeMoves(s, find, !find.BySession?);
    var t := StepRevokingOne(s, me, find, around);
    QuietStep(s, me, t.calls[me], RevokeWhere(s.rows, find, !find.BySession?, s.now));
  }

  lemma ErasingOneOk(s: State, me: CallId, erase: Where)
    requires Inv(s)
    ensures Sound(s, StepErasingOne(s, me, erase))
  {
    hide Inv, Sound, RowsMove, EraseWhere;
    EraseMoves(s, erase);
    QuietStep(s, me, Done(Acknowledged, {}), EraseWhere(s.rows, erase));
  }

  // ---------- the cleanup ----------

  lemma CleanCodesOk(s: State, me: CallId, at: Time)
    requires Inv(s) && at <= s.now
    ensures Sound(s, Goto(s, me, CleanTokens(at)).(codes := DeleteExpiredCodes(s.codes, at)))
  {
    var t := Goto(s, me, CleanTokens(at)).(codes := DeleteExpiredCodes(s.codes, at));
    CodesQuiet(s, t, me);
    RowsStay(s);
    QuietLater(s, t);
    CallsKept(s, t, me);
  }

  lemma CleanTokensOk(s: State, me: CallId, at: Time)
    requires Inv(s) && at <= s.now
    ensures Sound(s, Goto(s, me, CleanKept(at)).(rows := DeleteExpired(s.rows, at)))
  {
    hide Sound;
    RowsStay(s);
    QuietStep(s, me, CleanKept(at), DeleteExpired(s.rows, at));
  }

  lemma ExpiredMoves(s: State, at: Time)
    requires Inv(s)
    ensures RowsMove(s.rows, EraseExpired(s.rows, at), s.now)
  {
    hide Inv;
    forall id | id in EraseExpired(s.rows, at)
      ensures id in s.rows && RowMove(s.rows[id], EraseExpired(s.rows, at)[id], s.now)
    {
      RowStays(s, id);
    }
  }

  lemma CleanKeptOk(s: State, me: CallId, at: Time)
    requires Inv(s)
    ensures Sound(s, Goto(s, me, Done(Acknowledged, {})).(rows := EraseExpired(s.rows, at)))
  {
    hide Inv, Sound, EraseExpired;
    ExpiredMoves(s, at);
    QuietStep(s, me, Done(Acknowledged, {}), EraseExpired(s.rows, at));
  }

  // ---------- the inserts ----------

  /** A new row at the end of chain `c` (or of a new chain): the history stays well formed. */
  ghost predicate Appends(s: State, t: State, id: Id, b: Birth) {
    && id !in s.born && t.born == s.born[id := b] && t.now == s.now && t.key == s.key && t.windowMs == s.windowMs
    && t.holder == s.holder && t.minted == s.minted && t.codes == s.codes
    && |s.chains| <= |t.chains|
    && b.chain < |t.chains|
    && (forall c | 0 <= c < |t.chains| && c != b.chain :: c < |s.chains| && t.chains[c] == s.chains[c])
    && t.chains[b.chain] == (if b.chain < |s.chains| then s.chains[b.chain] else []) + [id]
    && b.pos == |t.chains[b.chain]| - 1
  }

  lemma AppendEntry(s: State, t: State, id: Id, b: Birth, c: nat, k: nat)
    requires ChainsOk(s) && Appends(s, t, id, b) && c < |t.chains| && k < |t.chains[c]|
    ensures ChainEntryOk(t, c, k)
  {
    if c < |s.chains| && k < |s.chains[c]| {
      assert ChainEntryOk(s, c, k);
      assert s.chains[c][k] != id;
    }
  }

  lemma AppendWhole(s: State, t: State, id: Id, b: Birth)
    requires ChainsOk(s) && Appends(s, t, id, b)
    ensures ChainsOk(t)
  {
    forall c, k | 0 <= c < |t.chains| && 0 <= k < |t.chains[c]| ensures ChainEntryOk(t, c, k) {
      AppendEntry(s, t, id, b, c, k);
    }
    forall i | i in t.born ensures InChain(t, i) {
      if i != id { assert InChain(s, i); AppendKeeps(s, t, id, b, i); }
    }
  }

  lemma AppendKeeps(s: State, t: State, id: Id, b: Birth, i: Id)
    requires Appends(s, t, id, b) && InChain(s, i)
    ensures InChain(t, i) && (HasChild(s, i) ==> HasChild(t, i) && ChildOf(t, i) == ChildOf(s, i))
    ensures IsTail(s, i) && s.born[i].chain != b.chain ==> IsTail(t, i)
  {
  }

  lemma AppendChains(s: State, t: State, id: Id, b: Birth)
    requires ChainsOk(s) && Appends(s, t, id, b)
    ensures ChainsOk(t)
    ensures forall i | InChain(s, i) ::
              InChain(t, i) && (HasChild(s, i) ==> HasChild(t, i) && ChildOf(t, i) == ChildOf(s, i))
    ensures IsTail(t, id)
    ensures forall i | IsTail(s, i) && s.born[i].chain != b.chain :: IsTail(t, i)
  {
    hide ChainsOk;
    AppendWhole(s, t, id, b);
    forall i | InChain(s, i)
      ensures InChain(t, i) && (HasChild(s, i) ==> HasChild(t, i) && ChildOf(t, i) == ChildOf(s, i))
      ensures IsTail(s, i) && s.born[i].chain != b.chain ==> IsTail(t, i)
    {
      AppendKeeps(s, t, id, b, i);
    }
  }

  lemma AppendLink(s: State, t: State, id: Id, b: Birth, i: Id)
    requires ChainsOk(s) && Appends(s, t, id, b) && InChain(s, i) && LinkOk(s, i)
    ensures InChain(t, i) && LinkOk(t, i)
  {
    AppendChains(s, t, id, b);
    var c := s.born[i];
    assert t.born[i] == c;
    if c.pos > 0 {
      assert InChain(s, c.origin.parent) && InChain(t, c.origin.parent);
      assert t.born[c.origin.parent] == s.born[c.origin.parent];
    }
  }

  lemma AppendBirths(s: State, t: State, id: Id, b: Birth)
    requires ChainsOk(s) && BirthsOk(s) && Appends(s, t, id, b) && b.at == s.now
    requires forall i | i in s.born :: s.born[i].tokens.refreshToken != b.tokens.refreshToken
    requires b.origin.FromRotation? <==> b.pos > 0
    requires b.origin.FromRotation? ==>
               IsTail(s, b.origin.parent) && s.born[b.origin.parent].chain == b.chain
               && Inherits(b, s.born[b.origin.parent])
    requires b.origin.FromCode? ==> b.origin.code in s.holder && Unspent(s, b.origin.code)
    ensures BirthsOk(t)
  {
    forall i | i in t.born ensures InChain(t, i) && LinkOk(t, i) {
      if i == id { NewLink(s, t, id, b); } else {
        assert i in s.born && InChain(s, i) && LinkOk(s, i);
        AppendLink(s, t, id, b, i);
      }
    }
    forall i, j | i in t.born && j in t.born && i != j
      ensures t.born[i].tokens.refreshToken != t.born[j].tokens.refreshToken
      ensures t.born[i].origin.FromCode? ==> t.born[i].origin != t.born[j].origin
    {
      assert i == id || (i in s.born && t.born[i] == s.born[i]);
      assert j == id || (j in s.born && t.born[j] == s.born[j]);
    }
  }

  lemma NewLink(s: State, t: State, id: Id, b: Birth)
    requires ChainsOk(s) && Appends(s, t, id, b) && b.at == s.now
    requires b.origin.FromRotation? <==> b.pos > 0
    requires b.origin.FromRotation? ==>
               IsTail(s, b.origin.parent) && s.born[b.origin.parent].chain == b.chain
               && Inherits(b, s.born[b.origin.parent])
    requires b.origin.FromCode? ==> b.origin.code in s.holder
    ensures InChain(t, id) && LinkOk(t, id)
  {
    AppendChains(s, t, id, b);
    if b.origin.FromRotation? {
      assert t.born[b.origin.parent] == s.born[b.origin.parent];
    }
  }

  /** The rows that were there, after an insert at the end of another chain or of their own. */
  lemma AppendRow(s: State, t: State, id: Id, b: Birth, r: Id)
    requires ChainsOk(s) && Appends(s, t, id, b) && r in s.rows && r in t.rows && r != id
    requires RowOk(s, r) && RowMove(s.rows[r], t.rows[r], t.now)
    requires s.born[r].chain == b.chain ==> t.rows[r].revoked && t.rows[r].graceReplay.None?
    ensures RowOk(t, r) && RowLater(s, t, r)
  {
    AppendChains(s, t, id, b);
    var p, q := s.rows[r], t.rows[r];
    assert SnapOk(s, Snap(r, p));
    assert t.born[r] == s.born[r];
    assert InChain(t, r) && Agrees(q, t.born[r]);
    if q.graceReplay.Some? {
      AppendKept(s, t, id, b, r, p, q);
    }
    assert KeptOk(t, r, q);
    if !q.revoked { assert IsTail(s, r) && IsTail(t, r); }
  }

  lemma AppendKept(s: State, t: State, id: Id, b: Birth, r: Id, p: Row, q: Row)
    requires ChainsOk(s) && Appends(s, t, id, b) && InChain(s, r) && KeptOk(s, r, p) && RowMove(p, q, t.now)
    requires p.graceReplay.Some? && q.graceReplay.Some? && s.born[r].chain != b.chain
    requires HasChild(s, r) ==> IsTail(s, ChildOf(s, r))
    ensures KeptOk(t, r, q) && HasChild(t, r) && IsTail(t, ChildOf(t, r))
  {
    AppendChains(s, t, id, b);
    var c := ChildOf(s, r);
    assert ChildOf(t, r) == c && IsTail(s, c);
    assert ChainEntryOk(s, s.born[r].chain, s.born[r].pos + 1);
    assert s.born[c].chain != b.chain;
    assert t.born[c] == s.born[c];
  }

  lemma AppendLater(s: State, t: State, id: Id, b: Birth)
    requires Inv(s) && Appends(s, t, id, b)
    requires forall r | r in t.rows && r != id :: RowLater(s, t, r)
    ensures Later(s, t)
  {
    forall c | 0 <= c < |s.chains| ensures s.chains[c] <= t.chains[c] {}
    forall i | i in s.born ensures i in t.born && t.born[i] == s.born[i] { assert i != id; }
    assert forall c | c in t.codes && c in s.minted :: c in s.codes && (s.codes[c].used ==> t.codes[c].used);
  }

  lemma AppendCodes(s: State, t: State, id: Id, b: Birth, me: CallId)
    requires Inv(s) && Appends(s, t, id, b) && OthersSame(s, t, me)
    requires me in t.calls && t.calls[me].Done?
    requires b.origin.FromCode? ==> HoldsCode(s, me, b.origin.code)
    ensures CodesOk(t)
  {
    forall o | o in t.calls ensures CodeCallOk(t, o, t.calls[o]) {
      if o != me { assert CodeCallOk(s, o, s.calls[o]); }
    }
  }

  lemma NewRowOk(s: State, t: State, id: Id, b: Birth)
    requires ChainsOk(s) && Appends(s, t, id, b) && id in t.rows && t.rows[id] == NewRow(b)
    ensures RowOk(t, id)
  {
    AppendChains(s, t, id, b);
  }

  lemma GrantOk(s: State, me: CallId, origin: Origin, user: string, client: string, scope: string,
                resource: Option<Authority.Uri>, d: Draw)
    requires Inv(s) && !origin.FromRotation? && (origin.FromCode? ==> HoldsCode(s, me, origin.code))
    ensures Sound(s, StepGrant(s, me, origin, user, client, scope, resource, d))
  {
    if !Fresh(s, d) {
      PlainDoneOk(s, me, Refused(DrawCollided));
    } else {
      var b := Birth(origin, |s.chains|, 0, user, client, scope, Named(resource), s.now, Issue(d, scope));
      GrantInv(s, StepGrant(s, me, origin, user, client, scope, resource, d), me, d.id, b);
    }
  }

  lemma GrantInv(s: State, t: State, me: CallId, id: Id, b: Birth)
    requires Inv(s) && Appends(s, t, id, b) && id !in s.rows && t.rows == s.rows[id := NewRow(b)]
    requires b.chain == |s.chains| && b.pos == 0 && b.at == s.now && !b.origin.FromRotation?
    requires forall i | i in s.born :: s.born[i].tokens.refreshToken != b.tokens.refreshToken
    requires b.origin.FromCode? ==> HoldsCode(s, me, b.origin.code)
    requires t.calls == s.calls[me := Done(Pair(b.tokens), {})]
    ensures Inv(t) && Later(s, t)
  {
    hide ChainsOk, BirthsOk, RowsOk, CallsOk, CodesOk, Later;
    AppendChains(s, t, id, b);
    AppendBirths(s, t, id, b);
    GrantRows(s, t, id, b);
    AppendLater(s, t, id, b);
    CallsKept(s, t, me);
    AppendCodes(s, t, id, b, me);
  }

  lemma GrantRows(s: State, t: State, id: Id, b: Birth)
    requires Inv(s) && Appends(s, t, id, b) && id !in s.rows && t.rows == s.rows[id := NewRow(b)]
    requires b.chain == |s.chains|
    ensures RowsOk(t) && forall r | r in t.rows && r != id :: RowLater(s, t, r)
  {
    RowsStay(s);
    forall r | r in t.rows ensures RowOk(t, r) && (r != id ==> RowLater(s, t, r)) {
      if r == id { NewRowOk(s, t, id, b); } else {
        assert RowOk(s, r) && InChain(s, r);
        AppendRow(s, t, id, b, r);
      }
    }
  }

  /** What the claim's transaction leaves of every row but the claimed and the new one. */
  lemma ClaimedRow(s: State, snap: Snap, sealMs: nat, id: Id, b: Birth, r: Id)
    requires snap.id in s.rows && r in s.rows && r != snap.id && r != id
    ensures var rows := ClaimedRows(s, snap, sealMs, id, b);
            && r in rows
            && rows[r] == if snap.row.rotatedFrom == Some(r) && s.rows[r].graceReplay.Some? then Erased(s.rows[r])
            else s.rows[r]
  {
  }

  lemma ClaimedKeys(s: State, snap: Snap, sealMs: nat, id: Id, b: Birth)
    requires snap.id in s.rows && snap.id != id
    ensures var rows := ClaimedRows(s, snap, sealMs, id, b);
            && (forall r | r in rows :: r == id || r in s.rows)
            && id in rows && rows[id] == NewRow(b)
  {
  }

  lemma ClaimedParent(s: State, snap: Snap, sealMs: nat, id: Id, b: Birth)
    requires snap.id in s.rows && snap.id != id && snap.row.rotatedFrom != Some(snap.id)
    ensures var rows := ClaimedRows(s, snap, sealMs, id, b);
            && snap.id in rows
            && rows[snap.id] == Sealed(s.rows[snap.id].(revoked := true, revokedAt := Some(s.now)),
                                       s.key, sealMs, snap.id, b.tokens, s.now)
  {
  }

  /** The claimed row is the live end of its chain, and the new row goes after it. */
  lemma ClaimingAppends(s: State, me: CallId, snap: Snap, bounds: Authority.Bounds, sealMs: nat, d: Draw)
    requires IsTail(s, snap.id) && Fresh(s, d) && snap.id in s.rows && !s.rows[snap.id].revoked
    ensures var t := StepClaiming(s, me, snap, bounds, sealMs, d);
            var b := ChildBirth(s, snap, bounds, d);
            && Appends(s, t, d.id, b) && s.born[snap.id].chain == b.chain && b.pos > 0
            && t.rows == ClaimedRows(s, snap, sealMs, d.id, b) && t.calls == s.calls[me := Done(Pair(b.tokens), {})]
  {
  }

  lemma ChildInherits(s: State, snap: Snap, bounds: Authority.Bounds, sealMs: nat, d: Draw)
    requires CallOk(s, Claiming(snap, bounds, sealMs)) && LinkOk(s, snap.id)
    ensures Inherits(ChildBirth(s, snap, bounds, d), s.born[snap.id])
  {
  }

  /** The rotated row itself: revoked, with the pair just issued kept for its only child. */
  lemma RotatedRowOk(s: State, t: State, snap: Snap, sealMs: nat, id: Id, b: Birth)
    requires ChainsOk(s) && Appends(s, t, id, b) && snap.id in s.rows && RowOk(s, snap.id) && !s.rows[snap.id].revoked
    requires IsTail(s, snap.id) && s.born[snap.id].chain == b.chain
    requires sealMs <= GRACE_MAX_SECONDS * 1000 && b.at == s.now
    requires snap.id in t.rows
    requires t.rows[snap.id]
         == Sealed(s.rows[snap.id].(revoked := true, revokedAt := Some(s.now)), s.key, sealMs, snap.id, b.tokens, s.now)
    ensures RowOk(t, snap.id) && RowLater(s, t, snap.id)
  {
    AppendChains(s, t, id, b);
    assert SnapOk(s, Snap(snap.id, s.rows[snap.id]));
    assert t.born[snap.id] == s.born[snap.id];
    assert HasChild(t, snap.id) && ChildOf(t, snap.id) == id;
    assert IsTail(t, id);
    assert KeptOk(t, snap.id, t.rows[snap.id]);
  }

  /** A pair kept for the claimed row, on its parent, is the one the claim erases. */
  lemma ParentOfClaimed(s: State, snap: Snap, r: Id)
    requires SnapOk(s, snap) && LinkOk(s, snap.id) && IsTail(s, snap.id) && InChain(s, r)
    requires HasChild(s, r) && IsTail(s, ChildOf(s, r)) && s.born[r].chain == s.born[snap.id].chain
    requires ChainEntryOk(s, s.born[r].chain, s.born[r].pos + 1)
    ensures snap.row.rotatedFrom == Some(r)
  {
    var c := s.born[r].chain;
    assert ChildOf(s, r) == s.chains[c][s.born[r].pos + 1];
    assert s.born[ChildOf(s, r)].pos == |s.chains[c]| - 1 == s.born[snap.id].pos;
    assert ChildOf(s, r) == snap.id;
  }

  lemma ClaimedOther(s: State, t: State, snap: Snap, sealMs: nat, id: Id, b: Birth, r: Id)
    requires ChainsOk(s) && Appends(s, t, id, b) && SnapOk(s, snap) && LinkOk(s, snap.id) && IsTail(s, snap.id)
    requires snap.id in s.rows && s.born[snap.id].chain == b.chain && t.rows == ClaimedRows(s, snap, sealMs, id, b)
    requires r in s.rows && r != snap.id && r != id && RowOk(s, r)
    ensures r in t.rows && RowOk(t, r) && RowLater(s, t, r)
  {
    ClaimedRow(s, snap, sealMs, id, b, r);
    var p := s.rows[r];
    assert SnapOk(s, Snap(r, p)) && InChain(s, r);
    assert RowMove(p, t.rows[r], t.now);
    if s.born[r].chain == b.chain {
      if !p.revoked { SameTail(s, r, snap.id); }
      if p.graceReplay.Some? {
        assert ChainEntryOk(s, s.born[r].chain, s.born[r].pos + 1);
        ParentOfClaimed(s, snap, r);
      }
    }
    AppendRow(s, t, id, b, r);
  }

  lemma ClaimingRows(s: State, t: State, snap: Snap, sealMs: nat, id: Id, b: Birth)
    requires ChainsOk(s) && RowsOk(s) && Appends(s, t, id, b) && SnapOk(s, snap) && LinkOk(s, snap.id)
    requires IsTail(s, snap.id)
    requires snap.id in s.rows && !s.rows[snap.id].revoked && id !in s.rows
    requires s.born[snap.id].chain == b.chain && t.rows == ClaimedRows(s, snap, sealMs, id, b)
    requires sealMs <= GRACE_MAX_SECONDS * 1000 && b.at == s.now
    ensures RowsOk(t) && forall r | r in t.rows && r != id :: RowLater(s, t, r)
  {
    ClaimedKeys(s, snap, sealMs, id, b);
    forall r | r in t.rows ensures RowOk(t, r) && (r != id ==> RowLater(s, t, r)) {
      if r == id {
        NewRowOk(s, t, id, b);
      } else {
        assert r in s.rows && RowOk(s, r);
        if r == snap.id {
          NotOwnParent(s, snap.id);
          ClaimedParent(s, snap, sealMs, id, b);
          RotatedRowOk(s, t, snap, sealMs, id, b);
        } else {
          ClaimedOther(s, t, snap, sealMs, id, b, r);
        }
      }
    }
  }

  lemma NotOwnParent(s: State, id: Id)
    requires ChainsOk(s) && InChain(s, id) && LinkOk(s, id)
    ensures s.born[id].Parent() != Some(id)
  {
    var b := s.born[id];
    if b.pos > 0 { assert ChainEntryOk(s, b.chain, b.pos - 1); }
  }

  lemma ClaimingOk(s: State, me: CallId, snap: Snap, bounds: Authority.Bounds, sealMs: nat, d: Draw)
    requires Inv(s) && CallOk(s, Claiming(snap, bounds, sealMs))
    ensures Sound(s, StepClaiming(s, me, snap, bounds, sealMs, d))
  {
    if snap.id !in s.rows || s.rows[snap.id].revoked {
      LocalStep(s, me, Refinding(snap.id));
    } else if !Fresh(s, d) {
      PlainDoneOk(s, me, Refused(DrawCollided));
    } else {
      assert RowOk(s, snap.id) && LinkOk(s, snap.id);
      ClaimingAppends(s, me, snap, bounds, sealMs, d);
      ChildInherits(s, snap, bounds, sealMs, d);
      ClaimingInv(s, StepClaiming(s, me, snap, bounds, sealMs, d), me, snap, bounds, sealMs, d.id,
                  ChildBirth(s, snap, bounds, d));
    }
  }

  lemma ClaimingInv(s: State, t: State, me: CallId, snap: Snap, bounds: Authority.Bounds, sealMs: nat, id: Id, b: Birth)
    requires Inv(s) && Appends(s, t, id, b) && SnapOk(s, snap) && IsTail(s, snap.id) && LinkOk(s, snap.id)
    requires snap.id in s.rows && !s.rows[snap.id].revoked && id !in s.rows
    requires s.born[snap.id].chain == b.chain && t.rows == ClaimedRows(s, snap, sealMs, id, b)
    requires sealMs <= GRACE_MAX_SECONDS * 1000 && b.at == s.now && b.origin == FromRotation(snap.id) && b.pos > 0
    requires Inherits(b, s.born[snap.id])
    requires forall i | i in s.born :: s.born[i].tokens.refreshToken != b.tokens.refreshToken
    requires t.calls == s.calls[me := Done(Pair(b.tokens), {})]
    ensures Inv(t) && Later(s, t)
  {
    hide LinkOk, ChainsOk, BirthsOk, RowsOk, CallsOk, CodesOk, RowOk, Later, Inherits, SnapOk, ClaimedRows;
    AppendChains(s, t, id, b);
    AppendBirths(s, t, id, b);
    ClaimingRows(s, t, snap, sealMs, id, b);
    AppendLater(s, t, id, b);
    CallsKept(s, t, me);
    AppendCodes(s, t, id, b, me);
  }

  lemma SameTail(s: State, i: Id, j: Id)
    requires IsTail(s, i) && IsTail(s, j) && s.born[i].chain == s.born[j].chain
    ensures i == j
  {
  }

  // ---------- codes ----------

  lemma UnclaimedIsUnspent(s: State, code: string)
    requires BirthsOk(s) && code !in s.holder
    ensures Unspent(s, code)
  {
    forall id | id in s.born ensures s.born[id].origin != FromCode(code) { assert LinkOk(s, id); }
  }

  lemma ClaimCodes(s: State, me: CallId, i: CodeInput)
    requires CodesOk(s) && Claimable(s.codes, i, s.now) && Unspent(s, i.code)
    ensures CodesOk(StepCodeClaim(s, me, i))
  {
    var t := StepCodeClaim(s, me, i);
    forall o | o in t.calls ensures CodeCallOk(t, o, t.calls[o]) {
      if o != me { assert CodeCallOk(s, o, s.calls[o]); }
    }
  }

  lemma ClaimedOk(s: State, me: CallId, i: CodeInput)
    requires Inv(s) && Claimable(s.codes, i, s.now) && CodesOk(StepCodeClaim(s, me, i))
    ensures Sound(s, StepCodeClaim(s, me, i))
  {
    hide ChainsOk, BirthsOk, RowsOk, CallsOk, CodesOk, RowsMove, Later;
    var t := StepCodeClaim(s, me, i);
    RowsStay(s);
    QuietLater(s, t);
    CallsKept(s, t, me);
  }

  lemma CodeClaimOk(s: State, me: CallId, i: CodeInput)
    requires Inv(s)
    ensures Sound(s, StepCodeClaim(s, me, i))
  {
    if Claimable(s.codes, i, s.now) {
      UnclaimedIsUnspent(s, i.code);
      ClaimCodes(s, me, i);
      ClaimedOk(s, me, i);
    } else {
      LocalStep(s, me, CodeCheck(i.code));
    }
  }

  lemma CodeReadOk(s: State, me: CallId, i: CodeInput)
    requires Inv(s) && CodeCallOk(s, me, CodeRead(i))
    ensures Sound(s, StepCodeRead(s, me, i))
  {
    hide Inv, Sound, PkceOk, AudienceOk;
    if i.code !in s.codes {
      PlainDoneOk(s, me, Refused(InvalidCode));
    } else {
      var row := s.codes[i.code];
      if !PkceOk(row, i.verifier) {
        PlainDoneOk(s, me, Refused(InvalidVerifier));
      } else if !AudienceOk(row, i, s.registry) {
        PlainDoneOk(s, me, Refused(InvalidTarget));
      } else {
        LocalStep(s, me, CodeIssue(i.code, row));
      }
    }
  }

  lemma CodeCheckOk(s: State, me: CallId, code: string)
    requires Inv(s)
    ensures Sound(s, StepCodeCheck(s, me, code))
  {
    hide Inv, Sound;
    if code in s.codes && s.codes[code].used {
      var family := ByUserClient(s.codes[code].user, s.codes[code].client);
      LocalStep(s, me, Sweeping(family, family, Refused(InvalidCode)));
    } else {
      PlainDoneOk(s, me, Refused(InvalidCode));
    }
  }

  // ---------- all steps ----------

  lemma LaterReflexive(s: State)
    requires Inv(s)
    ensures Later(s, s)
  {
    RowsStay(s);
    QuietLater(s, s);
  }

  lemma FindingOneOk(s: State, me: CallId, find: Where)
    requires Inv(s)
    ensures Sound(s, StepFindingOne(s, me, find))
  {
    hide Inv, Sound;
    var found := Matching(s.rows, find);
    LocalStep(s, me, RevokingOne(find, if found == {} then None else Some(Around(Least(found), s.rows[Least(found)]))));
  }

  lemma RefreshStepOk(s: State, me: CallId, c: Call, d: Draw)
    requires Inv(s) && CallOk(s, c)
    requires IsRefresh(c)
    ensures Sound(s, StepRefresh(s, me, c, d))
  {
    hide StepFinding, StepLoaded, StepClaiming, StepRefinding, Inv, Sound, CallOk;
    match c
    case Finding(token, client, bound) => FindingOk(s, me, token, client, bound);
    case Loaded(snap, bound) => LoadedOk(s, me, snap, bound);
    case Claiming(snap, bounds, sealMs) => ClaimingOk(s, me, snap, bounds, sealMs, d);
    case Refinding(id) => RefindingOk(s, me, id);
  }

  lemma GraceStepOk(s: State, me: CallId, c: Call)
    requires Inv(s) && CallOk(s, c)
    requires IsGrace(c)
    ensures Sound(s, StepGrace(s, me, c))
  {
    hide StepGraceBegin, StepGraceErase, StepChildFind, StepChildTouch, StepChildCount, Inv, Sound, CallOk;
    match c
    case GraceBegin(snap, why) => GraceBeginOk(s, me, snap, why);
    case GraceErase(snap, why, at) => GraceEraseOk(s, me, snap, why, at);
    case ChildFind(snap, why, at, window) => ChildFindOk(s, me, snap, why, at, window);
    case ChildTouch(snap, why, at, window, child) => ChildTouchOk(s, me, snap, why, at, window, child);
    case ChildCount(snap, why, at, child) => ChildCountOk(s, me, snap, why, at, child);
  }

  lemma RevokeStepOk(s: State, me: CallId, c: Call)
    requires Inv(s) && CallOk(s, c)
    requires IsRevoke(c)
    ensures Sound(s, StepRevoke(s, me, c))
  {
    hide StepSweeping, StepErasing, StepDisconnecting, StepFindingOne, StepRevokingOne, StepErasingOne, Inv, Sound,
         CallOk;
    match c
    case Sweeping(revoke, erase, after) => SweepingOk(s, me, revoke, erase, after);
    case Erasing(revoke, erase, after, cut) => ErasingOk(s, me, revoke, erase, after, cut);
    case Disconnecting(user, client) => DisconnectingOk(s, me, user, client);
    case FindingOne(find) => FindingOneOk(s, me, find);
    case RevokingOne(find, around) => RevokingOneOk(s, me, find, around);
    case ErasingOne(erase) => ErasingOneOk(s, me, erase);
  }

  lemma CodeStepOk(s: State, me: CallId, c: Call, d: Draw)
    requires Inv(s) && CallOk(s, c) && CodeCallOk(s, me, c)
    requires IsGrant(c)
    ensures Sound(s, StepGranting(s, me, c, d))
  {
    hide StepCodeClaim, StepCodeRead, StepCodeCheck, StepGrant, Inv, Sound, CallOk;
    match c
    case CodeClaim(input) => CodeClaimOk(s, me, input);
    case CodeRead(input) => CodeReadOk(s, me, input);
    case CodeIssue(code, row) => GrantOk(s, me, FromCode(code), row.user, row.client, row.scope, row.resource, d);
    case CodeCheck(code) => CodeCheckOk(s, me, code);
    case Granting(user, client, scope, resource) => GrantOk(s, me, FromDevice, user, client, scope, resource, d);
  }

  lemma CleanStepOk(s: State, me: CallId, c: Call)
    requires Inv(s) && CallOk(s, c)
    requires IsClean(c)
    ensures Sound(s, StepClean(s, me, c))
  {
    match c
    case CleanBegin => LocalStep(s, me, CleanCodes(s.now));
    case CleanCodes(at) => CleanCodesOk(s, me, at);
    case CleanTokens(at) => CleanTokensOk(s, me, at);
    case CleanKept(at) => CleanKeptOk(s, me, at);
    case Done(_, _) => LaterReflexive(s);
  }

  lemma StepOk(s: State, me: CallId, c: Call, d: Draw)
    requires Inv(s) && CallOk(s, c) && CodeCallOk(s, me, c)
    ensures Sound(s, StepCall(s, me, c, d))
  {
    hide StepRefresh, StepGrace, StepRevoke, StepGranting, StepClean, Sound, Inv, CallOk, CodeCallOk;
    if IsRefresh(c) {
      RefreshStepOk(s, me, c, d);
    } else if IsGrace(c) {
      GraceStepOk(s, me, c);
    } else if IsRevoke(c) {
      RevokeStepOk(s, me, c);
    } else if IsGrant(c) {
      CodeStepOk(s, me, c, d);
    } else {
      CleanStepOk(s, me, c);
    }
  }

  lemma NobodyMoves(s: State, t: State)
    requires Inv(s) && SameHistory(s, t) && RowsMove(s.rows, t.rows, t.now) && CodesMove(s, t) && t.calls == s.calls
    requires t.holder == s.holder
    requires forall c | c in t.codes :: c in t.minted && (!t.codes[c].used ==> c !in t.holder)
    ensures Inv(t) && Later(s, t)
  {
    QuietLater(s, t);
    forall o | o in t.calls ensures CallOk(t, t.calls[o]) && CodeCallOk(t, o, t.calls[o]) {
      CallStable(s, t, s.calls[o]);
      assert CodeCallOk(s, o, s.calls[o]);
    }
  }

  lemma StartOk(s: State, me: CallId, request: Request)
    requires Inv(s) && me !in s.calls
    ensures Sound(s, Goto(s, me, First(request)))
  {
    LocalStep(s, me, First(request));
  }

  /** One action, whoever takes it, keeps the invariant and only moves the state on. */
  lemma ApplyOk(s: State, a: Action)
    requires Inv(s)
    ensures Inv(Apply(s, a)) && Later(s, Apply(s, a))
  {
    if a.Step? {
      StepActionOk(s, a.me, a.draw);
    } else {
      OtherActionOk(s, a);
    }
  }

  lemma StepActionOk(s: State, me: CallId, d: Draw)
    requires Inv(s)
    ensures Inv(Apply(s, Step(me, d))) && Later(s, Apply(s, Step(me, d)))
  {
    if me in s.calls {
      assert CallOk(s, s.calls[me]) && CodeCallOk(s, me, s.calls[me]);
      hide StepCall, Inv, CallOk, CodeCallOk, Later;
      StepOk(s, me, s.calls[me], d);
    } else {
      LaterReflexive(s);
    }
  }

  lemma OtherActionOk(s: State, a: Action)
    requires Inv(s) && !a.Step?
    ensures Inv(Apply(s, a)) && Later(s, Apply(s, a))
  {
    hide StepCall, Inv, Later;
    match a
    case Tick(ms) => TickOk(s, ms);
    case SetGrace(setting) => GraceSettingOk(s, setting);
    case MintCode(code, row) => MintOk(s, code, row);
    case DropClient(client) => DropOk(s, a);
    case DropUser(user) => DropOk(s, a);
    case Start(me, request) => if me in s.calls { LaterReflexive(s); } else { StartOk(s, me, request); }
  }

  lemma GraceSettingOk(s: State, setting: Option<nat>)
    requires Inv(s)
    ensures Inv(Apply(s, SetGrace(setting))) && Later(s, Apply(s, SetGrace(setting)))
  {
    RowsStay(s);
    NobodyMoves(s, Apply(s, SetGrace(setting)));
  }

  lemma DropOk(s: State, a: Action)
    requires Inv(s) && (a.DropClient? || a.DropUser?)
    ensures Inv(Apply(s, a)) && Later(s, Apply(s, a))
  {
    RowsStay(s);
    NobodyMoves(s, Apply(s, a));
  }

  lemma TickOk(s: State, ms: nat)
    requires Inv(s)
    ensures Inv(Apply(s, Tick(ms))) && Later(s, Apply(s, Tick(ms)))
  {
    hide Sound;
    RowsStay(s);
    NobodyMoves(s, Apply(s, Tick(ms)));
  }

  lemma MintOk(s: State, code: string, row: Code)
    requires Inv(s)
    ensures Inv(Apply(s, MintCode(code, row))) && Later(s, Apply(s, MintCode(code, row)))
  {
    if code in s.minted {
      LaterReflexive(s);
    } else {
      var t := Apply(s, MintCode(code, row));
      RowsStay(s);
      assert RowsMove(s.rows, t.rows, t.now);
      assert CodesMove(s, t);
      assert SameHistory(s, t);
      assert code !in t.holder;
      NobodyMoves(s, t);
    }
  }

  lemma InitialOk(now: Time, key: Option<nat>, registry: seq<string>)
    ensures Inv(Initial(now, key, registry))
  {
  }

  lemma {:induction false} RunOk(s: State, actions: seq<Action>)
    requires Inv(s)
    ensures Inv(Run(s, actions)) && Later(s, Run(s, actions))
    decreases |actions|
  {
    if actions == [] {
      LaterReflexive(s);
    } else {
      ApplyOk(s, actions[0]);
      RunOk(Apply(s, actions[0]), actions[1..]);
      LaterTransitive(s, Apply(s, actions[0]), Run(s, actions));
    }
  }
}
