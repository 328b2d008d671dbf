/**
 * When a replayed refresh token comes to the family revoke (src/oauth/refresh-grant.ts):
 * the grace is of the rotation, but what it reads is the stamp on the row, and a
 * session revoke stamps a revoked row again.
 */
module TokenReplays {
  import opened Wrappers
  import opened TokenStore
  import opened TokenMachine
  import opened TokenInvariant
  import opened TokenPreservation
  import opened TokenEffects
  import opened TokenTheorems
  import opened TokenRevokes
  import Authority

  /** The action is the revoking statement of a session revoke of the row. */
  predicate Stamps(s: State, a: Action, id: Id) {
    && a.Step? && a.me in s.calls && s.calls[a.me].RevokingOne?
    && s.calls[a.me].find.BySession? && s.calls[a.me].find.id == id
  }

  /** No session revoke stamps the row from this time on. */
  ghost predicate NoStampSince(s: State, actions: seq<Action>, id: Id, since: Time)
    decreases |actions|
  {
    actions == [] ||
    (!(Stamps(s, actions[0], id) && since <= s.now) && NoStampSince(Apply(s, actions[0]), actions[1..], id, since))
  }

  // ---------- what a step does to the stamp of a revoked row ----------

  /** The row, if it is still there, has the stamp it had. */
  predicate KeepsStamp(before: Rows, after: Rows, id: Id) {
    id in after ==>
      id in before && (before[id].revoked ==> after[id].revoked && after[id].revokedAt == before[id].revokedAt)
  }

  lemma SameRowsKeep(rows: Rows, id: Id)
    ensures KeepsStamp(rows, rows, id)
  {
  }

  lemma ClaimKeepsStamp(s: State, me: CallId, snap: Snap, bounds: Authority.Bounds, sealMs: nat, d: Draw, id: Id)
    requires id in s.born
    ensures KeepsStamp(s.rows, StepClaiming(s, me, snap, bounds, sealMs, d).rows, id)
  {
    hide Extend, ChildBirth, NewRow;
  }

  lemma RefreshKeepsStamp(s: State, me: CallId, c: Call, d: Draw, id: Id)
    requires IsRefresh(c) && id in s.born
    ensures KeepsStamp(s.rows, StepRefresh(s, me, c, d).rows, id)
  {
    hide StepClaiming, KeepsStamp, WithLookup, Least, Authority.RefreshBounds;
    SameRowsKeep(s.rows, id);
    if c.Claiming? { ClaimKeepsStamp(s, me, c.snap, c.bounds, c.sealMs, d, id); }
  }

  lemma EraseKeeps(rows: Rows, w: Where, id: Id)
    ensures KeepsStamp(rows, EraseWhere(rows, w), id)
  {
  }

  lemma TouchKeeps(rows: Rows, child: Id, at: Time, id: Id)
    ensures KeepsStamp(rows, TouchLive(rows, child, at), id)
  {
  }

  lemma GraceKeepsStamp(s: State, me: CallId, c: Call, id: Id)
    requires IsGrace(c)
    ensures KeepsStamp(s.rows, StepGrace(s, me, c).rows, id)
  {
    hide AfterErase, NoPair, ChildrenOf, OpenReplay, Overdue, Least, KeepsStamp, EraseWhere, TouchLive, LiveAt;
    SameRowsKeep(s.rows, id);
    if c.GraceErase? { EraseKeeps(s.rows, ByIds({c.snap.id}, None, None), id); }
    if c.ChildTouch? { TouchKeeps(s.rows, c.child, c.at, id); }
  }

  /** A session revoke has no filter on live rows. */
  lemma RevokeKeepsStamp(s: State, me: CallId, c: Call, id: Id)
    requires IsRevoke(c)
    ensures var after := StepRevoke(s, me, c).rows;
            || KeepsStamp(s.rows, after, id)
            || (c.RevokingOne? && c.find.BySession? && c.find.id == id
                && id in s.rows && after[id].revoked && after[id].revokedAt == Some(s.now))
  {
    hide Matching, Around, Least;
  }

  lemma InsertKeeps(s: State, root: Id, b: Birth, id: Id)
    requires root != id
    ensures KeepsStamp(s.rows, InsertRoot(s, root, b).rows, id)
  {
  }

  lemma GrantKeepsStamp(s: State, me: CallId, c: Call, d: Draw, id: Id)
    requires IsGrant(c) && id in s.born
    ensures KeepsStamp(s.rows, StepGranting(s, me, c, d).rows, id)
  {
    hide Claimable, PkceOk, AudienceOk, KeepsStamp, Issue, InsertRoot;
    SameRowsKeep(s.rows, id);
    forall b | d.id != id ensures KeepsStamp(s.rows, InsertRoot(s, d.id, b).rows, id) { InsertKeeps(s, d.id, b, id); }
  }

  lemma CleanKeepsStamp(s: State, me: CallId, c: Call, id: Id)
    requires IsClean(c)
    ensures KeepsStamp(s.rows, StepClean(s, me, c).rows, id)
  {
    hide DeleteExpiredCodes;
  }

  /** After an action a revoked row has its old stamp, or the one a session revoke gives it now. */
  lemma StampMoves(s: State, a: Action, id: Id)
    requires id in s.born && id in Apply(s, a).rows
    ensures id in s.rows
    ensures s.rows[id].revoked ==>
              var row := Apply(s, a).rows[id];
              && row.revoked
              && (row.revokedAt == s.rows[id].revokedAt || (Stamps(s, a, id) && row.revokedAt == Some(s.now)))
  {
    if a.Step? && a.me in s.calls {
      var c := s.calls[a.me];
      StepIs(s, a.me, a.draw);
      hide Apply, StepRefresh, StepGrace, StepRevoke, StepGranting, StepClean;
      if IsRefresh(c) {
        RefreshKeepsStamp(s, a.me, c, a.draw, id);
      } else if IsGrace(c) {
        GraceKeepsStamp(s, a.me, c, id);
      } else if IsRevoke(c) {
        RevokeKeepsStamp(s, a.me, c, id);
      } else if IsGrant(c) {
        GrantKeepsStamp(s, a.me, c, a.draw, id);
      } else {
        CleanKeepsStamp(s, a.me, c, id);
      }
    } else {
      hide StepCall;
    }
  }

  // ---------- where a call's snapshot comes from ----------

  /** A call in the grace has the snapshot it had, or has just read the row. */
  predicate SnapFrom(s: State, c: Call, next: Call) {
    IsGrace(next) ==>
      || (IsGrace(c) && next.snap == c.snap)
      || (next.snap.id in s.rows && next.snap.row == s.rows[next.snap.id])
  }

  /** Nothing but the call moved, to where it may have this snapshot. */
  predicate GoesOn(s: State, t: State, me: CallId, c: Call) {
    me in t.calls && SnapFrom(s, c, t.calls[me])
  }

  lemma FindingGoesOn(s: State, me: CallId, token: string, client: string, bound: Option<Authority.Client>)
    ensures GoesOn(s, StepFinding(s, me, token, client, bound), me, Finding(token, client, bound))
  {
    hide Least;
  }

  lemma LoadedGoesOn(s: State, me: CallId, snap: Snap, bound: Option<Authority.Client>)
    ensures GoesOn(s, StepLoaded(s, me, snap, bound), me, Loaded(snap, bound))
  {
    hide Authority.RefreshBounds;
  }

  lemma ClaimingGoesOn(s: State, me: CallId, snap: Snap, bounds: Authority.Bounds, sealMs: nat, d: Draw)
    ensures GoesOn(s, StepClaiming(s, me, snap, bounds, sealMs, d), me, Claiming(snap, bounds, sealMs))
  {
    hide ClaimedRows, Fresh, Extend;
  }

  lemma RefindingGoesOn(s: State, me: CallId, id: Id)
    ensures GoesOn(s, StepRefinding(s, me, id), me, Refinding(id))
  {
  }

  lemma RefreshSnap(s: State, me: CallId, c: Call, d: Draw)
    requires IsRefresh(c)
    ensures GoesOn(s, StepRefresh(s, me, c, d), me, c)
  {
    hide StepFinding, StepLoaded, StepClaiming, StepRefinding, GoesOn;
    match c
    case Finding(token, client, bound) => FindingGoesOn(s, me, token, client, bound);
    case Loaded(snap, bound) => LoadedGoesOn(s, me, snap, bound);
    case Claiming(snap, bounds, sealMs) => ClaimingGoesOn(s, me, snap, bounds, sealMs, d);
    case Refinding(id) => RefindingGoesOn(s, me, id);
  }

  lemma AfterEraseSnap(s: State, snap: Snap, why: Why, at: Time)
    ensures var next := AfterErase(s, snap, why, at); IsGrace(next) ==> next.snap == snap
  {
    hide WithinGrace, NoPair;
  }

  lemma BeginGoesOn(s: State, me: CallId, snap: Snap, why: Why)
    ensures GoesOn(s, StepGraceBegin(s, me, snap, why), me, GraceBegin(snap, why))
  {
    hide AfterErase, Overdue;
    AfterEraseSnap(s, snap, why, s.now);
  }

  lemma EraseGoesOnWith(s: State, me: CallId, snap: Snap, why: Why, at: Time)
    ensures GoesOn(s, StepGraceErase(s, me, snap, why, at), me, GraceErase(snap, why, at))
  {
    hide AfterErase, EraseWhere;
    AfterEraseSnap(s, snap, why, at);
  }

  lemma FindGoesOnWith(s: State, me: CallId, snap: Snap, why: Why, at: Time, window: nat)
    ensures GoesOn(s, StepChildFind(s, me, snap, why, at, window), me, ChildFind(snap, why, at, window))
  {
    hide ChildrenOf, Least, NoPair;
  }

  lemma TouchGoesOn(s: State, me: CallId, snap: Snap, why: Why, at: Time, window: nat, child: Id)
    ensures GoesOn(s, StepChildTouch(s, me, snap, why, at, child), me, ChildTouch(snap, why, at, window, child))
  {
    hide LiveAt, OpenReplay, NoPair, TouchLive;
  }

  lemma CountGoesOn(s: State, me: CallId, snap: Snap, why: Why, at: Time, child: Id)
    ensures GoesOn(s, StepChildCount(s, me, snap, why, child), me, ChildCount(snap, why, at, child))
  {
    hide ChildrenOf, NoPair;
  }

  lemma GraceSnap(s: State, me: CallId, c: Call)
    requires IsGrace(c)
    ensures GoesOn(s, StepGrace(s, me, c), me, c)
  {
    hide StepGraceBegin, StepGraceErase, StepChildFind, StepChildTouch, StepChildCount, GoesOn;
    match c
    case GraceBegin(snap, why) => BeginGoesOn(s, me, snap, why);
    case GraceErase(snap, why, at) => EraseGoesOnWith(s, me, snap, why, at);
    case ChildFind(snap, why, at, window) => FindGoesOnWith(s, me, snap, why, at, window);
    case ChildTouch(snap, why, at, window, child) => TouchGoesOn(s, me, snap, why, at, window, child);
    case ChildCount(snap, why, at, child) => CountGoesOn(s, me, snap, why, at, child);
  }

  lemma RevokeSnap(s: State, me: CallId, c: Call)
    requires IsRevoke(c)
    ensures GoesOn(s, StepRevoke(s, me, c), me, c)
  {
    hide Matching, RevokeWhere, EraseWhere, Around, Least;
  }

  lemma ClaimLeavesGrace(s: State, me: CallId, i: CodeInput)
    ensures GoesOn(s, StepCodeClaim(s, me, i), me, CodeClaim(i))
  {
    hide Claimable;
  }

  lemma ReadLeavesGrace(s: State, me: CallId, i: CodeInput)
    ensures GoesOn(s, StepCodeRead(s, me, i), me, CodeRead(i))
  {
    hide PkceOk, AudienceOk;
  }

  lemma CheckLeavesGrace(s: State, me: CallId, code: string)
    ensures GoesOn(s, StepCodeCheck(s, me, code), me, CodeCheck(code))
  {
  }

  lemma IssueLeavesGrace(s: State, me: CallId, origin: Origin, user: string, client: string, scope: string,
                         resource: Option<Authority.Uri>, d: Draw, c: Call)
    ensures GoesOn(s, StepGrant(s, me, origin, user, client, scope, resource, d), me, c)
  {
    hide Fresh, InsertRoot;
  }

  lemma GrantSnap(s: State, me: CallId, c: Call, d: Draw)
    requires IsGrant(c)
    ensures GoesOn(s, StepGranting(s, me, c, d), me, c)
  {
    hide StepCodeClaim, StepCodeRead, StepCodeCheck, StepGrant, GoesOn;
    match c
    case CodeClaim(input) => ClaimLeavesGrace(s, me, input);
    case CodeRead(input) => ReadLeavesGrace(s, me, input);
    case CodeCheck(code) => CheckLeavesGrace(s, me, code);
    case CodeIssue(code, row) =>
      IssueLeavesGrace(s, me, FromCode(code), row.user, row.client, row.scope, row.resource, d, c);
    case Granting(user, client, scope, resource) =>
      IssueLeavesGrace(s, me, FromDevice, user, client, scope, resource, d, c);
  }

  lemma CleanSnap(s: State, me: CallId, c: Call)
    requires IsClean(c) && me in s.calls && s.calls[me] == c
    ensures GoesOn(s, StepClean(s, me, c), me, c)
  {
    hide DeleteExpired, EraseExpired, DeleteExpiredCodes;
  }

  lemma StepSnap(s: State, me: CallId, d: Draw)
    requires me in s.calls
    ensures GoesOn(s, Apply(s, Step(me, d)), me, s.calls[me])
  {
    var c := s.calls[me];
    StepIs(s, me, d);
    hide Apply, StepRefresh, StepGrace, StepRevoke, StepGranting, StepClean, GoesOn;
    if IsRefresh(c) {
      RefreshSnap(s, me, c, d);
    } else if IsGrace(c) {
      GraceSnap(s, me, c);
    } else if IsRevoke(c) {
      RevokeSnap(s, me, c);
    } else if IsGrant(c) {
      GrantSnap(s, me, c, d);
    } else {
      CleanSnap(s, me, c);
    }
  }

  // ---------- a rotation of long ago ----------

  /** The row, and every revoked snapshot of it, was stamped before this time. */
  ghost predicate OldStamp(s: State, id: Id, since: Time) {
    && id in s.born
    && (id in s.rows ==> StampedBefore(s.rows[id], since))
    && (forall me | me in s.calls && IsGrace(s.calls[me]) && s.calls[me].snap.id == id ::
          StampedBefore(s.calls[me].snap.row, since))
  }

  predicate StampedBefore(row: Row, since: Time) {
    row.revoked && row.revokedAt.Some? && row.revokedAt.value < since
  }

  lemma OldStampStep(s: State, a: Action, id: Id, since: Time)
    requires Inv(s) && OldStamp(s, id, since) && !(Stamps(s, a, id) && since <= s.now)
    ensures OldStamp(Apply(s, a), id, since)
  {
    hide Apply, Inv, Stamps, SnapFrom, Later;
    var t := Apply(s, a);
    BornStays(s, a, id);
    if id in t.rows { StampMoves(s, a, id); }
    forall me | me in t.calls && IsGrace(t.calls[me]) && t.calls[me].snap.id == id
      ensures StampedBefore(t.calls[me].snap.row, since)
    {
      CallFrom(s, a, me);
    }
  }

  lemma BornStays(s: State, a: Action, id: Id)
    requires Inv(s) && id in s.born
    ensures id in Apply(s, a).born
  {
    hide Apply, Inv;
    ApplyOk(s, a);
  }

  /** A call in the grace has the snapshot it had, or one of the row as it is. */
  lemma CallFrom(s: State, a: Action, me: CallId)
    requires me in Apply(s, a).calls && IsGrace(Apply(s, a).calls[me])
    ensures var next := Apply(s, a).calls[me];
            || (me in s.calls && IsGrace(s.calls[me]) && next.snap == s.calls[me].snap)
            || (next.snap.id in s.rows && next.snap.row == s.rows[next.snap.id])
  {
    hide Apply;
    if me !in s.calls {
      NewCall(s, a, me);
    } else if a.Step? && a.me == me {
      StepSnap(s, me, a.draw);
    } else {
      ApplyEffect(s, a, me);
    }
  }

  lemma NewCall(s: State, a: Action, me: CallId)
    requires me !in s.calls && me in Apply(s, a).calls
    ensures !IsGrace(Apply(s, a).calls[me])
  {
    hide StepCall;
    if a.Step? && a.me in s.calls { StepMoves(s, a.me, s.calls[a.me], a.draw); }
  }

  lemma {:induction false} OldStampRun(s: State, actions: seq<Action>, id: Id, since: Time)
    requires Inv(s) && OldStamp(s, id, since) && NoStampSince(s, actions, id, since)
    ensures OldStamp(Run(s, actions), id, since)
    decreases |actions|
  {
    if actions != [] {
      hide Apply, Inv, OldStamp, Stamps;
      ApplyOk(s, actions[0]);
      OldStampStep(s, actions[0], id, since);
      OldStampRun(Apply(s, actions[0]), actions[1..], id, since);
    }
  }

  /** A rotation: the claim inserted a child of the row. */
  predicate Rotates(s: State, me: CallId, d: Draw, id: Id) {
    && me in s.calls && s.calls[me].Claiming? && s.calls[me].snap.id == id
    && Apply(s, Step(me, d)).born != s.born
  }

  lemma ClaimedStamp(s: State, snap: Snap, sealMs: nat, id: Id, b: Birth)
    requires snap.id in s.rows && id != snap.id
    ensures var rows := ClaimedRows(s, snap, sealMs, id, b);
            snap.id in rows && rows[snap.id].revoked && rows[snap.id].revokedAt == Some(s.now)
  {
  }

  lemma ClaimStampsNow(s: State, me: CallId, d: Draw, id: Id)
    requires Rotates(s, me, d, id) && id in s.born
    ensures id in s.rows && !s.rows[id].revoked
    ensures var t := Apply(s, Step(me, d));
            && me in t.calls && t.calls[me].Done?
            && id in t.rows && t.rows[id].revoked && t.rows[id].revokedAt == Some(s.now)
  {
    hide Apply, ClaimedRows, StepFinding, StepLoaded, StepRefinding, Extend;
    RefreshStepIs(s, me, d);
    var c := s.calls[me];
    if id in s.rows && d.id != id {
      ClaimedStamp(s, c.snap, c.sealMs, d.id, ChildBirth(s, c.snap, c.bounds, d));
    }
  }

  /** No call in the grace has a snapshot of a row that is live. */
  lemma NoSnapOfLive(s: State, o: CallId)
    requires Inv(s) && o in s.calls && IsGrace(s.calls[o])
    ensures s.calls[o].snap.id in s.rows ==> s.rows[s.calls[o].snap.id].revoked
  {
    hide ChainsOk, BirthsOk, RowsOk, CodesOk, KeptOk, Agrees, InChain;
    assert CallOk(s, s.calls[o]);
  }

  lemma ClaimedWasBorn(s: State, me: CallId, id: Id)
    requires Inv(s) && me in s.calls && s.calls[me].Claiming? && s.calls[me].snap.id == id
    ensures id in s.born
  {
    assert CallOk(s, s.calls[me]);
  }

  lemma RotationStamps(s: State, me: CallId, d: Draw, id: Id, since: Time)
    requires Inv(s) && Rotates(s, me, d, id) && s.now < since
    ensures Inv(Apply(s, Step(me, d))) && OldStamp(Apply(s, Step(me, d)), id, since)
  {
    hide Apply, Inv, Later;
    ClaimedWasBorn(s, me, id);
    ApplyOk(s, Step(me, d));
    BornStays(s, Step(me, d), id);
    ClaimStampsNow(s, me, d, id);
    var t := Apply(s, Step(me, d));
    forall o | o in t.calls && IsGrace(t.calls[o]) ensures t.calls[o].snap.id != id {
      if o in s.calls { ApplyEffect(s, Step(me, d), o); NoSnapOfLive(s, o); } else { NewCall(s, Step(me, d), o); }
    }
  }

  // ---------- the decision ----------

  /** Where the call stands when its decision on the grace is made: at once, or after an overdue pair is erased. */
  function Decided(u: State, me: CallId, e: Draw, between: seq<Action>, f: Draw): State
    requires me in u.calls && u.calls[me].GraceBegin?
  {
    var v := Apply(u, Step(me, e));
    if Overdue(u.calls[me].snap.row, u.now) then Apply(Run(v, between), Step(me, f)) else v
  }

  /** The window the decision reads. */
  function WindowRead(u: State, me: CallId, e: Draw, between: seq<Action>): nat
    requires me in u.calls && u.calls[me].GraceBegin?
  {
    if Overdue(u.calls[me].snap.row, u.now) then Run(Apply(u, Step(me, e)), between).windowMs else u.windowMs
  }

  lemma BeginDecidesNow(u: State, me: CallId, e: Draw)
    requires me in u.calls && u.calls[me].GraceBegin?
    ensures var c := u.calls[me]; var v := Apply(u, Step(me, e));
            && me in v.calls && v.windowMs == u.windowMs && v.key == u.key
            && v.calls[me] == if Overdue(c.snap.row, u.now) then GraceErase(c.snap, c.why, u.now)
                              else AfterErase(u, c.snap, c.why, u.now)
  {
    hide Apply, StepGraceErase, StepChildFind, StepChildTouch, StepChildCount, AfterErase, Overdue;
    GraceStepIs(u, me, e);
  }

  lemma EraseDecidesNow(w: State, me: CallId, f: Draw)
    requires me in w.calls && w.calls[me].GraceErase?
    ensures var c := w.calls[me]; var x := Apply(w, Step(me, f));
            me in x.calls && x.calls[me] == AfterErase(w, c.snap, c.why, c.at)
  {
    hide Apply, StepGraceBegin, StepChildFind, StepChildTouch, StepChildCount, AfterErase, EraseWhere;
    GraceStepIs(w, me, f);
  }

  /** The decision, whole: by the stamp on the snapshot, the key and the window read. */
  lemma DecidesByStamp(u: State, me: CallId, e: Draw, between: seq<Action>, f: Draw)
    requires Inv(u) && me in u.calls && u.calls[me].GraceBegin? && OthersOnly(between, me)
    ensures var c := u.calls[me]; var x := Decided(u, me, e, between, f);
            && me in x.calls
            && x.calls[me] == if u.key.None? || !WithinGrace(c.snap.row, WindowRead(u, me, e, between), u.now)
                              then NoPair(c.snap, c.why)
                              else ChildFind(c.snap, c.why, u.now, WindowRead(u, me, e, between))
  {
    hide Apply, Run, Inv, Overdue, WithinGrace, NoPair;
    BeginDecidesNow(u, me, e);
    var v := Apply(u, Step(me, e));
    if Overdue(u.calls[me].snap.row, u.now) {
      ApplyOk(u, Step(me, e));
      RunOk(v, between);
      CallStays(v, me, between);
      EraseDecidesNow(Run(v, between), me, f);
    }
  }

  /** A stamp from before the window is outside the grace. */
  lemma OldStampIsOver(row: Row, window: nat, now: Time)
    requires StampedBefore(row, now - window)
    ensures !WithinGrace(row, window, now)
  {
  }

  lemma OldIsTheft(u: State, id: Id, me: CallId, e: Draw, between: seq<Action>, f: Draw)
    requires Inv(u) && me in u.calls && u.calls[me].GraceBegin? && u.calls[me].why == Replay
    requires u.calls[me].snap.id == id
    requires OthersOnly(between, me) && OldStamp(u, id, u.now - WindowRead(u, me, e, between))
    ensures var x := Decided(u, me, e, between, f);
            me in x.calls && x.calls[me] == NoPair(u.calls[me].snap, Replay) && x.calls[me].Sweeping?
  {
    hide Inv, Apply, Run, Decided, WindowRead, WithinGrace, StampedBefore;
    DecidesByStamp(u, me, e, between, f);
    OldStampIsOver(u.calls[me].snap.row, WindowRead(u, me, e, between), u.now);
  }

  /** A rotation of the row, and later a replay of it that is about to be judged. */
  ghost predicate ReplayedLater(s: State, r: CallId, d: Draw, id: Id, later: seq<Action>, me: CallId) {
    && Rotates(s, r, d, id)
    && var u := Run(Apply(s, Step(r, d)), later);
       me in u.calls && u.calls[me].GraceBegin? && u.calls[me].why == Replay && u.calls[me].snap.id == id
  }

  /**
   * The theft verdict on an old token. Take a rotation of a row, and a replay of
   * that row judged after it: if the rotation is older than the window that is
   * read then, the replay comes to the family revoke, whatever ran in between,
   * unless a session revoke of that very row ran within the window.
   */
  lemma OldReplayIsTheft(s: State, r: CallId, d: Draw, id: Id, later: seq<Action>, me: CallId, e: Draw,
                         between: seq<Action>, f: Draw)
    requires Reachable(s) && ReplayedLater(s, r, d, id, later, me) && OthersOnly(between, me)
    requires var u := Run(Apply(s, Step(r, d)), later);
             var since := u.now - WindowRead(u, me, e, between);
             s.now < since && NoStampSince(Apply(s, Step(r, d)), later, id, since)
    ensures var u := Run(Apply(s, Step(r, d)), later); var x := Decided(u, me, e, between, f);
            me in x.calls && x.calls[me] == NoPair(u.calls[me].snap, Replay) && x.calls[me].Sweeping?
  {
    hide Inv, Apply, Run, Reachable, NoStampSince, Decided, WindowRead, Rotates, OldStamp, NoPair, OthersOnly;
    ReachableInv(s);
    var t := Apply(s, Step(r, d));
    var u := Run(t, later);
    var since := u.now - WindowRead(u, me, e, between);
    RotationStamps(s, r, d, id, since);
    OldStampRun(t, later, id, since);
    RunOk(t, later);
    OldIsTheft(u, id, me, e, between, f);
  }

  // ---------- within the window ----------

  function FourSteps(u: State, me: CallId, d: Draw): State {
    Apply(Apply(Apply(Apply(u, Step(me, d)), Step(me, d)), Step(me, d)), Step(me, d))
  }

  /** The row's child in the table is not live, and has a child of its own there. */
  predicate ChildMovedOn(rows: Rows, snap: Snap, child: Id, at: Time) {
    && ChildrenOf(rows, snap.id, snap.row.user, snap.row.client) == {child}
    && !LiveAt(rows, child, at)
    && ChildrenOf(rows, child, snap.row.user, snap.row.client) != {}
  }

  /** Judged within the window, by the stamp, a replay whose child has rotated is refused and revokes nothing. */
  lemma ReplayWithinWindowIsSpared(u: State, me: CallId, d: Draw, child: Id)
    requires me in u.calls && u.calls[me].GraceBegin? && u.key.Some?
    requires WithinGrace(u.calls[me].snap.row, u.windowMs, u.now) && !Overdue(u.calls[me].snap.row, u.now)
    requires ChildMovedOn(u.rows, u.calls[me].snap, child, u.now)
    ensures FourSteps(u, me, d) == Goto(u, me, Done(Refused(AlreadyRotated), {}))
  {
    hide Apply, Goto, ChildrenOf, LiveAt, WithinGrace, Overdue;
    var snap, why, at, window := u.calls[me].snap, u.calls[me].why, u.now, u.windowMs;
    BeginsToFind(u, me, d);
    FindsToTouch(u, me, d, snap, why, at, window, child);
    TouchesToCount(u, me, d, snap, why, at, window, child);
    CountsToDone(u, me, d, snap, why, at, child);
  }

  lemma BeginsToFind(u: State, me: CallId, d: Draw)
    requires me in u.calls && u.calls[me].GraceBegin? && u.key.Some?
    requires WithinGrace(u.calls[me].snap.row, u.windowMs, u.now) && !Overdue(u.calls[me].snap.row, u.now)
    ensures Apply(u, Step(me, d)) == Goto(u, me, ChildFind(u.calls[me].snap, u.calls[me].why, u.now, u.windowMs))
  {
    hide Apply, WithinGrace, Overdue, StepGraceErase, StepChildFind, StepChildTouch, StepChildCount;
    GraceStepIs(u, me, d);
  }

  lemma FindsToTouch(u: State, me: CallId, d: Draw, snap: Snap, why: Why, at: Time, window: nat, child: Id)
    requires ChildrenOf(u.rows, snap.id, snap.row.user, snap.row.client) == {child}
    ensures Apply(Goto(u, me, ChildFind(snap, why, at, window)), Step(me, d))
         == Goto(u, me, ChildTouch(snap, why, at, window, child))
  {
    hide Apply, ChildrenOf, StepGraceBegin, StepGraceErase, StepChildFind, StepChildTouch, StepChildCount;
    var v := Goto(u, me, ChildFind(snap, why, at, window));
    GraceStepIs(v, me, d);
    FindGoesOn(v, me, snap, why, at, window, child);
    GotoAgain(u, me, ChildFind(snap, why, at, window), ChildTouch(snap, why, at, window, child));
  }

  lemma TouchesToCount(u: State, me: CallId, d: Draw, snap: Snap, why: Why, at: Time, window: nat, child: Id)
    requires !LiveAt(u.rows, child, at)
    ensures Apply(Goto(u, me, ChildTouch(snap, why, at, window, child)), Step(me, d))
         == Goto(u, me, ChildCount(snap, why, at, child))
  {
    hide Apply, LiveAt, StepGraceBegin, StepGraceErase, StepChildFind, StepChildCount, OpenReplay;
    GraceStepIs(Goto(u, me, ChildTouch(snap, why, at, window, child)), me, d);
    GotoAgain(u, me, ChildTouch(snap, why, at, window, child), ChildCount(snap, why, at, child));
  }

  lemma CountsToDone(u: State, me: CallId, d: Draw, snap: Snap, why: Why, at: Time, child: Id)
    requires ChildrenOf(u.rows, child, snap.row.user, snap.row.client) != {}
    ensures Apply(Goto(u, me, ChildCount(snap, why, at, child)), Step(me, d))
         == Goto(u, me, Done(Refused(AlreadyRotated), {}))
  {
    hide Apply, ChildrenOf, StepGraceBegin, StepGraceErase, StepChildFind, StepChildTouch, NoPair;
    GraceStepIs(Goto(u, me, ChildCount(snap, why, at, child)), me, d);
    GotoAgain(u, me, ChildCount(snap, why, at, child), Done(Refused(AlreadyRotated), {}));
  }

  lemma GotoAgain(s: State, me: CallId, a: Call, b: Call)
    ensures Goto(Goto(s, me, a), me, b) == Goto(s, me, b)
  {
    assert s.calls[me := a][me := b] == s.calls[me := b];
  }
}
