/**
 * What the revoke paths of the token endpoint leave behind, with anything
 * running between their statements and after.
 */
module TokenRevokes {
  import opened Wrappers
  import opened TokenStore
  import opened TokenMachine
  import opened TokenInvariant
  import opened TokenPreservation
  import opened TokenEffects
  import opened TokenTheorems

  // ---------- the two statements ----------

  /** Every row the `where` selects that was live is revoked, stamped now; no other row moves. */
  predicate RevokesExactly(s: State, t: State, w: Where) {
    && t.rows.Keys == s.rows.Keys
    && (forall id | id in s.rows ::
          t.rows[id] == if Matches(w, id, s.rows[id]) && !s.rows[id].revoked
                        then s.rows[id].(revoked := true, revokedAt := Some(s.now)) else s.rows[id])
    && (forall id | id in t.rows && Matches(w, id, t.rows[id]) :: t.rows[id].revoked)
  }

  /** The revoke a replay comes to, and the first statement of every revoke path. */
  lemma SweepRevokes(s: State, me: CallId, d: Draw)
    requires me in s.calls && s.calls[me].Sweeping?
    ensures RevokesExactly(s, Apply(s, Step(me, d)), s.calls[me].revoke)
  {
    hide Apply;
    SweepGoesOn(s, me, d);
    RevokedRows(s, s.calls[me].revoke);
  }

  lemma RevokedRows(s: State, w: Where)
    ensures RevokesExactly(s, s.(rows := RevokeWhere(s.rows, w, true, s.now)), w)
  {
    var t := s.(rows := RevokeWhere(s.rows, w, true, s.now));
    forall id | id in s.rows ensures Matches(w, id, t.rows[id]) == Matches(w, id, s.rows[id]) {}
  }

  lemma SweepGoesOn(s: State, me: CallId, d: Draw)
    requires me in s.calls && s.calls[me].Sweeping?
    ensures var c := s.calls[me];
            Apply(s, Step(me, d))
            == Goto(s, me, Erasing(c.revoke, c.erase, c.after, Matching(s.rows, c.revoke)))
               .(rows := RevokeWhere(s.rows, c.revoke, true, s.now))
  {
    hide Apply, RevokeWhere, Matching, StepErasing, StepDisconnecting, StepFindingOne, StepRevokingOne, StepErasingOne;
    RevokeStepIs(s, me, d);
  }

  predicate NoPairIn(rows: Rows, w: Where) {
    forall id | id in rows && Matches(w, id, rows[id]) :: rows[id].graceReplay.None?
  }

  lemma EraseLeavesNone(rows: Rows, w: Where)
    ensures NoPairIn(EraseWhere(rows, w), w)
  {
    forall id | id in rows ensures Matches(w, id, EraseWhere(rows, w)[id]) == Matches(w, id, rows[id]) {}
  }

  // ---------- a family or a user ----------

  /** Every row of `before` that `w` selects and that is still there is dead and holds no pair. */
  predicate SelectedAreOver(before: Rows, w: Where, rows: Rows) {
    forall id | id in before && Matches(w, id, before[id]) && id in rows ::
      rows[id].revoked && rows[id].graceReplay.None?
  }

  /**
   * A revoke path from its first statement to its second, with anything in
   * between and anything after: when it finishes no row in its scope holds a
   * pair, and every row its first statement selected is dead, holds no pair,
   * and stays so.
   */
  lemma RevokePathFinishes(s: State, me: CallId, d: Draw, between: seq<Action>, e: Draw, after: seq<Action>)
    requires Reachable(s) && me in s.calls && s.calls[me].Sweeping? && OthersOnly(between, me)
    ensures var v := Apply(Run(Apply(s, Step(me, d)), between), Step(me, e));
            && NoPairIn(v.rows, s.calls[me].erase)
            && me in v.calls && v.calls[me] == Done(s.calls[me].after, Matching(s.rows, s.calls[me].revoke))
            && SelectedAreOver(s.rows, s.calls[me].revoke, Run(v, after).rows)
  {
    hide Inv, Apply, Run, Reachable, NoPairIn;
    ReachableInv(s);
    var c := s.calls[me];
    var t := Apply(s, Step(me, d));
    ApplyOk(s, Step(me, d));
    SweepGoesOn(s, me, d);
    RunOk(t, between);
    CallStays(t, me, between);
    var u := Run(t, between);
    var cut := Matching(s.rows, c.revoke);
    EraseFinishes(u, me, e, c.revoke, c.erase, c.after, cut, after);
    OverByCut(s.rows, c.revoke, Run(Apply(u, Step(me, e)), after), cut);
  }

  lemma OverByCut(before: Rows, w: Where, t: State, cut: set<Id>)
    requires cut == Matching(before, w) && AllDead(t, cut) && AllBare(t, cut)
    ensures SelectedAreOver(before, w, t.rows)
  {
  }

  lemma EraseFinishes(u: State, me: CallId, e: Draw, revoke: Where, erase: Where, reply: Reply, cut: set<Id>,
                      after: seq<Action>)
    requires Inv(u) && me in u.calls && u.calls[me] == Erasing(revoke, erase, reply, cut)
    ensures var v := Apply(u, Step(me, e));
            && NoPairIn(v.rows, erase) && me in v.calls && v.calls[me] == Done(reply, cut)
            && AllDead(Run(v, after), cut) && AllBare(Run(v, after), cut)
  {
    hide Inv, Apply, Run, NoPairIn, AllDead, AllBare, EraseWhere;
    ApplyOk(u, Step(me, e));
    EraseGoesOn(u, me, e);
    EraseLeavesNone(u.rows, erase);
    CutStays(Apply(u, Step(me, e)), me, reply, cut, after);
  }

  lemma EraseGoesOn(u: State, me: CallId, e: Draw)
    requires me in u.calls && u.calls[me].Erasing?
    ensures var c := u.calls[me];
            Apply(u, Step(me, e)) == Goto(u, me, Done(c.after, c.cut)).(rows := EraseWhere(u.rows, c.erase))
  {
    hide Apply, EraseWhere, StepSweeping, StepDisconnecting, StepFindingOne, StepRevokingOne, StepErasingOne;
    RevokeStepIs(u, me, e);
  }

  lemma CutStays(v: State, me: CallId, reply: Reply, cut: set<Id>, after: seq<Action>)
    requires Inv(v) && me in v.calls && v.calls[me] == Done(reply, cut)
    ensures AllDead(Run(v, after), cut) && AllBare(Run(v, after), cut)
  {
    hide Inv, Run, AllDead, AllBare;
    DoneIsOver(v, me, reply, cut);
    RunOk(v, after);
    DeadStable(v, Run(v, after), cut);
  }

  lemma DoneIsOver(v: State, me: CallId, reply: Reply, cut: set<Id>)
    requires Inv(v) && me in v.calls && v.calls[me] == Done(reply, cut)
    ensures AllDead(v, cut) && AllBare(v, cut)
  {
    hide ChainsOk, BirthsOk, RowsOk, CodesOk, AllDead, AllBare;
    assert CallOk(v, v.calls[me]);
  }

  /** Disconnecting an application does both in one transaction. */
  lemma DisconnectFinishes(s: State, me: CallId, d: Draw, after: seq<Action>)
    requires Reachable(s) && me in s.calls && s.calls[me].Disconnecting?
    ensures var family := ByUserClient(s.calls[me].user, s.calls[me].client);
            var v := Apply(s, Step(me, d));
            && NoPairIn(v.rows, family)
            && (forall id | id in v.rows && Matches(family, id, v.rows[id]) :: v.rows[id].revoked)
            && SelectedAreOver(s.rows, family, Run(v, after).rows)
  {
    hide Inv, Apply, Run, Reachable, NoPairIn, AllDead, AllBare, Disconnected;
    ReachableInv(s);
    ApplyOk(s, Step(me, d));
    DisconnectGoesOn(s, me, d);
    var family := ByUserClient(s.calls[me].user, s.calls[me].client);
    var v := Apply(s, Step(me, d));
    CutStays(v, me, Acknowledged, Matching(s.rows, family), after);
    DisconnectRows(s.rows, family, s.now);
    OverByCut(s.rows, family, Run(v, after), Matching(s.rows, family));
  }

  lemma DisconnectGoesOn(s: State, me: CallId, d: Draw)
    requires me in s.calls && s.calls[me].Disconnecting?
    ensures var family := ByUserClient(s.calls[me].user, s.calls[me].client);
            Apply(s, Step(me, d))
            == Goto(s, me, Done(Acknowledged, Matching(s.rows, family))).(rows := Disconnected(s.rows, family, s.now))
  {
    hide Apply, Matching, Disconnected, StepSweeping, StepErasing, StepDisconnecting, StepFindingOne, StepRevokingOne,
         StepErasingOne;
    RevokeStepIs(s, me, d);
    DisconnectedRows(s, me, s.calls[me].user, s.calls[me].client);
  }

  lemma DisconnectRows(rows: Rows, w: Where, at: Time)
    ensures var after := Disconnected(rows, w, at);
            NoPairIn(after, w) && forall id | id in after && Matches(w, id, after[id]) :: after[id].revoked
  {
    var revoked := RevokeWhere(rows, w, true, at);
    EraseLeavesNone(revoked, w);
    forall id | id in rows
      ensures Matches(w, id, revoked[id]) == Matches(w, id, rows[id])
      ensures Matches(w, id, EraseWhere(revoked, w)[id]) == Matches(w, id, revoked[id])
    {}
  }

  // ---------- one token or one session ----------

  /** The row a single revoke is about: a token of a client, or a session of a user. */
  predicate IsAbout(s: State, find: Where, id: Id) {
    (find.ByLookup? || find.BySession?) && id in s.rows && Matches(find, id, s.rows[id])
  }

  /** It is about one row only. */
  lemma AboutOneRow(s: State, find: Where, id: Id)
    requires Inv(s) && IsAbout(s, find, id)
    ensures Matching(s.rows, find) == {id}
  {
    hide Inv, RowOk, BirthsOk;
    forall i | i in Matching(s.rows, find) ensures i == id {
      RowIsOk(s, i);
      RowIsOk(s, id);
      SameLookup(s, i, id);
    }
  }

  lemma RowIsOk(s: State, id: Id)
    requires Inv(s) && id in s.rows
    ensures BirthsOk(s) && RowOk(s, id)
  {
    hide BirthsOk, RowOk;
  }

  lemma SameLookup(s: State, i: Id, j: Id)
    requires BirthsOk(s) && i in s.rows && j in s.rows && RowOk(s, i) && RowOk(s, j)
    requires s.rows[i].lookup == s.rows[j].lookup
    ensures i == j
  {
  }

  /** What the call does first: it notes the row and its parent, where a pair may be kept. */
  lemma FindOneGoesOn(s: State, me: CallId, d: Draw, find: Where, id: Id)
    requires Inv(s) && me in s.calls && s.calls[me] == FindingOne(find) && IsAbout(s, find, id)
    ensures Apply(s, Step(me, d)) == Goto(s, me, RevokingOne(find, Some(Around(id, s.rows[id]))))
  {
    hide Inv, Apply, Matching, Matches, Around, StepSweeping, StepErasing, StepDisconnecting, StepFindingOne,
         StepRevokingOne, StepErasingOne;
    AboutOneRow(s, find, id);
    RevokeStepIs(s, me, d);
    FindingOneNotes(s, me, find, id);
  }

  lemma FindingOneNotes(s: State, me: CallId, find: Where, id: Id)
    requires Matching(s.rows, find) == {id} && id in s.rows
    ensures StepFindingOne(s, me, find) == Goto(s, me, RevokingOne(find, Some(Around(id, s.rows[id]))))
  {
    hide Matching, Around;
  }

  /** The erasing statement of a single revoke. */
  function EraseAround(find: Where, around: set<Id>): Where {
    if find.ByLookup? then ByIds(around, None, Some(find.client))
    else if find.BySession? then ByIds(around, Some(find.user), None)
    else ByIds(around, None, None)
  }

  lemma RevokeOneGoesOn(u: State, me: CallId, d: Draw, find: Where, around: set<Id>)
    requires me in u.calls && u.calls[me] == RevokingOne(find, Some(around)) && (find.ByLookup? || find.BySession?)
    ensures Apply(u, Step(me, d))
         == Goto(u, me, ErasingOne(EraseAround(find, around)))
            .(rows := RevokeWhere(u.rows, find, !find.BySession?, u.now))
  {
    hide Apply, RevokeWhere, StepSweeping, StepErasing, StepDisconnecting, StepFindingOne, StepErasingOne;
    RevokeStepIs(u, me, d);
  }

  lemma EraseOneGoesOn(w: State, me: CallId, d: Draw, erase: Where)
    requires me in w.calls && w.calls[me] == ErasingOne(erase)
    ensures Apply(w, Step(me, d)) == Goto(w, me, Done(Acknowledged, {})).(rows := EraseWhere(w.rows, erase))
  {
    hide Apply, EraseWhere, StepSweeping, StepErasing, StepDisconnecting, StepFindingOne, StepRevokingOne;
    RevokeStepIs(w, me, d);
  }

  /** The states of a single revoke with others between its statements. */
  function BeforeRevoke(s: State, me: CallId, d: Draw, first: seq<Action>): State {
    Run(Apply(s, Step(me, d)), first)
  }

  function BeforeErase(s: State, me: CallId, d: Draw, first: seq<Action>, e: Draw, second: seq<Action>): State {
    Run(Apply(BeforeRevoke(s, me, d, first), Step(me, e)), second)
  }

  /** The rows around one that was born: itself, and its parent by rotation. */
  function Kin(s: State, id: Id): set<Id>
    requires id in s.born
  {
    if s.born[id].Parent().Some? then {id, s.born[id].Parent().value} else {id}
  }

  /**
   * When the revoke of one token or session finishes, its row is dead for good,
   * and neither it nor its parent holds a pair, ever again.
   */
  lemma RevokeOneFinishes(s: State, me: CallId, d: Draw, first: seq<Action>, e: Draw, second: seq<Action>, f: Draw,
                          after: seq<Action>, find: Where, id: Id)
    requires Reachable(s) && me in s.calls && s.calls[me] == FindingOne(find) && IsAbout(s, find, id)
    requires OthersOnly(first, me) && OthersOnly(second, me)
    ensures var x := Apply(BeforeErase(s, me, d, first, e, second), Step(me, f));
            && me in x.calls && x.calls[me] == Done(Acknowledged, {})
            && id in s.born && AllDead(Run(x, after), Kin(s, id)) && AllBare(Run(x, after), Kin(s, id))
  {
    hide Inv, Apply, Run, Reachable, Around, Kin, AllDead, AllBare, EraseWhere, EraseAround, SelectsBirth, InChain,
         Matching;
    ReachableInv(s);
    AboutBorn(s, find, id);
    DeadBeforeErase(s, me, d, first, e, second, find, id);
    var w := BeforeErase(s, me, d, first, e, second);
    ApplyOk(w, Step(me, f));
    EraseOneGoesOn(w, me, f, EraseAround(find, Kin(s, id)));
    var x := Apply(w, Step(me, f));
    KinIsBare(s, w, x, find, id);
    RunOk(x, after);
    DeadStable(x, Run(x, after), Kin(s, id));
  }

  lemma DeadBeforeErase(s: State, me: CallId, d: Draw, first: seq<Action>, e: Draw, second: seq<Action>, find: Where,
                        id: Id)
    requires Inv(s) && me in s.calls && s.calls[me] == FindingOne(find) && IsAbout(s, find, id)
    requires OthersOnly(first, me) && OthersOnly(second, me)
    ensures var w := BeforeErase(s, me, d, first, e, second);
            && Inv(w) && Later(s, w) && id in s.born && AllDead(w, Kin(s, id))
            && me in w.calls && w.calls[me] == ErasingOne(EraseAround(find, Kin(s, id)))
  {
    hide Inv, Apply, Run, Around, Kin, AllDead, RevokeWhere, EraseAround, SelectsBirth, InChain, Matching;
    AboutBorn(s, find, id);
    FindOneGoesOn(s, me, d, find, id);
    var t := Apply(s, Step(me, d));
    ApplyOk(s, Step(me, d));
    RunOk(t, first);
    CallStays(t, me, first);
    var u := Run(t, first);
    LaterTransitive(s, t, u);
    ApplyOk(u, Step(me, e));
    RevokeOneGoesOn(u, me, e, find, Kin(s, id));
    var v := Apply(u, Step(me, e));
    OneIsDead(s, u, v, find, id);
    LaterTransitive(s, u, v);
    RunOk(v, second);
    CallStays(v, me, second);
    LaterTransitive(s, v, Run(v, second));
    KinStaysDead(s, v, Run(v, second), id);
  }

  /** What a found row says of its birth. */
  lemma AboutBorn(s: State, find: Where, id: Id)
    requires Inv(s) && IsAbout(s, find, id)
    ensures InChain(s, id) && Around(id, s.rows[id]) == Kin(s, id)
    ensures SelectsBirth(find, id, s.born[id])
  {
    assert RowOk(s, id);
  }

  predicate SelectsBirth(find: Where, id: Id, b: Birth) {
    Selects(find, id, b.user, b.client, Hmac(b.tokens.refreshToken))
  }

  /** A row, whenever it is there, has the columns it was born with. */
  lemma RowHasItsBirth(u: State, id: Id)
    requires Inv(u) && id in u.rows
    ensures id in u.born && Agrees(u.rows[id], u.born[id])
  {
    assert RowOk(u, id);
  }

  /** After the revoking statement the row is dead, and its parent was since its rotation. */
  lemma OneIsDead(s: State, u: State, v: State, find: Where, id: Id)
    requires Inv(u) && Inv(v) && Later(s, u) && Later(u, v) && id in s.born && SelectsBirth(find, id, s.born[id])
    requires v.rows == RevokeWhere(u.rows, find, !find.BySession?, u.now)
    ensures AllDead(v, Kin(s, id))
  {
    hide Inv, Later, SelectsBirth, RevokeWhere, Agrees;
    if id in u.rows { RowHasItsBirth(u, id); }
    BornStill(s, u, v, id);
    OnceRevoked(u.rows, find, id, s.born[id], u.now);
    if s.born[id].Parent().Some? { ParentIsDead(v, id); }
  }

  lemma OnceRevoked(rows: Rows, find: Where, id: Id, b: Birth, at: Time)
    requires SelectsBirth(find, id, b) && (id in rows ==> Agrees(rows[id], b))
    ensures var after := RevokeWhere(rows, find, !find.BySession?, at); id in after ==> after[id].revoked
  {
  }

  lemma BornStill(s: State, u: State, v: State, id: Id)
    requires Later(s, u) && Later(u, v) && id in s.born
    ensures id in u.born && id in v.born && u.born[id] == s.born[id] && v.born[id] == s.born[id]
  {
  }

  lemma ParentIsDead(v: State, id: Id)
    requires Inv(v) && id in v.born && v.born[id].Parent().Some?
    ensures v.born[id].Parent().value in v.born
    ensures v.born[id].Parent().value in v.rows ==> v.rows[v.born[id].Parent().value].revoked
  {
    var parent := v.born[id].Parent().value;
    RotationIsLater(v, id);
    if parent in v.rows { assert RowOk(v, parent); }
  }

  lemma KinStaysDead(s: State, v: State, w: State, id: Id)
    requires id in s.born && Later(s, v) && Later(v, w) && AllDead(v, Kin(s, id))
    ensures AllDead(w, Kin(s, id))
  {
    DeadStable(v, w, Kin(s, id));
  }

  lemma KinIsBare(s: State, w: State, x: State, find: Where, id: Id)
    requires Inv(w) && Inv(s) && Later(s, w) && id in s.born && InChain(s, id) && AllDead(w, Kin(s, id))
    requires SelectsBirth(find, id, s.born[id])
    requires find.ByLookup? || find.BySession?
    requires x.born == w.born && x.rows == EraseWhere(w.rows, EraseAround(find, Kin(s, id)))
    ensures AllDead(x, Kin(s, id)) && AllBare(x, Kin(s, id))
  {
    hide Inv, Later, InChain, Kin;
    var erase := EraseAround(find, Kin(s, id));
    forall i | i in Kin(s, id) && i in w.rows ensures Matches(erase, i, w.rows[i]) {
      RowHasItsBirth(w, i);
      KinAgrees(s, w, id, i);
    }
  }

  /** A row and its parent belong to one user and client. */
  lemma KinAgrees(s: State, w: State, id: Id, i: Id)
    requires Inv(s) && Later(s, w) && InChain(s, id) && i in Kin(s, id)
    ensures i in w.born && w.born[i].user == s.born[id].user && w.born[i].client == s.born[id].client
  {
    assert LinkOk(s, id);
  }

  /**
   * What it does to the chain, exactly: the revoking statement kills a chain that
   * is live at the row, and leaves a chain alone whose live end is another row,
   * that is, when the token was rotated before the statement ran.
   */
  lemma RevokeOneKillsItsChain(u: State, me: CallId, d: Draw, find: Where, around: set<Id>, id: Id)
    requires Reachable(u) && me in u.calls && u.calls[me] == RevokingOne(find, Some(around)) && IsAbout(u, find, id)
    ensures var v := Apply(u, Step(me, d));
            && id in u.born && v.chains == u.chains
            && forall c | 0 <= c < |u.chains| ::
                 Abstract(v, c) == if Abstract(u, c) == Live(id) then Dead else Abstract(u, c)
    ensures forall later :: Abstract(u, u.born[id].chain) == Live(id)
                            ==> Abstract(Run(Apply(u, Step(me, d)), later), u.born[id].chain) == Dead
  {
    hide Inv, Apply, Run, Reachable, RevokeWhere, Matching, Abstract, Around, Selects;
    ReachableInv(u);
    ApplyOk(u, Step(me, d));
    AboutBorn(u, find, id);
    AboutOneRow(u, find, id);
    RevokeOneGoesOn(u, me, d, find, around);
    OneRowRevoked(u, find, id);
    var v := Apply(u, Step(me, d));
    forall c | 0 <= c < |u.chains|
      ensures Abstract(v, c) == if Abstract(u, c) == Live(id) then Dead else Abstract(u, c)
    {
      OneChainDies(u, v, id, c);
    }
    forall later | Abstract(u, u.born[id].chain) == Live(id)
      ensures Abstract(Run(v, later), u.born[id].chain) == Dead
    {
      DeadStays(v, later, u.born[id].chain);
    }
  }

  lemma OneRowRevoked(u: State, find: Where, id: Id)
    requires Matching(u.rows, find) == {id}
    ensures var rows := RevokeWhere(u.rows, find, !find.BySession?, u.now);
            && rows.Keys == u.rows.Keys && id in rows && rows[id].revoked
            && forall i | i in u.rows && i != id :: rows[i] == u.rows[i]
  {
    forall i | i in u.rows && i != id ensures !Matches(find, i, u.rows[i]) {
      assert i !in Matching(u.rows, find);
    }
    assert id in Matching(u.rows, find);
  }

  lemma OneChainDies(u: State, v: State, id: Id, c: nat)
    requires v.chains == u.chains && v.rows.Keys == u.rows.Keys && id in v.rows && v.rows[id].revoked
    requires forall i | i in u.rows && i != id :: v.rows[i] == u.rows[i]
    ensures Abstract(v, c) == if Abstract(u, c) == Live(id) then Dead else Abstract(u, c)
  {
  }

  // ---------- signing out everywhere else ----------

  /** The chain has rows, and they are of the user. */
  predicate OwnedChain(s: State, c: nat, user: string) {
    && c < |s.chains| && |s.chains[c]| > 0
    && Last(s.chains[c]) in s.born && s.born[Last(s.chains[c])].user == user
  }

  /**
   * What "sign out everywhere else" spares, exactly: of the user's chains the
   * dead ones and the one that is live at the kept row. So a kept session whose
   * token had rotated before the statement ran is signed out too, for good.
   */
  lemma SignOutElsewhereSparesExactly(s: State, me: CallId, d: Draw, user: string, kept: Id, c: nat)
    requires Reachable(s) && me in s.calls && s.calls[me].Sweeping? && s.calls[me].revoke == ByUserExcept(user, kept)
    requires OwnedChain(s, c, user)
    ensures var t := Apply(s, Step(me, d));
            && t.chains == s.chains
            && Abstract(t, c) == (if Abstract(s, c) == Live(kept) then Live(kept) else Dead)
            && (Abstract(t, c) == Abstract(s, c) <==> Abstract(s, c) == Dead || Abstract(s, c) == Live(kept))
    ensures forall later :: Abstract(s, c) != Live(kept) ==> Abstract(Run(Apply(s, Step(me, d)), later), c) == Dead
  {
    hide Inv, Apply, Run, Reachable, RevokeWhere, Matching, Abstract;
    ReachableInv(s);
    ApplyOk(s, Step(me, d));
    SweepGoesOn(s, me, d);
    var t := Apply(s, Step(me, d));
    SweptChain(s, t, user, kept, c);
    if Abstract(s, c) != Live(kept) {
      forall later ensures Abstract(Run(t, later), c) == Dead { DeadStays(t, later, c); }
    }
  }

  lemma SweptChain(s: State, t: State, user: string, kept: Id, c: nat)
    requires Inv(s) && OwnedChain(s, c, user) && t.chains == s.chains
    requires t.rows == RevokeWhere(s.rows, ByUserExcept(user, kept), true, s.now)
    ensures Abstract(t, c) == (if Abstract(s, c) == Live(kept) then Live(kept) else Dead)
  {
    hide Inv, RevokeWhere;
    var tail := Last(s.chains[c]);
    if tail in s.rows {
      RowHasItsBirth(s, tail);
      SweptRow(s.rows, tail, user, user, kept, s.now);
    }
    SameKeys(s.rows, ByUserExcept(user, kept), s.now);
  }

  lemma SameKeys(rows: Rows, w: Where, at: Time)
    ensures RevokeWhere(rows, w, true, at).Keys == rows.Keys
  {
  }

  lemma SweptRow(rows: Rows, id: Id, owner: string, user: string, kept: Id, at: Time)
    requires id in rows && rows[id].user == owner
    ensures var after := RevokeWhere(rows, ByUserExcept(user, kept), true, at);
            id in after && (after[id].revoked <==> rows[id].revoked || (owner == user && id != kept))
  {
  }

  /** And no chain of another user moves. */
  lemma SignOutElsewhereIsOneUsers(s: State, me: CallId, d: Draw, user: string, kept: Id, other: string, c: nat)
    requires Reachable(s) && me in s.calls && s.calls[me].Sweeping? && s.calls[me].revoke == ByUserExcept(user, kept)
    requires OwnedChain(s, c, other) && other != user
    ensures Abstract(Apply(s, Step(me, d)), c) == Abstract(s, c)
  {
    hide Inv, Apply, Reachable, RevokeWhere, Matching, Abstract;
    ReachableInv(s);
    SweepGoesOn(s, me, d);
    OthersChain(s, Apply(s, Step(me, d)), user, kept, other, c);
  }

  lemma OthersChain(s: State, t: State, user: string, kept: Id, other: string, c: nat)
    requires Inv(s) && OwnedChain(s, c, other) && other != user && t.chains == s.chains
    requires t.rows == RevokeWhere(s.rows, ByUserExcept(user, kept), true, s.now)
    ensures Abstract(t, c) == Abstract(s, c)
  {
    hide Inv, RevokeWhere;
    var tail := Last(s.chains[c]);
    if tail in s.rows {
      RowHasItsBirth(s, tail);
      SweptRow(s.rows, tail, other, user, kept, s.now);
    }
    SameKeys(s.rows, ByUserExcept(user, kept), s.now);
  }
}
