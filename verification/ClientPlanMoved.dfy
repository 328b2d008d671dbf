/**
 * The plan of scripts/clients-apply.ts applied to a table that has moved since
 * it was read: secrets are minted and delivered between the read and the
 * transaction.
 */
module ClientPlanMoved {
  import opened Wrappers
  import opened ClientPlan

  // ---------- when the transaction commits ----------

  lemma {:induction false} CreatesExactly(t: Table, rows: seq<ClientRow>)
    requires Distinct(rows)
    ensures WithCreated(t, rows).Some? <==> forall r | r in rows :: r.clientId !in t
    ensures WithCreated(t, rows).Some? ==> HasCreated(t, rows, WithCreated(t, rows).value)
  {
    if rows != [] {
      var n := |rows| - 1;
      CreatesExactly(t, rows[..n]);
      IdsSnoc(rows);
      if WithCreated(t, rows[..n]).Some? && rows[n].clientId !in t {
        CreateCommits(t, rows);
      }
      assert rows[n] in rows;
    }
  }

  predicate DistinctUpdates(us: seq<Update>) {
    forall i, j | 0 <= i < j < |us| :: us[i].clientId != us[j].clientId
  }

  /** Each updated row has its changes put over what is there, and no other row moves. */
  predicate HasUpdated(t: Table, us: seq<Update>, t': Table) {
    && t'.Keys == t.Keys
    && (forall u | u in us :: u.clientId in t && t'[u.clientId] == PutAll(t[u.clientId], MANAGED_FIELDS, u.changes))
    && (forall id | id in t && (forall u | u in us :: u.clientId != id) :: t'[id] == t[id])
  }

  lemma {:induction false} UpdatesExactly(t: Table, us: seq<Update>)
    requires DistinctUpdates(us)
    ensures WithUpdated(t, us).Some? <==> forall u | u in us :: u.clientId in t
    ensures WithUpdated(t, us).Some? ==> HasUpdated(t, us, WithUpdated(t, us).value)
  {
    if us != [] {
      var n := |us| - 1;
      UpdatesExactly(t, us[..n]);
      assert us == us[..n] + [us[n]];
      if WithUpdated(t, us[..n]).Some? && us[n].clientId in t {
        UpdatesOneMore(t, us[..n], us[n], WithUpdated(t, us[..n]).value);
      }
    }
  }

  lemma UpdatesOneMore(t: Table, us: seq<Update>, u: Update, t': Table)
    requires HasUpdated(t, us, t') && u.clientId in t && forall v | v in us :: v.clientId != u.clientId
    ensures HasUpdated(t, us + [u], t'[u.clientId := PutAll(t'[u.clientId], MANAGED_FIELDS, u.changes)])
  {
    hide PutAll;
    var all := us + [u];
    assert u in all && forall v | v in us :: v in all;
  }

  /** The update the plan makes of a wanted row whose client was read. */
  predicate IsUpdate(u: Update, w: ClientRow, byId: map<string, ClientRow>) {
    && w.clientId in byId && Changes(byId[w.clientId], w) != map[]
    && u == Update(w.clientId, Changes(byId[w.clientId], w))
  }

  lemma {:induction false} PlannedUpdates(wanted: seq<ClientRow>, byId: map<string, ClientRow>)
    ensures forall u :: u in Updated(wanted, byId) <==> exists w :: w in wanted && IsUpdate(u, w, byId)
  {
    if wanted != [] {
      var n := |wanted| - 1;
      PlannedUpdates(wanted[..n], byId);
      assert wanted == wanted[..n] + [wanted[n]];
      UpdatedSnoc(wanted[..n], wanted[n], byId);
      OneMorePlanned(wanted[..n], wanted[n], byId);
    }
  }

  lemma OneMorePlanned(front: seq<ClientRow>, w: ClientRow, byId: map<string, ClientRow>)
    requires forall u :: u in Updated(front, byId) <==> exists x :: x in front && IsUpdate(u, x, byId)
    ensures forall u :: u in Updated(front + [w], byId) <==> exists x :: x in front + [w] && IsUpdate(u, x, byId)
  {
    UpdatedSnoc(front, w, byId);
    hide Updated, Changes;
    var all := front + [w];
    assert w in all && forall x | x in front :: x in all;
    forall u ensures u in Updated(all, byId) <==> u in Updated(front, byId) || IsUpdate(u, w, byId) {}
  }

  lemma {:induction false} DistinctPlanned(wanted: seq<ClientRow>, byId: map<string, ClientRow>)
    requires Distinct(wanted)
    ensures DistinctUpdates(Updated(wanted, byId))
  {
    if wanted != [] {
      var n := |wanted| - 1;
      DistinctPlanned(wanted[..n], byId);
      IdsSnoc(wanted);
      PlannedUpdates(wanted[..n], byId);
      UpdatedSnoc(wanted[..n], wanted[n], byId);
      hide Updated, Changes;
      forall u | u in Updated(wanted[..n], byId) ensures u.clientId != wanted[n].clientId {
        var w :| w in wanted[..n] && IsUpdate(u, w, byId);
        assert w.clientId in Ids(wanted[..n]);
      }
    }
  }

  /** What the plan needs of the table it meets: no id it creates, and every id it updates. */
  predicate Meets(t: Table, p: Plan) {
    && (forall c | c in p.create :: c.clientId !in t)
    && (forall u | u in p.update :: u.clientId in t)
  }

  /**
   * Over a table that has moved since it was read, the transaction commits
   * exactly when every id it creates is still absent and every row it updates
   * is still there.
   */
  lemma MovedCommitsExactly(t: Table, wanted: seq<ClientRow>, current: seq<ClientRow>)
    requires Distinct(wanted)
    ensures Applied(t, Planned(wanted, current)).Some? <==> Meets(t, Planned(wanted, current))
  {
    var byId := ById(current);
    var p := Planned(wanted, current);
    CreatedRows(wanted, byId);
    PlannedUpdates(wanted, byId);
    DistinctPlanned(wanted, byId);
    hide Updated, Created, Changes;
    CreatesExactly(t, p.create);
    if WithCreated(t, p.create).Some? {
      var t1 := WithCreated(t, p.create).value;
      UpdatesExactly(t1, p.update);
      forall u | u in p.update ensures u.clientId in t1 <==> u.clientId in t { UpdatesNoCreated(wanted, byId, u); }
    }
  }

  lemma UpdatesNoCreated(wanted: seq<ClientRow>, byId: map<string, ClientRow>, u: Update)
    requires u in Updated(wanted, byId)
    ensures u.clientId in byId && u.clientId !in Ids(Created(wanted, byId))
  {
    PlannedUpdates(wanted, byId);
    CreatedRows(wanted, byId);
  }

  // ---------- what it leaves ----------

  /** A row the plan updates, over what it is by then: the fields that differed when it was read, and no others. */
  predicate FieldsPut(before: ClientRow, after: ClientRow, seen: ClientRow, w: ClientRow) {
    && after.clientId == before.clientId
    && forall f :: Get(after, f) == if !Alike(Get(seen, f), Get(w, f)) then Get(w, f) else Get(before, f)
  }

  /** What the plan leaves of a table that has moved. */
  predicate LeavesMoved(t: Table, wanted: seq<ClientRow>, byId: map<string, ClientRow>, t': Table) {
    && t'.Keys == t.Keys + Ids(Created(wanted, byId))
    && (forall w | w in wanted && w.clientId !in byId :: w.clientId in t' && t'[w.clientId] == w)
    && (forall w | w in wanted && w.clientId in byId && w.clientId in t ::
          FieldsPut(t[w.clientId], t'[w.clientId], byId[w.clientId], w))
    && (forall id | id in t && id !in Ids(wanted) :: t'[id] == t[id])
  }

  lemma UpdatedFields(before: ClientRow, seen: ClientRow, w: ClientRow)
    ensures FieldsPut(before, PutAll(before, MANAGED_FIELDS, Changes(seen, w)), seen, w)
  {
    var after := PutAll(before, MANAGED_FIELDS, Changes(seen, w));
    PutAllGets(before, MANAGED_FIELDS, w, Changes(seen, w), Name);
    hide PutAll, Changes, Get, Alike;
    forall f ensures Get(after, f) == if !Alike(Get(seen, f), Get(w, f)) then Get(w, f) else Get(before, f) {
      FieldPut(before, seen, w, f);
    }
  }

  lemma FieldPut(before: ClientRow, seen: ClientRow, w: ClientRow, f: Field)
    ensures Get(PutAll(before, MANAGED_FIELDS, Changes(seen, w)), f)
         == if !Alike(Get(seen, f), Get(w, f)) then Get(w, f) else Get(before, f)
  {
    hide PutAll, Get, Alike;
    PlanTouchesExactlyTheDifferences(seen, w, f);
    EveryFieldIsManaged(f);
    PutAllGets(before, MANAGED_FIELDS, w, Changes(seen, w), f);
  }

  lemma UntouchedFields(before: ClientRow, seen: ClientRow, w: ClientRow)
    requires Changes(seen, w) == map[]
    ensures FieldsPut(before, before, seen, w)
  {
    hide Changes, Get, Alike;
    forall f ensures Alike(Get(seen, f), Get(w, f)) { PlanTouchesExactlyTheDifferences(seen, w, f); }
  }

  /** When it commits, it creates its rows, puts its changes over what is there by then, and leaves every other row. */
  lemma MovedLeaves(t: Table, wanted: seq<ClientRow>, current: seq<ClientRow>)
    requires Distinct(wanted) && Meets(t, Planned(wanted, current))
    ensures Applied(t, Planned(wanted, current)).Some?
    ensures LeavesMoved(t, wanted, ById(current), Applied(t, Planned(wanted, current)).value)
  {
    MovedCommitsExactly(t, wanted, current);
    var byId := ById(current);
    var us, created := Updated(wanted, byId), Created(wanted, byId);
    CreatedRows(wanted, byId);
    DistinctPlanned(wanted, byId);
    CreatesExactly(t, created);
    var t1 := WithCreated(t, created).value;
    UpdatesExactly(t1, us);
    LeavesBoth(t, wanted, byId, t1, WithUpdated(t1, us).value);
  }

  lemma LeavesBoth(t: Table, wanted: seq<ClientRow>, byId: map<string, ClientRow>, t1: Table, t2: Table)
    requires Distinct(wanted)
    requires HasCreated(t, Created(wanted, byId), t1) && HasUpdated(t1, Updated(wanted, byId), t2)
    ensures LeavesMoved(t, wanted, byId, t2)
  {
    CreatedRows(wanted, byId);
    PlannedUpdates(wanted, byId);
    hide Created, Updated, Changes, PutAll, FieldsPut;
    forall w | w in wanted && w.clientId !in byId ensures w.clientId in t2 && t2[w.clientId] == w {
      assert w in Created(wanted, byId);
    }
    forall w | w in wanted && w.clientId in byId && w.clientId in t
      ensures FieldsPut(t[w.clientId], t2[w.clientId], byId[w.clientId], w)
    {
      LeavesOne(t, wanted, byId, t1, t2, w);
    }
  }

  lemma LeavesOne(t: Table, wanted: seq<ClientRow>, byId: map<string, ClientRow>, t1: Table, t2: Table, w: ClientRow)
    requires Distinct(wanted) && w in wanted && w.clientId in byId && w.clientId in t && w.clientId in t1
    requires w.clientId in t2
    requires t1[w.clientId] == t[w.clientId] && HasUpdated(t1, Updated(wanted, byId), t2)
    ensures FieldsPut(t[w.clientId], t2[w.clientId], byId[w.clientId], w)
  {
    hide Updated, Changes, PutAll, FieldsPut;
    var seen := byId[w.clientId];
    if Changes(seen, w) != map[] {
      IsPlanned(wanted, byId, w);
      UpdatedFields(t[w.clientId], seen, w);
    } else {
      UntouchedFields(t[w.clientId], seen, w);
      NotPlanned(wanted, byId, w);
    }
  }

  lemma IsPlanned(wanted: seq<ClientRow>, byId: map<string, ClientRow>, w: ClientRow)
    requires w in wanted && w.clientId in byId && Changes(byId[w.clientId], w) != map[]
    ensures Update(w.clientId, Changes(byId[w.clientId], w)) in Updated(wanted, byId)
  {
    hide Updated, Changes;
    PlannedUpdates(wanted, byId);
    assert IsUpdate(Update(w.clientId, Changes(byId[w.clientId], w)), w, byId);
  }

  lemma NotPlanned(wanted: seq<ClientRow>, byId: map<string, ClientRow>, w: ClientRow)
    requires Distinct(wanted) && w in wanted && w.clientId in byId && Changes(byId[w.clientId], w) == map[]
    ensures forall u | u in Updated(wanted, byId) :: u.clientId != w.clientId
  {
    hide Updated, Changes;
    PlannedUpdates(wanted, byId);
    forall u | u in Updated(wanted, byId) ensures u.clientId != w.clientId {
      var x :| x in wanted && IsUpdate(u, x, byId);
      if x.clientId == w.clientId { SameId(wanted, x, w); }
    }
  }

  lemma SameId(wanted: seq<ClientRow>, x: ClientRow, w: ClientRow)
    requires Distinct(wanted) && x in wanted && w in wanted && x.clientId == w.clientId
    ensures x == w
  {
  }

  /** A field of the row was as wanted when it was read, and is not any more. */
  predicate MovedAway(seen: ClientRow, now: ClientRow, w: ClientRow, f: Field) {
    Alike(Get(seen, f), Get(w, f)) && !Alike(Get(now, f), Get(w, f))
  }

  /**
   * So a wanted row that was read comes to all its wanted fields exactly when no
   * field that was as wanted at the read has moved away by the transaction.
   */
  lemma MovedConvergesExactly(t: Table, wanted: seq<ClientRow>, current: seq<ClientRow>, w: ClientRow)
    requires Distinct(wanted) && Meets(t, Planned(wanted, current))
    requires w in wanted && w.clientId in ById(current) && w.clientId in t
    ensures Applied(t, Planned(wanted, current)).Some? && w.clientId in Applied(t, Planned(wanted, current)).value
    ensures var after := Applied(t, Planned(wanted, current)).value[w.clientId];
            (forall f :: Alike(Get(after, f), Get(w, f)))
            <==> (forall f :: !MovedAway(ById(current)[w.clientId], t[w.clientId], w, f))
  {
    hide Applied, Planned, Meets, Created, Get, Alike;
    MovedLeaves(t, wanted, current);
    var seen, now := ById(current)[w.clientId], t[w.clientId];
    var after := Applied(t, Planned(wanted, current)).value[w.clientId];
    forall f ensures Alike(Get(after, f), Get(w, f)) <==> !MovedAway(seen, now, w, f) {
      AlikeItself(Get(w, f));
    }
  }

  lemma AlikeItself(v: Value)
    ensures Alike(v, v)
  {
  }
}
