/** Clients as code: planning and applying the manifests (src/clients/manifest.ts, scripts/clients-apply.ts). */
module ClientPlan {
  import opened Wrappers
  import opened Text

  datatype ClientRow = ClientRow(
    clientId: string, name: string, redirectUris: seq<string>, allowedScopes: seq<string>, allowedGrants: seq<string>,
    allowedAudiences: seq<string>, backchannelLogoutUri: Option<string>, firstParty: bool, isPublic: bool,
    tokenEndpointAuthMethod: string, companyId: Option<string>, active: bool, customerLane: bool)

  datatype Field =
    | Name | RedirectUris | AllowedScopes | AllowedGrants | AllowedAudiences | BackchannelLogoutUri | FirstParty
    | IsPublic | AuthMethod | CompanyId | Active | CustomerLane

  const MANAGED_FIELDS: seq<Field> := [
    Name, RedirectUris, AllowedScopes, AllowedGrants, AllowedAudiences, BackchannelLogoutUri, FirstParty,
    IsPublic, AuthMethod, CompanyId, Active, CustomerLane
  ]

  datatype Value = TextValue(text: string) | Null | Flag(flag: bool) | List(items: seq<string>)

  function Nullable(v: Option<string>): Value {
    if v.Some? then TextValue(v.value) else Null
  }

  function Get(r: ClientRow, f: Field): Value {
    match f
    case Name => TextValue(r.name)
    case RedirectUris => List(r.redirectUris)
    case AllowedScopes => List(r.allowedScopes)
    case AllowedGrants => List(r.allowedGrants)
    case AllowedAudiences => List(r.allowedAudiences)
    case BackchannelLogoutUri => Nullable(r.backchannelLogoutUri)
    case FirstParty => Flag(r.firstParty)
    case IsPublic => Flag(r.isPublic)
    case AuthMethod => TextValue(r.tokenEndpointAuthMethod)
    case CompanyId => Nullable(r.companyId)
    case Active => Flag(r.active)
    case CustomerLane => Flag(r.customerLane)
  }

  // ---------- sorting ----------

  /** The order of `sort()` on texts, character by character. */
  predicate LessEq(a: string, b: string) {
    if a == "" then true
    else if b == "" then false
    else if a[0] == b[0] then LessEq(a[1..], b[1..])
    else a[0] < b[0]
  }

  lemma {:induction false} LessEqTotal(a: string, b: string)
    ensures LessEq(a, b) || LessEq(b, a)
    ensures LessEq(a, b) && LessEq(b, a) ==> a == b
  {
    if a != "" && b != "" && a[0] == b[0] {
      LessEqTotal(a[1..], b[1..]);
      assert a == [a[0]] + a[1..] && b == [b[0]] + b[1..];
    }
  }

  lemma {:induction false} LessEqTransitive(a: string, b: string, c: string)
    requires LessEq(a, b) && LessEq(b, c)
    ensures LessEq(a, c)
  {
    if a != "" && b != "" && c != "" && a[0] == b[0] == c[0] {
      LessEqTransitive(a[1..], b[1..], c[1..]);
    }
  }

  predicate Sorted(xs: seq<string>) {
    forall i, j | 0 <= i < j < |xs| :: LessEq(xs[i], xs[j])
  }

  function Insert(x: string, xs: seq<string>): seq<string> {
    if xs == [] then [x]
    else if LessEq(x, xs[0]) then [x] + xs
    else [xs[0]] + Insert(x, xs[1..])
  }

  function Sort(xs: seq<string>): seq<string> {
    if xs == [] then [] else Insert(xs[0], Sort(xs[1..]))
  }

  lemma {:induction false} InsertKeeps(x: string, xs: seq<string>)
    ensures multiset(Insert(x, xs)) == multiset(xs) + multiset{x}
    ensures Sorted(xs) ==> Sorted(Insert(x, xs))
  {
    if xs != [] {
      assert xs == [xs[0]] + xs[1..];
      InsertKeeps(x, xs[1..]);
      if Sorted(xs) {
        if LessEq(x, xs[0]) {
          PrependSorted(x, xs);
        } else {
          LessEqTotal(x, xs[0]);
          InsertBehind(x, xs);
        }
      }
    }
  }

  lemma PrependSorted(x: string, xs: seq<string>)
    requires xs != [] && Sorted(xs) && LessEq(x, xs[0])
    ensures Sorted([x] + xs)
  {
    forall j | 0 <= j < |xs| ensures LessEq(x, xs[j]) {
      if j > 0 { LessEqTransitive(x, xs[0], xs[j]); }
    }
  }

  lemma InsertBehind(x: string, xs: seq<string>)
    requires xs != [] && Sorted(xs) && LessEq(xs[0], x)
    requires Sorted(Insert(x, xs[1..])) && multiset(Insert(x, xs[1..])) == multiset(xs[1..]) + multiset{x}
    ensures Sorted([xs[0]] + Insert(x, xs[1..]))
  {
    var rest := Insert(x, xs[1..]);
    forall j | 0 <= j < |rest| ensures LessEq(xs[0], rest[j]) {
      assert rest[j] in multiset(rest);
      assert rest[j] == x || rest[j] in xs[1..];
    }
  }

  lemma {:induction false} SortSorts(xs: seq<string>)
    ensures Sorted(Sort(xs)) && multiset(Sort(xs)) == multiset(xs)
  {
    if xs != [] {
      SortSorts(xs[1..]);
      InsertKeeps(xs[0], Sort(xs[1..]));
      assert xs == [xs[0]] + xs[1..];
    }
  }

  /** The least element of a sorted list is its first. */
  lemma FirstIsLeast(a: seq<string>, x: string)
    requires Sorted(a) && x in a
    ensures LessEq(a[0], x)
  {
    LessEqTotal(x, x);
  }

  lemma SameElements(a: seq<string>, b: seq<string>, x: string)
    requires multiset(a) == multiset(b) && x in a
    ensures x in b
  {
    assert x in multiset(a);
    assert x in multiset(b);
  }

  lemma TailMultiset(a: seq<string>)
    requires a != []
    ensures multiset(a[1..]) == multiset(a) - multiset{a[0]}
  {
    assert a == [a[0]] + a[1..];
  }

  lemma {:induction false} SortedIsUnique(a: seq<string>, b: seq<string>)
    requires Sorted(a) && Sorted(b) && multiset(a) == multiset(b)
    ensures a == b
  {
    assert |multiset(a)| == |a| && |multiset(b)| == |b|;
    if a != [] {
      SameHeads(a, b);
      TailMultiset(a);
      TailMultiset(b);
      SortedIsUnique(a[1..], b[1..]);
      assert a == [a[0]] + a[1..] && b == [b[0]] + b[1..];
    }
  }

  lemma SameHeads(a: seq<string>, b: seq<string>)
    requires Sorted(a) && Sorted(b) && multiset(a) == multiset(b) && a != [] && b != []
    ensures a[0] == b[0]
  {
    SameElements(a, b, a[0]);
    SameElements(b, a, b[0]);
    FirstIsLeast(a, b[0]);
    FirstIsLeast(b, a[0]);
    LessEqTotal(a[0], b[0]);
  }

  // ---------- same ----------

  /** `same`: lists are compared sorted, everything else by value. */
  predicate Same(a: Value, b: Value) {
    if a.List? && b.List? then Sort(a.items) == Sort(b.items) else a == b
  }

  /** Equal up to the order of a list. */
  predicate Alike(a: Value, b: Value) {
    if a.List? && b.List? then multiset(a.items) == multiset(b.items) else a == b
  }

  lemma SameIsAlike(a: Value, b: Value)
    ensures Same(a, b) <==> Alike(a, b)
  {
    if a.List? && b.List? {
      SortSorts(a.items);
      SortSorts(b.items);
      if multiset(a.items) == multiset(b.items) { SortedIsUnique(Sort(a.items), Sort(b.items)); }
    }
  }

  // ---------- the plan ----------

  datatype Change = Change(was: Value, to: Value)
  datatype Update = Update(clientId: string, changes: map<Field, Change>)
  datatype Plan = Plan(create: seq<ClientRow>, update: seq<Update>, unmanaged: seq<string>)

  function ById(rows: seq<ClientRow>): map<string, ClientRow> {
    if rows == [] then map[] else ById(rows[..|rows| - 1])[rows[|rows| - 1].clientId := rows[|rows| - 1]]
  }

  function Changes(row: ClientRow, w: ClientRow): map<Field, Change> {
    map f | f in MANAGED_FIELDS && !Same(Get(row, f), Get(w, f)) :: Change(Get(row, f), Get(w, f))
  }

  function Created(wanted: seq<ClientRow>, byId: map<string, ClientRow>): seq<ClientRow> {
    if wanted == [] then []
    else
      var w := wanted[|wanted| - 1];
      Created(wanted[..|wanted| - 1], byId) + if w.clientId in byId then [] else [w]
  }

  function Updated(wanted: seq<ClientRow>, byId: map<string, ClientRow>): seq<Update> {
    if wanted == [] then []
    else
      var w := wanted[|wanted| - 1];
      Updated(wanted[..|wanted| - 1], byId) +
      if w.clientId in byId && Changes(byId[w.clientId], w) != map[]
      then [Update(w.clientId, Changes(byId[w.clientId], w))] else []
  }

  const SYSTEM_CLIENT_IDS: set<string> := {"inite-cli"}

  predicate Ignored(id: string, managed: set<string>) {
    id in managed || StartsWith(id, "dcr_") || id in SYSTEM_CLIENT_IDS
  }

  function Unmanaged(current: seq<ClientRow>, managed: set<string>): seq<string> {
    if current == [] then []
    else
      var id := current[|current| - 1].clientId;
      Unmanaged(current[..|current| - 1], managed) + if Ignored(id, managed) then [] else [id]
  }

  function Ids(rows: seq<ClientRow>): set<string> {
    set r | r in rows :: r.clientId
  }

  function Planned(wanted: seq<ClientRow>, current: seq<ClientRow>): Plan {
    Plan(Created(wanted, ById(current)), Updated(wanted, ById(current)), Unmanaged(current, Ids(wanted)))
  }

  method ChangesBetween(row: ClientRow, w: ClientRow) returns (changes: map<Field, Change>)
    ensures changes == Changes(row, w)
  {
    changes := map[];
    for k := 0 to |MANAGED_FIELDS|
      invariant changes ==
                map f | f in MANAGED_FIELDS[..k] && !Same(Get(row, f), Get(w, f)) :: Change(Get(row, f), Get(w, f))
    {
      var f := MANAGED_FIELDS[k];
      assert forall g :: g in MANAGED_FIELDS[..k + 1] <==> g in MANAGED_FIELDS[..k] || g == f;
      if !Same(Get(row, f), Get(w, f)) {
        changes := changes[f := Change(Get(row, f), Get(w, f))];
      }
    }
    assert MANAGED_FIELDS[..|MANAGED_FIELDS|] == MANAGED_FIELDS;
  }

  /** `planApply` */
  method PlanApply(wanted: seq<ClientRow>, current: seq<ClientRow>) returns (plan: Plan)
    ensures plan == Planned(wanted, current)
  {
    var byId := ById(current);
    var create, update, unmanaged := [], [], [];
    for i := 0 to |wanted|
      invariant create == Created(wanted[..i], byId) && update == Updated(wanted[..i], byId)
    {
      var w := wanted[i];
      assert wanted[..i + 1][..i] == wanted[..i];
      if w.clientId !in byId {
        create := create + [w];
        assert update == Updated(wanted[..i + 1], byId);
        continue;
      }
      var changes := ChangesBetween(byId[w.clientId], w);
      if changes != map[] {
        update := update + [Update(w.clientId, changes)];
      }
    }
    assert wanted[..|wanted|] == wanted;
    for i := 0 to |current|
      invariant unmanaged == Unmanaged(current[..i], Ids(wanted))
    {
      assert current[..i + 1][..i] == current[..i];
      if !Ignored(current[i].clientId, Ids(wanted)) {
        unmanaged := unmanaged + [current[i].clientId];
      }
    }
    assert current[..|current|] == current;
    plan := Plan(create, update, unmanaged);
  }

  // ---------- applying it ----------

  type Table = map<string, ClientRow>

  function Put(r: ClientRow, f: Field, v: Value): ClientRow {
    match f
    case Name => if v.TextValue? then r.(name := v.text) else r
    case RedirectUris => if v.List? then r.(redirectUris := v.items) else r
    case AllowedScopes => if v.List? then r.(allowedScopes := v.items) else r
    case AllowedGrants => if v.List? then r.(allowedGrants := v.items) else r
    case AllowedAudiences => if v.List? then r.(allowedAudiences := v.items) else r
    case BackchannelLogoutUri =>
      if v.TextValue? then r.(backchannelLogoutUri := Some(v.text))
      else if v.Null? then r.(backchannelLogoutUri := None) else r
    case FirstParty => if v.Flag? then r.(firstParty := v.flag) else r
    case IsPublic => if v.Flag? then r.(isPublic := v.flag) else r
    case AuthMethod => if v.TextValue? then r.(tokenEndpointAuthMethod := v.text) else r
    case CompanyId =>
      if v.TextValue? then r.(companyId := Some(v.text)) else if v.Null? then r.(companyId := None) else r
    case Active => if v.Flag? then r.(active := v.flag) else r
    case CustomerLane => if v.Flag? then r.(customerLane := v.flag) else r
  }

  /** `update({ data })`: each field of the change set gets its `to`. */
  function PutAll(r: ClientRow, fields: seq<Field>, changes: map<Field, Change>): ClientRow {
    if fields == [] then r
    else
      var r' := PutAll(r, fields[..|fields| - 1], changes);
      var f := fields[|fields| - 1];
      if f in changes then Put(r', f, changes[f].to) else r'
  }

  /** The creates: None when one of them hits the unique client id. */
  function WithCreated(t: Table, rows: seq<ClientRow>): Option<Table> {
    if rows == [] then Some(t)
    else
      var before := WithCreated(t, rows[..|rows| - 1]);
      var r := rows[|rows| - 1];
      if before.None? || r.clientId in before.value then None else Some(before.value[r.clientId := r])
  }

  /** The updates: None when a row to update is missing. */
  function WithUpdated(t: Table, updates: seq<Update>): Option<Table> {
    if updates == [] then Some(t)
    else
      var before := WithUpdated(t, updates[..|updates| - 1]);
      var u := updates[|updates| - 1];
      if before.None? || u.clientId !in before.value then None
      else Some(before.value[u.clientId := PutAll(before.value[u.clientId], MANAGED_FIELDS, u.changes)])
  }

  /** The transaction: all of it or (None) nothing. */
  function Applied(t: Table, p: Plan): Option<Table> {
    var created := WithCreated(t, p.create);
    if created.None? then None else WithUpdated(created.value, p.update)
  }

  /** The oauth_clients table, as the script's transaction changes it. */
  class ClientTable {
    var rows: Table

    constructor (rows: Table)
      ensures this.rows == rows
    {
      this.rows := rows;
    }

    method Apply(plan: Plan) returns (committed: bool)
      modifies this
      ensures committed <==> Applied(old(rows), plan).Some?
      ensures rows == if committed then Applied(old(rows), plan).value else old(rows)
    {
      var t := rows;
      for i := 0 to |plan.create|
        invariant WithCreated(rows, plan.create[..i]) == Some(t)
        invariant rows == old(rows)
      {
        assert plan.create[..i + 1][..i] == plan.create[..i];
        if plan.create[i].clientId in t {
          CreateFails(rows, plan.create, i + 1);
          return false;
        }
        t := t[plan.create[i].clientId := plan.create[i]];
      }
      assert plan.create[..|plan.create|] == plan.create;
      var created := t;
      for i := 0 to |plan.update|
        invariant WithUpdated(created, plan.update[..i]) == Some(t)
        invariant rows == old(rows)
      {
        assert plan.update[..i + 1][..i] == plan.update[..i];
        var u := plan.update[i];
        if u.clientId !in t {
          UpdateFails(created, plan.update, i + 1);
          return false;
        }
        t := t[u.clientId := PutAll(t[u.clientId], MANAGED_FIELDS, u.changes)];
      }
      assert plan.update[..|plan.update|] == plan.update;
      rows := t;
      committed := true;
    }
  }

  lemma {:induction false} CreateFails(t: Table, rows: seq<ClientRow>, i: nat)
    requires i <= |rows| && WithCreated(t, rows[..i]).None?
    ensures WithCreated(t, rows).None?
    decreases |rows| - i
  {
    if i == |rows| {
      assert rows[..i] == rows;
    } else {
      assert rows[..i + 1][..i] == rows[..i];
      CreateFails(t, rows, i + 1);
    }
  }

  lemma {:induction false} UpdateFails(t: Table, updates: seq<Update>, i: nat)
    requires i <= |updates| && WithUpdated(t, updates[..i]).None?
    ensures WithUpdated(t, updates).None?
    decreases |updates| - i
  {
    if i == |updates| {
      assert updates[..i] == updates;
    } else {
      assert updates[..i + 1][..i] == updates[..i];
      UpdateFails(t, updates, i + 1);
    }
  }

  // ---------- convergence ----------

  lemma EveryFieldIsManaged(f: Field)
    ensures f in MANAGED_FIELDS
  {
    var order := [Name, RedirectUris, AllowedScopes, AllowedGrants, AllowedAudiences, BackchannelLogoutUri, FirstParty,
                  IsPublic, AuthMethod, CompanyId, Active, CustomerLane];
    assert order == MANAGED_FIELDS;
    assert order[0] == Name && order[1] == RedirectUris && order[2] == AllowedScopes && order[3] == AllowedGrants;
    assert order[4] == AllowedAudiences && order[5] == BackchannelLogoutUri && order[6] == FirstParty;
    assert order[7] == IsPublic && order[8] == AuthMethod && order[9] == CompanyId && order[10] == Active;
    assert order[11] == CustomerLane;
  }

  /** The plan touches a field exactly when it differs beyond list order. */
  lemma PlanTouchesExactlyTheDifferences(row: ClientRow, w: ClientRow, f: Field)
    ensures f in Changes(row, w) <==> !Alike(Get(row, f), Get(w, f))
    ensures f in Changes(row, w) ==> Changes(row, w)[f] == Change(Get(row, f), Get(w, f))
  {
    EveryFieldIsManaged(f);
    SameIsAlike(Get(row, f), Get(w, f));
  }

  /** A value fit for a field: what Get gives of some row. */
  predicate Fits(f: Field, v: Value) {
    match f
    case Name => v.TextValue?
    case AuthMethod => v.TextValue?
    case BackchannelLogoutUri => v.TextValue? || v.Null?
    case CompanyId => v.TextValue? || v.Null?
    case FirstParty => v.Flag?
    case IsPublic => v.Flag?
    case Active => v.Flag?
    case CustomerLane => v.Flag?
    case _ => v.List?
  }

  lemma PutThenGet(r: ClientRow, f: Field, v: Value, g: Field)
    requires Fits(f, v)
    ensures Get(Put(r, f, v), g) == if g == f then v else Get(r, g)
    ensures Put(r, f, v).clientId == r.clientId
  {
  }

  lemma {:induction false} PutAllGets(r: ClientRow, fields: seq<Field>, w: ClientRow, changes: map<Field, Change>,
                                      g: Field)
    requires forall f | f in changes :: changes[f].to == Get(w, f)
    ensures Get(PutAll(r, fields, changes), g) == if g in fields && g in changes then Get(w, g) else Get(r, g)
    ensures PutAll(r, fields, changes).clientId == r.clientId
  {
    if fields != [] {
      var n := |fields| - 1;
      PutAllGets(r, fields[..n], w, changes, g);
      assert fields == fields[..n] + [fields[n]];
      if fields[n] in changes {
        PutThenGet(PutAll(r, fields[..n], changes), fields[n], Get(w, fields[n]), g);
      }
    }
  }

  /** The row an existing client is brought to. */
  function Desired(row: ClientRow, w: ClientRow): ClientRow {
    PutAll(row, MANAGED_FIELDS, Changes(row, w))
  }

  /** After its changes are put, a row is alike to the wanted one in every field. */
  lemma ChangedRowIsWanted(row: ClientRow, w: ClientRow, g: Field)
    ensures Alike(Get(Desired(row, w), g), Get(w, g))
    ensures Desired(row, w).clientId == row.clientId
  {
    PutAllGets(row, MANAGED_FIELDS, w, Changes(row, w), g);
    PlanTouchesExactlyTheDifferences(row, w, g);
    EveryFieldIsManaged(g);
  }

  predicate Distinct(rows: seq<ClientRow>) {
    forall i, j | 0 <= i < j < |rows| :: rows[i].clientId != rows[j].clientId
  }

  /** What `findMany` reads: the rows that are not self-registered, in some order. */
  predicate Lists(current: seq<ClientRow>, t: Table) {
    && Distinct(current)
    && (forall r | r in current :: r.clientId in t && t[r.clientId] == r && !StartsWith(r.clientId, "dcr_"))
    && (forall id | id in t && !StartsWith(id, "dcr_") :: t[id] in current)
  }

  predicate Keyed(t: Table) {
    forall id | id in t :: t[id].clientId == id
  }

  lemma {:induction false} ByIdOfDistinct(rows: seq<ClientRow>)
    requires Distinct(rows)
    ensures forall r | r in rows :: r.clientId in ById(rows) && ById(rows)[r.clientId] == r
    ensures forall id | id in ById(rows) :: ById(rows)[id] in rows && ById(rows)[id].clientId == id
  {
    if rows != [] {
      var n := |rows| - 1;
      ByIdOfDistinct(rows[..n]);
      assert rows == rows[..n] + [rows[n]];
    }
  }

  lemma ByIdOfTable(current: seq<ClientRow>, t: Table)
    requires Lists(current, t) && Keyed(t)
    ensures forall id :: id in ById(current) <==> id in t && !StartsWith(id, "dcr_")
    ensures forall id | id in ById(current) :: ById(current)[id] == t[id]
  {
    ByIdOfDistinct(current);
    forall id | id in t && !StartsWith(id, "dcr_") ensures id in ById(current) {
      assert t[id] in current;
    }
  }

  predicate Products(wanted: seq<ClientRow>) {
    Distinct(wanted) && forall w | w in wanted :: !StartsWith(w.clientId, "dcr_")
  }

  /** What one row of `wanted` comes to in the table. */
  function Outcome(t: Table, w: ClientRow): ClientRow {
    if w.clientId in t then Desired(t[w.clientId], w) else w
  }

  /** The table after the rows of `wanted` came to their outcomes. */
  predicate CameTo(t: Table, wanted: seq<ClientRow>, t': Table) {
    && t'.Keys == t.Keys + Ids(wanted)
    && (forall w | w in wanted :: t'[w.clientId] == Outcome(t, w))
    && (forall id | id in t && id !in Ids(wanted) :: t'[id] == t[id])
  }

  lemma {:induction false} CreatedRows(wanted: seq<ClientRow>, byId: map<string, ClientRow>)
    ensures forall w :: w in Created(wanted, byId) <==> w in wanted && w.clientId !in byId
    ensures Distinct(wanted) ==> Distinct(Created(wanted, byId))
  {
    if wanted != [] {
      var n := |wanted| - 1;
      CreatedRows(wanted[..n], byId);
      assert wanted == wanted[..n] + [wanted[n]];
    }
  }

  lemma {:induction false} CreateCommits(t: Table, rows: seq<ClientRow>)
    requires Distinct(rows) && forall r | r in rows :: r.clientId !in t
    ensures WithCreated(t, rows).Some? && HasCreated(t, rows, WithCreated(t, rows).value)
  {
    if rows != [] {
      var n := |rows| - 1;
      var front, r := rows[..n], rows[n];
      CreateCommits(t, front);
      IdsSnoc(rows);
      CreatedToo(t, front, r, WithCreated(t, front).value);
    }
  }

  lemma CreatedToo(t: Table, front: seq<ClientRow>, r: ClientRow, t': Table)
    requires HasCreated(t, front, t') && r.clientId !in Ids(front) && r.clientId !in t
    ensures r.clientId !in t' && HasCreated(t, front + [r], t'[r.clientId := r])
  {
    IdsGrow(front, r);
    forall x | x in front + [r] ensures x.clientId in t'[r.clientId := r] && t'[r.clientId := r][x.clientId] == x {
      if x != r { assert x in front && x.clientId in Ids(front); }
    }
  }

  lemma IdsSnoc(rows: seq<ClientRow>)
    requires Distinct(rows) && rows != []
    ensures var n := |rows| - 1;
            && rows == rows[..n] + [rows[n]]
            && rows[n].clientId !in Ids(rows[..n])
            && Ids(rows) == Ids(rows[..n]) + {rows[n].clientId}
  {
    var n := |rows| - 1;
    assert rows == rows[..n] + [rows[n]];
  }

  /** The wanted rows that exist came to what they should be; every other row stayed. */
  predicate BroughtTo(t: Table, wanted: seq<ClientRow>, byId: map<string, ClientRow>, t': Table) {
    && t'.Keys == t.Keys
    && (forall w | w in wanted && w.clientId in byId ::
          w.clientId in t' && t'[w.clientId] == Desired(byId[w.clientId], w))
    && (forall id | id in t && !(id in byId && id in Ids(wanted)) :: t'[id] == t[id])
  }

  /** One more wanted row with nothing to update leaves the table as it was. */
  lemma NothingUpdated(t: Table, wanted: seq<ClientRow>, w: ClientRow, byId: map<string, ClientRow>, t': Table)
    requires BroughtTo(t, wanted, byId, t') && w.clientId !in Ids(wanted)
    requires w.clientId in byId ==> w.clientId in t && Desired(byId[w.clientId], w) == t[w.clientId]
    ensures BroughtTo(t, wanted + [w], byId, t')
  {
    var all := wanted + [w];
    forall x | x in all && x.clientId in byId
      ensures x.clientId in t' && t'[x.clientId] == Desired(byId[x.clientId], x)
    {
      assert x in wanted || x == w;
    }
    forall id | id in t && !(id in byId && id in Ids(all)) ensures t'[id] == t[id] {
      IdsGrow(wanted, w);
    }
  }

  /** One more wanted row with an update puts that row alone. */
  lemma OneUpdated(t: Table, wanted: seq<ClientRow>, w: ClientRow, byId: map<string, ClientRow>, t': Table)
    requires BroughtTo(t, wanted, byId, t') && w.clientId !in Ids(wanted) && w.clientId in byId && w.clientId in t
    ensures BroughtTo(t, wanted + [w], byId, t'[w.clientId := Desired(byId[w.clientId], w)])
  {
    var all := wanted + [w];
    var after := t'[w.clientId := Desired(byId[w.clientId], w)];
    IdsGrow(wanted, w);
    hide Desired;
    forall x | x in wanted && x.clientId in byId
      ensures x.clientId in after && after[x.clientId] == Desired(byId[x.clientId], x)
    {
      assert x.clientId in Ids(wanted);
    }
    forall id | id in t && !(id in byId && id in Ids(all)) ensures after[id] == t[id] {}
  }

  lemma IdsGrow(wanted: seq<ClientRow>, w: ClientRow)
    ensures Ids(wanted + [w]) == Ids(wanted) + {w.clientId}
  {
  }

  lemma {:induction false} UpdateCommits(t: Table, wanted: seq<ClientRow>, byId: map<string, ClientRow>)
    requires Distinct(wanted) && forall id | id in byId :: id in t && t[id] == byId[id]
    ensures WithUpdated(t, Updated(wanted, byId)).Some?
    ensures BroughtTo(t, wanted, byId, WithUpdated(t, Updated(wanted, byId)).value)
  {
    if wanted != [] {
      var n := |wanted| - 1;
      var front, w := wanted[..n], wanted[n];
      UpdateCommits(t, front, byId);
      IdsSnoc(wanted);
      LastUpdate(t, front, w, byId);
    }
  }

  lemma LastUpdate(t: Table, front: seq<ClientRow>, w: ClientRow, byId: map<string, ClientRow>)
    requires w.clientId !in Ids(front) && (w.clientId in byId ==> w.clientId in t && t[w.clientId] == byId[w.clientId])
    requires WithUpdated(t, Updated(front, byId)).Some?
    requires BroughtTo(t, front, byId, WithUpdated(t, Updated(front, byId)).value)
    ensures WithUpdated(t, Updated(front + [w], byId)).Some?
    ensures BroughtTo(t, front + [w], byId, WithUpdated(t, Updated(front + [w], byId)).value)
  {
    var us := Updated(front, byId);
    var t' := WithUpdated(t, us).value;
    UpdatedSnoc(front, w, byId);
    if w.clientId in byId && Changes(byId[w.clientId], w) != map[] {
      OneMoreUpdate(t, us, Update(w.clientId, Changes(byId[w.clientId], w)));
      OneUpdated(t, front, w, byId, t');
    } else {
      if w.clientId in byId { NothingToPut(byId[w.clientId], MANAGED_FIELDS); }
      NothingUpdated(t, front, w, byId, t');
    }
  }

  lemma UpdatedSnoc(front: seq<ClientRow>, w: ClientRow, byId: map<string, ClientRow>)
    ensures Updated(front + [w], byId) ==
            if w.clientId in byId && Changes(byId[w.clientId], w) != map[]
            then Updated(front, byId) + [Update(w.clientId, Changes(byId[w.clientId], w))]
            else Updated(front, byId)
  {
    var all := front + [w];
    assert all[..|all| - 1] == front && all[|all| - 1] == w;
  }

  lemma OneMoreUpdate(t: Table, us: seq<Update>, u: Update)
    ensures WithUpdated(t, us + [u]) ==
            var before := WithUpdated(t, us);
            if before.None? || u.clientId !in before.value then None
            else Some(before.value[u.clientId := PutAll(before.value[u.clientId], MANAGED_FIELDS, u.changes)])
  {
    var all := us + [u];
    assert all[..|all| - 1] == us && all[|all| - 1] == u;
  }

  lemma {:induction false} NothingToPut(r: ClientRow, fields: seq<Field>)
    ensures PutAll(r, fields, map[]) == r
  {
    if fields != [] { NothingToPut(r, fields[..|fields| - 1]); }
  }

  /** The plan's transaction always commits, changes exactly the wanted rows, and brings each to its outcome. */
  lemma ApplyCommits(t: Table, wanted: seq<ClientRow>, current: seq<ClientRow>)
    requires Keyed(t) && Lists(current, t) && Products(wanted)
    ensures Applied(t, Planned(wanted, current)).Some?
    ensures CameTo(t, wanted, Applied(t, Planned(wanted, current)).value)
  {
    var byId := ById(current);
    ByIdOfTable(current, t);
    CreatedRows(wanted, byId);
    var created := Created(wanted, byId);
    CreateCommits(t, created);
    var t1 := WithCreated(t, created).value;
    UpdateCommits(t1, wanted, byId);
    BothCommit(t, wanted, byId, created, t1, WithUpdated(t1, Updated(wanted, byId)).value);
  }

  /** The created rows are there, and the rows that were there are untouched. */
  predicate HasCreated(t: Table, rows: seq<ClientRow>, t': Table) {
    && t'.Keys == t.Keys + Ids(rows)
    && (forall r | r in rows :: r.clientId in t' && t'[r.clientId] == r)
    && (forall id | id in t :: t'[id] == t[id])
  }

  lemma BothCommit(t: Table, wanted: seq<ClientRow>, byId: map<string, ClientRow>, created: seq<ClientRow>, t1: Table,
                   t2: Table)
    requires HasCreated(t, created, t1) && BroughtTo(t1, wanted, byId, t2)
    requires forall w | w in wanted :: w.clientId in byId <==> w.clientId in t
    requires forall id | id in byId :: id in t && byId[id] == t[id]
    requires forall w :: w in created <==> w in wanted && w.clientId !in byId
    ensures CameTo(t, wanted, t2)
  {
    forall w | w in wanted ensures w.clientId in t2 && t2[w.clientId] == Outcome(t, w) {
      if w.clientId !in byId { assert w in created; }
    }
    forall id | id in Ids(created) ensures id in Ids(wanted) {}
    forall id | id in Ids(wanted) ensures id in t2 {}
    assert t2.Keys == t.Keys + Ids(wanted);
  }

  lemma OutcomeIsWanted(t: Table, w: ClientRow, g: Field)
    requires Keyed(t)
    ensures Alike(Get(Outcome(t, w), g), Get(w, g)) && Outcome(t, w).clientId == w.clientId
  {
    if w.clientId in t { ChangedRowIsWanted(t[w.clientId], w, g); }
  }

  lemma {:induction false} NothingPlanned(wanted: seq<ClientRow>, byId: map<string, ClientRow>)
    requires forall w | w in wanted :: w.clientId in byId && Changes(byId[w.clientId], w) == map[]
    ensures Created(wanted, byId) == [] && Updated(wanted, byId) == []
  {
    if wanted != [] {
      var n := |wanted| - 1;
      assert wanted == wanted[..n] + [wanted[n]];
      NothingPlanned(wanted[..n], byId);
    }
  }

  /**
   * Planning and applying converge: for distinct product ids the transaction
   * commits, every wanted row then holds its wanted fields (lists up to
   * order), rows outside `wanted` are untouched, and planning again finds
   * nothing to create or update.
   */
  lemma PlanConverges(t: Table, wanted: seq<ClientRow>, current: seq<ClientRow>, after: seq<ClientRow>)
    requires Keyed(t) && Lists(current, t) && Products(wanted)
    requires Applied(t, Planned(wanted, current)).Some? ==> Lists(after, Applied(t, Planned(wanted, current)).value)
    ensures Applied(t, Planned(wanted, current)).Some?
    ensures CameTo(t, wanted, Applied(t, Planned(wanted, current)).value)
    ensures forall w, g | w in wanted :: Alike(Get(Outcome(t, w), g), Get(w, g))
    ensures Planned(wanted, after).create == [] && Planned(wanted, after).update == []
  {
    ApplyCommits(t, wanted, current);
    var t' := Applied(t, Planned(wanted, current)).value;
    forall w, g | w in wanted ensures Alike(Get(Outcome(t, w), g), Get(w, g)) { OutcomeIsWanted(t, w, g); }
    StillKeyed(t, wanted, t');
    ByIdOfTable(after, t');
    forall w | w in wanted ensures w.clientId in ById(after) && Changes(ById(after)[w.clientId], w) == map[] {
      assert w.clientId in Ids(wanted) && w.clientId in t';
      forall g ensures g !in Changes(Outcome(t, w), w) {
        OutcomeIsWanted(t, w, g);
        PlanTouchesExactlyTheDifferences(Outcome(t, w), w, g);
      }
      assert Changes(Outcome(t, w), w) == map[];
    }
    NothingPlanned(wanted, ById(after));
  }

  lemma StillKeyed(t: Table, wanted: seq<ClientRow>, t': Table)
    requires Keyed(t) && CameTo(t, wanted, t')
    ensures Keyed(t')
  {
    forall id | id in t' ensures t'[id].clientId == id {
      if id in Ids(wanted) {
        var w :| w in wanted && w.clientId == id;
        OutcomeIsWanted(t, w, Name);
      }
    }
  }
}
