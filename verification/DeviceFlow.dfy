/** The device grant of RFC 8628 (src/oauth/device-flow.service.ts), its calls taken one at a time. */
module DeviceFlow {
  import opened Text
  import opened Wrappers
  import Authority

  const DEFAULT_INTERVAL_SECONDS: nat := 5
  const DEFAULT_TTL_MS: int := 600 * 1000

  /** A device code, standing for its hash as well. */
  type Code = nat

  datatype Status = Pending | Approved | Denied | Expired

  datatype Row = Row(
    code: Code,
    userCode: string,
    clientId: string,
    scope: Option<string>,
    resource: Option<string>,
    status: Status,
    userId: Option<string>,
    expiresAt: int,
    interval: nat,
    lastPolledAt: Option<int>)

  /** The table, by device code. */
  type Table = map<Code, Row>

  datatype Reply =
    | Issued(expiresIn: int, interval: nat)
    | NotIssued
    | InvalidTarget
    | NotFound
    | WrongStatus(status: Status)
    | ApprovedNow(row: Row)
    | DenyReturned
    | InvalidGrant
    | ExpiredToken
    | SlowDown
    | AccessDenied
    | AuthorizationPending
    | Granted(row: Row)

  // ---------- looking up a typed code ----------

  function Upper(s: string): string {
    seq(|s|, i requires 0 <= i < |s| => if 'a' <= s[i] <= 'z' then s[i] - 'a' + 'A' else s[i])
  }

  /** `userCode.trim().toUpperCase()` */
  function Normalise(typed: string): string {
    Upper(Trim(typed))
  }

  predicate HasUserCode(rows: Table, userCode: string) {
    exists c | c in rows :: rows[c].userCode == userCode
  }

  /** User codes are unique in the table. */
  predicate UniqueUserCodes(rows: Table) {
    forall c, d | c in rows && d in rows && rows[c].userCode == rows[d].userCode :: c == d
  }

  /** `findByUserCode`: the code of the row, unless it has expired. */
  ghost function FindByUserCode(rows: Table, typed: string, now: int): (r: Option<Code>)
    ensures r.Some? ==> r.value in rows && rows[r.value].userCode == Normalise(typed) && now <= rows[r.value].expiresAt
    ensures r.None? && typed != "" ==>
              forall c | c in rows && UniqueUserCodes(rows) && rows[c].userCode == Normalise(typed) ::
                rows[c].expiresAt < now
  {
    if typed == "" || !HasUserCode(rows, Normalise(typed)) then None
    else
      var c :| c in rows && rows[c].userCode == Normalise(typed);
      if rows[c].expiresAt < now then None else Some(c)
  }

  // ---------- the resource of a code ----------

  /** `resolveResource`: None is the refusal `invalid_target`, Some(None) no resource. */
  function ResolveResource(client: Authority.Client, resource: Option<Authority.Uri>, registry: seq<string>)
    : Option<Option<string>>
  {
    if resource.None? || resource.value.text == "" then Some(None)
    else
      var r := resource.value;
      if r.url.None? then None
      else if '#' in r.text || r.url.value.hash != "" then None
      else if |client.allowedAudiences| > 0 && r.text !in client.allowedAudiences then None
      else if !Authority.IsResourceAllowed(client, resource, registry) then None
      else Some(Some(r.text))
  }

  /**
   * A code is refused for its resource exactly when one is named and it is no
   * absolute URI without fragment, or the client may not target it by the rule
   * of every other grant; else the code carries it unchanged.
   */
  lemma ResourceResolvesExactly(client: Authority.Client, resource: Option<Authority.Uri>, registry: seq<string>)
    ensures var r := ResolveResource(client, resource, registry);
            var named := resource.Some? && resource.value.text != "";
            && (r.Some? <==> !named || (resource.value.url.Some? && resource.value.url.value.hash == ""
                                        && '#' !in resource.value.text
                                        && Authority.IsResourceAllowed(client, resource, registry)))
            && (r.Some? ==> r.value == if named then Some(resource.value.text) else None)
  {
  }

  // ---------- the calls, as functions of the table ----------

  function FreshRow(code: Code, userCode: string, clientId: string, scope: Option<string>,
                    resource: Option<string>, now: int): Row
  {
    Row(code, userCode, clientId, scope, resource, Pending, None, now + DEFAULT_TTL_MS, DEFAULT_INTERVAL_SECONDS, None)
  }

  /** The first of five drawn codes that no row has. */
  function FirstFree(rows: Table, draws: seq<string>): (r: Option<string>)
    ensures r.Some? ==> r.value in draws && !HasUserCode(rows, r.value)
    ensures r.None? <==> forall d | d in draws :: HasUserCode(rows, d)
  {
    if draws == [] then None
    else if !HasUserCode(rows, draws[0]) then Some(draws[0])
    else FirstFree(rows, draws[1..])
  }

  ghost function Approve(rows: Table, typed: string, user: string, now: int): (Table, Reply) {
    match FindByUserCode(rows, Normalise(typed), now)
    case None => (rows, NotFound)
    case Some(c) =>
      var row := rows[c];
      if row.status == Approved && row.userId == Some(user) then (rows, ApprovedNow(row))
      else if row.status != Pending then (rows, WrongStatus(row.status))
      else
        var updated := row.(status := Approved, userId := Some(user));
        (rows[c := updated], ApprovedNow(updated))
  }

  ghost function Deny(rows: Table, typed: string, now: int): Table {
    match FindByUserCode(rows, typed, now)
    case None => rows
    case Some(c) => if rows[c].status != Pending then rows else rows[c := rows[c].(status := Denied)]
  }

  predicate TooSoon(row: Row, now: int) {
    row.lastPolledAt.Some? && now - row.lastPolledAt.value < row.interval * 1000
  }

  /** The answer to a poll that came in time. */
  function Answer(row: Row): Reply {
    match row.status
    case Denied => AccessDenied
    case Pending => AuthorizationPending
    case Expired => InvalidGrant
    case Approved => if row.userId.None? || row.userId == Some("") then InvalidGrant else Granted(row)
  }

  function Poll(rows: Table, code: Code, clientId: string, now: int): (Table, Reply) {
    if code !in rows || rows[code].clientId != clientId then (rows, InvalidGrant)
    else
      var row := rows[code];
      if row.expiresAt < now then (rows[code := row.(status := Expired)], ExpiredToken)
      else if TooSoon(row, now) then
        (rows[code := row.(lastPolledAt := Some(now), interval := row.interval + 5)], SlowDown)
      else
        var touched := rows[code := row.(lastPolledAt := Some(now))];
        (if Answer(row).Granted? then touched - {code} else touched, Answer(row))
  }

  // ---------- the service ----------

  class DeviceFlowService {
    var rows: Table

    constructor ()
      ensures rows == map[]
    {
      rows := map[];
    }

    /** `uniqueUserCode`, on the codes it draws. */
    method UniqueUserCode(draws: seq<string>) returns (r: Option<string>)
      requires |draws| == 5
      ensures r == FirstFree(rows, draws)
    {
      var i := 0;
      assert draws[0..] == draws;
      while i < 5
        invariant 0 <= i <= 5
        invariant FirstFree(rows, draws) == FirstFree(rows, draws[i..])
      {
        assert draws[i..][1..] == draws[i + 1..];
        if !HasUserCode(rows, draws[i]) {
          return Some(draws[i]);
        }
        i := i + 1;
      }
      return None;
    }

    /** `issue`, for a code not drawn before. */
    method Issue(code: Code, draws: seq<string>, client: Authority.Client, scope: Option<string>,
                 resource: Option<Authority.Uri>, registry: seq<string>, now: int) returns (r: Reply, userCode: string)
      requires |draws| == 5 && code !in rows
      modifies this
      ensures var target := ResolveResource(client, resource, registry);
              if target.None? then r == InvalidTarget && rows == old(rows)
              else match FirstFree(old(rows), draws)
                case None => r == NotIssued && rows == old(rows)
                case Some(free) =>
                  && userCode == free && r == Issued(DEFAULT_TTL_MS / 1000, DEFAULT_INTERVAL_SECONDS)
                  && rows == old(rows)[code := FreshRow(code, free, client.clientId, scope, target.value, now)]
      ensures UniqueUserCodes(old(rows)) ==> UniqueUserCodes(rows)
    {
      userCode := "";
      var target := ResolveResource(client, resource, registry);
      if target.None? {
        return InvalidTarget, userCode;
      }
      var free := UniqueUserCode(draws);
      if free.None? {
        return NotIssued, userCode;
      }
      userCode := free.value;
      rows := rows[code := FreshRow(code, userCode, client.clientId, scope, target.value, now)];
      r := Issued(DEFAULT_TTL_MS / 1000, DEFAULT_INTERVAL_SECONDS);
    }

    method Find(typed: string, now: int) returns (r: Option<Code>)
      requires UniqueUserCodes(rows)
      ensures r == FindByUserCode(rows, typed, now)
    {
      if typed == "" {
        return None;
      }
      var normalised := Normalise(typed);
      if !HasUserCode(rows, normalised) {
        return None;
      }
      var c :| c in rows && rows[c].userCode == normalised;
      r := if rows[c].expiresAt < now then None else Some(c);
    }

    method ApproveCode(typed: string, user: string, now: int) returns (r: Reply)
      requires UniqueUserCodes(rows)
      modifies this
      ensures (rows, r) == Approve(old(rows), typed, user, now)
    {
      var found := Find(Normalise(typed), now);
      if found.None? {
        return NotFound;
      }
      var row := rows[found.value];
      if row.status == Approved && row.userId == Some(user) {
        return ApprovedNow(row);
      }
      if row.status != Pending {
        return WrongStatus(row.status);
      }
      rows := rows[found.value := row.(status := Approved, userId := Some(user))];
      r := ApprovedNow(rows[found.value]);
    }

    method DenyCode(typed: string, now: int)
      requires UniqueUserCodes(rows)
      modifies this
      ensures rows == Deny(old(rows), typed, now)
    {
      var found := Find(typed, now);
      if found.None? {
        return;
      }
      if rows[found.value].status != Pending {
        return;
      }
      rows := rows[found.value := rows[found.value].(status := Denied)];
    }

    method PollForApproval(code: Code, clientId: string, now: int) returns (r: Reply)
      modifies this
      ensures (rows, r) == Poll(old(rows), code, clientId, now)
    {
      if code !in rows || rows[code].clientId != clientId {
        return InvalidGrant;
      }
      var row := rows[code];
      if row.expiresAt < now {
        rows := rows[code := rows[code].(status := Expired)];
        return ExpiredToken;
      }
      if row.lastPolledAt.Some? {
        var sinceLast := now - row.lastPolledAt.value;
        if sinceLast < row.interval * 1000 {
          rows := rows[code := rows[code].(lastPolledAt := Some(now), interval := row.interval + 5)];
          return SlowDown;
        }
      }
      rows := rows[code := rows[code].(lastPolledAt := Some(now))];
      if row.status == Denied {
        return AccessDenied;
      }
      if row.status == Pending {
        return AuthorizationPending;
      }
      if row.status != Approved || row.userId.None? || row.userId == Some("") {
        return InvalidGrant;
      }
      rows := rows - {code};
      r := Granted(row);
    }
  }

  // ---------- runs ----------

  /** A call at a time of the server's clock, which need not be honest. */
  datatype Event =
    | IssueAt(code: Code, userCode: string, clientId: string, scope: Option<string>, resource: Option<string>, now: int)
    | ApproveAt(typed: string, user: string, now: int)
    | DenyAt(typed: string, now: int)
    | PollAt(code: Code, clientId: string, now: int)

  /** The table, and every device code drawn so far: none is drawn twice. */
  datatype State = State(rows: Table, drawn: set<Code>)

  ghost function Do(s: State, e: Event): (State, Reply) {
    match e
    case IssueAt(code, userCode, clientId, scope, resource, now) =>
      if code in s.drawn || HasUserCode(s.rows, userCode) then (s, NotIssued)
      else
        (State(s.rows[code := FreshRow(code, userCode, clientId, scope, resource, now)], s.drawn + {code}),
         Issued(DEFAULT_TTL_MS / 1000, DEFAULT_INTERVAL_SECONDS))
    case ApproveAt(typed, user, now) =>
      var (rows, reply) := Approve(s.rows, typed, user, now);
      (s.(rows := rows), reply)
    case DenyAt(typed, now) => (s.(rows := Deny(s.rows, typed, now)), DenyReturned)
    case PollAt(code, clientId, now) =>
      var (rows, reply) := Poll(s.rows, code, clientId, now);
      (s.(rows := rows), reply)
  }

  const NO_ROWS := State(map[], {})

  ghost function Run(s: State, events: seq<Event>): State {
    if events == [] then s
    else Do(Run(s, events[..|events| - 1]), events[|events| - 1]).0
  }

  /** What the i-th call of a run answered. */
  ghost function ReplyAt(s: State, events: seq<Event>, i: nat): Reply
    requires i < |events|
  {
    Do(Run(s, events[..i]), events[i]).1
  }

  // ---------- what every call keeps ----------

  predicate RowOk(row: Row) {
    && (row.status == Approved ==> row.userId.Some?)
    && (row.status == Pending || row.status == Denied ==> row.userId.None?)
  }

  predicate Inv(s: State) {
    && s.rows.Keys <= s.drawn
    && UniqueUserCodes(s.rows)
    && forall c | c in s.rows :: s.rows[c].code == c && RowOk(s.rows[c])
  }

  /** How a row may change: only a pending one is decided, and only expiry follows. */
  predicate RowLater(a: Row, b: Row) {
    && b.code == a.code && b.userCode == a.userCode && b.clientId == a.clientId && b.expiresAt == a.expiresAt
    && b.scope == a.scope && b.resource == a.resource
    && a.interval <= b.interval
    && (a.status == Pending || b.status == a.status || b.status == Expired)
    && (a.status != Pending ==> b.userId == a.userId)
  }

  /** No code is forgotten, none comes back, and rows only move forward. */
  predicate Later(s: State, t: State) {
    && s.drawn <= t.drawn
    && forall c | c in t.rows :: (c in s.rows && RowLater(s.rows[c], t.rows[c])) || c !in s.drawn
  }

  lemma UpdateKeeps(s: State, c: Code, row: Row)
    requires Inv(s) && c in s.rows && RowOk(row) && RowLater(s.rows[c], row)
    ensures Inv(s.(rows := s.rows[c := row])) && Later(s, s.(rows := s.rows[c := row]))
  {
  }

  lemma DeleteKeeps(s: State, c: Code)
    requires Inv(s) && c in s.rows
    ensures Inv(s.(rows := s.rows - {c})) && Later(s, s.(rows := s.rows - {c}))
  {
  }

  lemma PollKeeps(s: State, code: Code, clientId: string, now: int)
    requires Inv(s)
    ensures var t := s.(rows := Poll(s.rows, code, clientId, now).0); Inv(t) && Later(s, t)
  {
    if code in s.rows {
      var row := s.rows[code];
      var touched := row.(lastPolledAt := Some(now));
      if row.expiresAt < now {
        UpdateKeeps(s, code, row.(status := Expired));
      } else if TooSoon(row, now) {
        UpdateKeeps(s, code, row.(lastPolledAt := Some(now), interval := row.interval + 5));
      } else if Answer(row).Granted? {
        DeleteKeeps(s, code);
        assert s.rows[code := touched] - {code} == s.rows - {code};
      } else {
        UpdateKeeps(s, code, touched);
      }
    }
  }

  lemma IssueKeeps(s: State, c: Code, row: Row)
    requires Inv(s) && c !in s.drawn && row.code == c && !HasUserCode(s.rows, row.userCode) && RowOk(row)
    ensures var t := State(s.rows[c := row], s.drawn + {c}); Inv(t) && Later(s, t)
  {
  }

  lemma ApproveKeeps(s: State, typed: string, user: string, now: int)
    requires Inv(s)
    ensures var t := s.(rows := Approve(s.rows, typed, user, now).0); Inv(t) && Later(s, t)
  {
    var found := FindByUserCode(s.rows, Normalise(typed), now);
    if found.Some? && s.rows[found.value].status == Pending {
      UpdateKeeps(s, found.value, s.rows[found.value].(status := Approved, userId := Some(user)));
    }
  }

  lemma DenyKeeps(s: State, typed: string, now: int)
    requires Inv(s)
    ensures var t := s.(rows := Deny(s.rows, typed, now)); Inv(t) && Later(s, t)
  {
    var found := FindByUserCode(s.rows, typed, now);
    if found.Some? && s.rows[found.value].status == Pending {
      UpdateKeeps(s, found.value, s.rows[found.value].(status := Denied));
    }
  }

  lemma DoKeeps(s: State, e: Event)
    requires Inv(s)
    ensures Inv(Do(s, e).0) && Later(s, Do(s, e).0)
  {
    match e
    case IssueAt(code, userCode, clientId, scope, resource, now) =>
      if code !in s.drawn && !HasUserCode(s.rows, userCode) {
        IssueKeeps(s, code, FreshRow(code, userCode, clientId, scope, resource, now));
      }
    case ApproveAt(typed, user, now) => ApproveKeeps(s, typed, user, now);
    case DenyAt(typed, now) => DenyKeeps(s, typed, now);
    case PollAt(code, clientId, now) => PollKeeps(s, code, clientId, now);
  }

  lemma {:induction false} RunKeeps(s: State, events: seq<Event>)
    requires Inv(s)
    ensures Inv(Run(s, events)) && Later(s, Run(s, events))
  {
    if events != [] {
      var n := |events| - 1;
      RunKeeps(s, events[..n]);
      DoKeeps(Run(s, events[..n]), events[n]);
    }
  }

  /**
   * A decision is final, whatever calls follow: a denied code is never approved, an approved one is
   * approved for the same user, and a code once used up or expired never grants again.
   */
  lemma DecisionsAreFinal(s: State, events: seq<Event>, c: Code)
    requires Inv(s) && c in s.drawn
    ensures var t := Run(s, events);
            if c !in s.rows then c !in t.rows
            else if s.rows[c].status == Pending then true
            else c in t.rows ==> (t.rows[c].status == s.rows[c].status || t.rows[c].status == Expired)
                                 && t.rows[c].userId == s.rows[c].userId
    ensures c in s.rows && c !in Run(s, events).rows ==> s.rows[c].status == Pending || s.rows[c].status == Approved
  {
    RunKeeps(s, events);
    if c in s.rows && s.rows[c].status != Pending && s.rows[c].status != Approved {
      UngrantedStays(s, events, c);
    }
  }

  /** A row that is denied or expired is never deleted. */
  lemma {:induction false} UngrantedStays(s: State, events: seq<Event>, c: Code)
    requires Inv(s) && c in s.rows && s.rows[c].status != Pending && s.rows[c].status != Approved
    ensures c in Run(s, events).rows
  {
    if events != [] {
      var n := |events| - 1;
      UngrantedStays(s, events[..n], c);
      RunKeeps(s, events[..n]);
      hide Do, Inv;
      UngrantedStep(Run(s, events[..n]), events[n], c);
    }
  }

  lemma UngrantedStep(s: State, e: Event, c: Code)
    requires c in s.rows && s.rows[c].status != Pending && s.rows[c].status != Approved
    ensures c in Do(s, e).0.rows
  {
  }

  // ---------- grants ----------

  /** The event approved the row, in time, for the row's user. */
  predicate Approves(e: Event, row: Row) {
    && e.ApproveAt? && row.userId == Some(e.user) && Normalise(Normalise(e.typed)) == row.userCode
    && e.now <= row.expiresAt
  }

  lemma ApprovalStep(s: State, e: Event, c: Code)
    requires Inv(s) && c in Do(s, e).0.rows && Do(s, e).0.rows[c].status == Approved
    ensures var row := Do(s, e).0.rows[c];
            || Approves(e, row)
            || (c in s.rows && s.rows[c].status == Approved && RowLater(s.rows[c], row))
  {
    DoKeeps(s, e);
    RowIsApproved(s, e, c);
    hide Do, Inv, RowLater, Approves;
  }

  lemma RowIsApproved(s: State, e: Event, c: Code)
    requires s.rows.Keys <= s.drawn && c in Do(s, e).0.rows && Do(s, e).0.rows[c].status == Approved
    ensures Approves(e, Do(s, e).0.rows[c]) || (c in s.rows && s.rows[c].status == Approved && c in s.drawn)
  {
    hide Normalise;
    match e
    case IssueAt(_, _, _, _, _, _) =>
    case ApproveAt(typed, user, now) =>
    case DenyAt(_, _) =>
    case PollAt(code, clientId, now) => PolledRow(s.rows, code, clientId, now, c);
  }

  /** A poll approves nothing. */
  lemma PolledRow(rows: Table, code: Code, clientId: string, now: int, c: Code)
    requires c in Poll(rows, code, clientId, now).0 && Poll(rows, code, clientId, now).0[c].status == Approved
    ensures c in rows && rows[c].status == Approved
  {
  }

  lemma {:induction false} ApprovedByEvent(events: seq<Event>, c: Code)
    requires c in Run(NO_ROWS, events).rows && Run(NO_ROWS, events).rows[c].status == Approved
    ensures exists i | 0 <= i < |events| :: Approves(events[i], Run(NO_ROWS, events).rows[c])
  {
    if events != [] {
      var n := |events| - 1;
      var before, after := Run(NO_ROWS, events[..n]), Run(NO_ROWS, events);
      RunKeeps(NO_ROWS, events[..n]);
      ApprovalStep(before, events[n], c);
      if !Approves(events[n], after.rows[c]) {
        ApprovedByEvent(events[..n], c);
        var i :| 0 <= i < n && Approves(events[..n][i], before.rows[c]);
        assert Approves(events[i], after.rows[c]);
      }
    }
  }

  /**
   * A poll that is granted names the client the code was issued to, comes before the code's expiry, and
   * follows a call that approved the typed code, in time, for the user in the row.
   */
  lemma GrantNeedsApproval(events: seq<Event>, e: Event)
    requires Do(Run(NO_ROWS, events), e).1.Granted?
    ensures e.PollAt?
    ensures var row := Do(Run(NO_ROWS, events), e).1.row;
            && row.clientId == e.clientId && e.now <= row.expiresAt
            && row.userId.Some? && row.userId.value != ""
            && exists i | 0 <= i < |events| :: Approves(events[i], row)
  {
    GrantedRow(Run(NO_ROWS, events), e);
    ApprovedByEvent(events, e.code);
  }

  lemma GrantedRow(s: State, e: Event)
    requires Do(s, e).1.Granted?
    ensures e.PollAt? && e.code in s.rows && Do(s, e).1.row == s.rows[e.code] && e.code !in Do(s, e).0.rows
    ensures var row := s.rows[e.code];
            && row.status == Approved && row.clientId == e.clientId && e.now <= row.expiresAt
            && row.userId.Some? && row.userId.value != ""
  {
  }

  /** Once granted, a code answers no later poll with a grant, nor with anything but invalid_grant. */
  lemma GrantedOnce(events: seq<Event>, e: Event, after: seq<Event>, again: Event)
    requires Do(Run(NO_ROWS, events), e).1.Granted?
    requires again.PollAt? && e.PollAt? && again.code == e.code
    ensures Do(Run(Do(Run(NO_ROWS, events), e).0, after), again).1 == InvalidGrant
  {
    var s := Run(NO_ROWS, events);
    GrantedRow(s, e);
    RunKeeps(NO_ROWS, events);
    DoKeeps(s, e);
    DecisionsAreFinal(Do(s, e).0, after, e.code);
  }

  // ---------- polling ----------

  predicate PollOf(e: Event, c: Code) {
    e.PollAt? && e.code == c
  }

  /** How many polls of a code were told to slow down. */
  ghost function SlowDowns(s: State, events: seq<Event>, c: Code): nat {
    if events == [] then 0
    else
      var n := |events| - 1;
      var e := events[n];
      SlowDowns(s, events[..n], c)
      + (if SlowedDown(Run(s, events[..n]), e, c) then 1 else 0)
  }

  predicate SlowedDown(s: State, e: Event, c: Code) {
    PollOf(e, c) && Poll(s.rows, c, e.clientId, e.now).1 == SlowDown
  }

  lemma IntervalStep(s: State, e: Event, c: Code)
    requires Inv(s)
    ensures var t := Do(s, e).0;
            && (c in t.rows && c !in s.rows ==> c !in s.drawn && t.rows[c].interval == 5)
            && (c in t.rows && c in s.rows ==>
                  t.rows[c].interval == s.rows[c].interval + if SlowedDown(s, e, c) then 5 else 0)
  {
    if e.PollAt? && e.code in s.rows { assert PollOf(e, e.code); }
  }

  /** The interval is the five seconds of section 3.2 plus five for each slow_down, as section 3.5 asks. */
  lemma {:induction false} IntervalCountsSlowDowns(events: seq<Event>, c: Code)
    ensures c in Run(NO_ROWS, events).rows ==>
              Run(NO_ROWS, events).rows[c].interval == 5 + 5 * SlowDowns(NO_ROWS, events, c)
    ensures c !in Run(NO_ROWS, events).drawn ==> SlowDowns(NO_ROWS, events, c) == 0
  {
    if events != [] {
      var n := |events| - 1;
      IntervalCountsSlowDowns(events[..n], c);
      RunKeeps(NO_ROWS, events[..n]);
      IntervalStep(Run(NO_ROWS, events[..n]), events[n], c);
    }
  }

  lemma {:induction false} LastPollIsAnEvent(events: seq<Event>, c: Code)
    requires c in Run(NO_ROWS, events).rows && Run(NO_ROWS, events).rows[c].lastPolledAt.Some?
    ensures exists i | 0 <= i < |events| ::
              PollOf(events[i], c) && events[i].now == Run(NO_ROWS, events).rows[c].lastPolledAt.value
  {
    if events != [] {
      var n := |events| - 1;
      var before, after := Run(NO_ROWS, events[..n]), Run(NO_ROWS, events);
      RunKeeps(NO_ROWS, events[..n]);
      if PollOf(events[n], c) && after.rows[c].lastPolledAt == Some(events[n].now) {
        assert PollOf(events[n], c);
      } else {
        assert c in before.rows && before.rows[c].lastPolledAt == after.rows[c].lastPolledAt;
        LastPollIsAnEvent(events[..n], c);
        var i :| 0 <= i < n && PollOf(events[..n][i], c) && events[..n][i].now == before.rows[c].lastPolledAt.value;
        assert PollOf(events[i], c);
      }
    }
  }

  /**
   * The poll comes after every earlier one by the interval the device knows
   * of: five seconds, and five more per slow_down.
   */
  ghost predicate Spaced(events: seq<Event>, i: nat, c: Code)
    requires i < |events|
  {
    forall j | 0 <= j < i && PollOf(events[j], c) ::
      events[i].now - events[j].now >= (5 + 5 * SlowDowns(NO_ROWS, events[..i], c)) * 1000
  }

  /** A poll spaced by the current interval is never told to slow down. */
  lemma SpacedPollIsNotSlowed(events: seq<Event>, i: nat, c: Code)
    requires i < |events| && PollOf(events[i], c) && Spaced(events, i, c)
    ensures ReplyAt(NO_ROWS, events, i) != SlowDown
  {
    var before := events[..i];
    var s := Run(NO_ROWS, before);
    if c in s.rows && s.rows[c].lastPolledAt.Some? {
      LastPollIsAnEvent(before, c);
      var j :| 0 <= j < i && PollOf(before[j], c) && before[j].now == s.rows[c].lastPolledAt.value;
      IntervalCountsSlowDowns(before, c);
      assert PollOf(events[j], c);
    }
  }

  /** So a device that always waits five seconds is never told to slow down. */
  lemma {:induction false} PatientDevice(events: seq<Event>, c: Code)
    requires forall i, j | 0 <= j < i < |events| && PollOf(events[i], c) && PollOf(events[j], c) ::
               events[i].now - events[j].now >= 5000
    ensures SlowDowns(NO_ROWS, events, c) == 0
  {
    if events != [] {
      var n := |events| - 1;
      PatientDevice(events[..n], c);
      if PollOf(events[n], c) {
        assert Spaced(events, n, c);
        SpacedPollIsNotSlowed(events, n, c);
      }
    }
  }
}
