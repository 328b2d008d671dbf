/** The same calls with their statements interleaved (src/oauth/device-flow.service.ts). */
module DeviceRaces {
  import opened DeviceFlow
  import opened Wrappers

  /** Where a call stands. A row it read may be stale by the time it writes. */
  datatype Call =
    | Polling(code: Code, clientId: string)
    | MarkingExpired(code: Code)
    | SlowingDown(code: Code, at: int, interval: nat)
    | Touching(code: Code, row: Row, at: int)
    | Deleting(code: Code, row: Row)
    | Approving(typed: string, user: string)
    | WritingApproval(code: Code, user: string)
    | Denying(typed: string)
    | WritingDenial(code: Code)
    | Finished(outcome: Outcome)

  /** An update or delete of a row that is gone fails. */
  datatype Outcome = Answered(reply: Reply) | RowIsGone

  datatype System = System(rows: Table, drawn: set<Code>, calls: map<nat, Call>, now: int)

  datatype Action =
    | Draw(code: Code, userCode: string, clientId: string, scope: Option<string>, resource: Option<string>)
    | Begin(id: nat, call: Call)
    | Next(id: nat)
    | Tick(to: int)

  // ---------- statements ----------

  /** `findUnique` by the device code, and what the call decides on the row and the clock. */
  function ReadPoll(rows: Table, code: Code, clientId: string, now: int): Call {
    if code !in rows || rows[code].clientId != clientId then Finished(Answered(InvalidGrant))
    else if rows[code].expiresAt < now then MarkingExpired(code)
    else if TooSoon(rows[code], now) then SlowingDown(code, now, rows[code].interval)
    else Touching(code, rows[code], now)
  }

  ghost function ReadApproval(rows: Table, typed: string, user: string, now: int): Call {
    match FindByUserCode(rows, Normalise(typed), now)
    case None => Finished(Answered(NotFound))
    case Some(c) =>
      if rows[c].status == Approved && rows[c].userId == Some(user) then Finished(Answered(ApprovedNow(rows[c])))
      else if rows[c].status != Pending then Finished(Answered(WrongStatus(rows[c].status)))
      else WritingApproval(c, user)
  }

  ghost function ReadDenial(rows: Table, typed: string, now: int): Call {
    match FindByUserCode(rows, typed, now)
    case None => Finished(Answered(DenyReturned))
    case Some(c) => if rows[c].status != Pending then Finished(Answered(DenyReturned)) else WritingDenial(c)
  }

  /** One statement of a call: the table after it, and where the call stands. */
  ghost function Statement(rows: Table, call: Call, now: int): (Table, Call) {
    match call
    case Polling(code, clientId) => (rows, ReadPoll(rows, code, clientId, now))
    case Approving(typed, user) => (rows, ReadApproval(rows, typed, user, now))
    case Denying(typed) => (rows, ReadDenial(rows, typed, now))
    case Finished(_) => (rows, call)
    case _ => if call.code !in rows then (rows, Finished(RowIsGone)) else Write(rows, call)
  }

  /** A write to a row that is there. */
  function Write(rows: Table, call: Call): (Table, Call)
    requires !call.Polling? && !call.Approving? && !call.Denying? && !call.Finished? && call.code in rows
  {
    var row := rows[call.code];
    match call
    case MarkingExpired(c) => (rows[c := row.(status := Expired)], Finished(Answered(ExpiredToken)))
    case SlowingDown(c, at, interval) =>
      (rows[c := row.(lastPolledAt := Some(at), interval := interval + 5)], Finished(Answered(SlowDown)))
    case Touching(c, seen, at) =>
      (rows[c := row.(lastPolledAt := Some(at))],
       if Answer(seen).Granted? then Deleting(c, seen) else Finished(Answered(Answer(seen))))
    case Deleting(c, seen) => (rows - {c}, Finished(Answered(Granted(seen))))
    case WritingApproval(c, user) =>
      var updated := row.(status := Approved, userId := Some(user));
      (rows[c := updated], Finished(Answered(ApprovedNow(updated))))
    case WritingDenial(c) => (rows[c := row.(status := Denied)], Finished(Answered(DenyReturned)))
  }

  predicate IsStart(call: Call) {
    call.Polling? || call.Approving? || call.Denying?
  }

  ghost function Apply(s: System, a: Action): System {
    match a
    case Draw(code, userCode, clientId, scope, resource) =>
      if code in s.drawn || HasUserCode(s.rows, userCode) then s
      else
        s.(rows := s.rows[code := FreshRow(code, userCode, clientId, scope, resource, s.now)],
           drawn := s.drawn + {code})
    case Begin(id, call) => if id in s.calls || !IsStart(call) then s else s.(calls := s.calls[id := call])
    case Next(id) =>
      if id !in s.calls then s
      else
        var (rows, call) := Statement(s.rows, s.calls[id], s.now);
        s.(rows := rows, calls := s.calls[id := call])
    case Tick(to) => if to < s.now then s else s.(now := to)
  }

  ghost function Run(s: System, actions: seq<Action>): System
    decreases |actions|
  {
    if actions == [] then s else Run(Apply(s, actions[0]), actions[1..])
  }

  function Initial(now: int): System {
    System(map[], {}, map[], now)
  }

  // ---------- one call alone ----------

  ghost function Steps(rows: Table, call: Call, now: int, n: nat): (Table, Call)
    decreases n
  {
    if n == 0 then (rows, call)
    else
      var (rows', call') := Statement(rows, call, now);
      Steps(rows', call', now, n - 1)
  }

  /** Without interference the statements of a call do what the call does at once. */
  lemma PollAlone(rows: Table, code: Code, clientId: string, now: int)
    ensures var (after, reply) := Poll(rows, code, clientId, now);
            Steps(rows, Polling(code, clientId), now, 3) == (after, Finished(Answered(reply)))
  {
    var call := ReadPoll(rows, code, clientId, now);
    assert Steps(rows, Polling(code, clientId), now, 3) == Steps(rows, call, now, 2);
    if !call.Finished? {
      var (rows1, call1) := Write(rows, call);
      assert Steps(rows, call, now, 2) == Steps(rows1, call1, now, 1);
      assert Steps(rows1, call1, now, 1) == Statement(rows1, call1, now);
    }
  }

  lemma ApproveAlone(rows: Table, typed: string, user: string, now: int)
    ensures var (after, reply) := Approve(rows, typed, user, now);
            Steps(rows, Approving(typed, user), now, 2) == (after, Finished(Answered(reply)))
  {
    var call := ReadApproval(rows, typed, user, now);
    assert Steps(rows, Approving(typed, user), now, 2) == Steps(rows, call, now, 1);
  }

  lemma DenyAlone(rows: Table, typed: string, now: int)
    ensures Steps(rows, Denying(typed), now, 2) == (Deny(rows, typed, now), Finished(Answered(DenyReturned)))
  {
    var call := ReadDenial(rows, typed, now);
    assert Steps(rows, Denying(typed), now, 2) == Steps(rows, call, now, 1);
  }

  // ---------- a code is granted once ----------

  /** The call has handed out the row of this code. */
  predicate Grants(call: Call, c: Code) {
    call.Finished? && call.outcome.Answered? && call.outcome.reply.Granted? && call.outcome.reply.row.code == c
  }

  /** A row a call has read is a row that was drawn, and one it is about to hand out is approved. */
  predicate CallOk(call: Call, drawn: set<Code>) {
    match call
    case Touching(c, row, at) => row.code == c && c in drawn && at <= row.expiresAt
    case Deleting(c, row) => row.code == c && c in drawn && Answer(row).Granted?
    case _ => true
  }

  predicate TableOk(s: System) {
    s.rows.Keys <= s.drawn && forall c | c in s.rows :: s.rows[c].code == c
  }

  predicate CallsOk(s: System) {
    forall id | id in s.calls :: CallOk(s.calls[id], s.drawn)
  }

  /** A code handed out is gone, for good, and was handed out by one call. */
  ghost predicate GrantsOk(s: System) {
    && (forall id, c | id in s.calls && Grants(s.calls[id], c) :: c !in s.rows && c in s.drawn)
    && (forall id, id', c | id in s.calls && id' in s.calls && Grants(s.calls[id], c) && Grants(s.calls[id'], c) ::
          id == id')
  }

  ghost predicate Inv(s: System) {
    TableOk(s) && CallsOk(s) && GrantsOk(s)
  }

  lemma NextKeeps(s: System, id: nat)
    requires Inv(s) && id in s.calls
    ensures Inv(Apply(s, Next(id)))
  {
    var t := Apply(s, Next(id));
    StatementKeeps(s, id);
    assert t.rows.Keys <= s.rows.Keys;
  }

  /** A statement adds no row, and hands out only a row it deletes. */
  lemma StatementKeeps(s: System, id: nat)
    requires Inv(s) && id in s.calls
    ensures var (rows, call) := Statement(s.rows, s.calls[id], s.now);
            && rows.Keys <= s.rows.Keys
            && (forall c | c in rows :: rows[c].code == c)
            && CallOk(call, s.drawn)
            && (forall c | Grants(call, c) :: c !in rows && (Grants(s.calls[id], c) || c in s.rows))
  {
  }

  lemma ApplyKeeps(s: System, a: Action)
    requires Inv(s)
    ensures Inv(Apply(s, a)) && s.drawn <= Apply(s, a).drawn
  {
    if a.Next? && a.id in s.calls { NextKeeps(s, a.id); }
  }

  lemma {:induction false} RunKeeps(s: System, actions: seq<Action>)
    requires Inv(s)
    ensures Inv(Run(s, actions))
    decreases |actions|
  {
    if actions != [] {
      ApplyKeeps(s, actions[0]);
      RunKeeps(Apply(s, actions[0]), actions[1..]);
    }
  }

  /**
   * Over every interleaving of any number of polls, approvals and denials, a device code is handed out
   * by at most one call, and its row is gone by then.
   */
  lemma GrantedAtMostOnce(start: int, actions: seq<Action>, p: nat, q: nat, c: Code)
    requires var s := Run(Initial(start), actions);
             p in s.calls && q in s.calls && Grants(s.calls[p], c) && Grants(s.calls[q], c)
    ensures p == q && c !in Run(Initial(start), actions).rows
  {
    RunKeeps(Initial(start), actions);
  }

  // ---------- what interleaving breaks ----------

  predicate WritesApproval(s: System, id: nat, c: Code) {
    id in s.calls && s.calls[id].WritingApproval? && s.calls[id].code == c
  }

  ghost predicate NoApprovalUnderWay(s: System, c: Code) {
    forall id | id in s.calls :: !WritesApproval(s, id, c)
  }

  predicate IsApproved(s: System, c: Code) {
    c in s.rows && s.rows[c].status == Approved
  }

  /** A decided code with no approval under way. */
  ghost predicate Refused(s: System, c: Code) {
    && c in s.drawn && NoApprovalUnderWay(s, c)
    && (c in s.rows ==> s.rows[c].status == Denied || s.rows[c].status == Expired)
  }

  lemma RefusedStep(s: System, a: Action, c: Code)
    requires Refused(s, c)
    ensures Refused(Apply(s, a), c)
  {
    var t := Apply(s, a);
    forall id | id in t.calls ensures !WritesApproval(t, id, c) {
      if id in s.calls { assert !WritesApproval(s, id, c); }
    }
    if a.Next? && a.id in s.calls { assert !WritesApproval(s, a.id, c); }
  }

  lemma {:induction false} RefusedForGood(s: System, actions: seq<Action>, c: Code)
    requires Refused(s, c)
    ensures Refused(Run(s, actions), c)
    decreases |actions|
  {
    if actions != [] {
      RefusedStep(s, actions[0], c);
      RefusedForGood(Apply(s, actions[0]), actions[1..], c);
    }
  }

  lemma ApprovalWrites(s: System, id: nat, c: Code)
    requires WritesApproval(s, id, c) && c in s.rows
    ensures IsApproved(Apply(s, Next(id)), c)
  {
    assert Statement(s.rows, s.calls[id], s.now) == Write(s.rows, s.calls[id]);
  }

  /**
   * With statements interleaved, a denied code can still become approved in exactly one case: when an
   * approval had read the row while it was pending and has not written yet.
   */
  lemma DenialHoldsExactly(s: System, c: Code)
    requires c in s.rows && c in s.drawn && s.rows[c].status == Denied
    ensures (forall actions :: !IsApproved(Run(s, actions), c)) <==> NoApprovalUnderWay(s, c)
  {
    if NoApprovalUnderWay(s, c) {
      forall actions ensures !IsApproved(Run(s, actions), c) {
        RefusedForGood(s, actions, c);
      }
    } else {
      var id :| id in s.calls && WritesApproval(s, id, c);
      ApprovalWrites(s, id, c);
      RunOne(s, Next(id));
      assert IsApproved(Run(s, [Next(id)]), c);
    }
  }

  lemma RunOne(s: System, a: Action)
    ensures Run(s, [a]) == Apply(s, a)
  {
    assert [a][1..] == [];
  }

  /** A write under way that would change who approved a code, or take the approval back. */
  predicate Overwrites(call: Call, c: Code, user: string) {
    (call.WritingApproval? && call.code == c && call.user != user) || (call.WritingDenial? && call.code == c)
  }

  ghost predicate NoOverwriteUnderWay(s: System, c: Code, user: string) {
    forall id | id in s.calls :: !Overwrites(s.calls[id], c, user)
  }

  /** The row is still approved for the user, has expired since, or is gone. */
  predicate StillFor(s: System, c: Code, user: string) {
    c in s.rows ==> (s.rows[c].status == Approved || s.rows[c].status == Expired) && s.rows[c].userId == Some(user)
  }

  ghost predicate Settled(s: System, c: Code, user: string) {
    c in s.drawn && StillFor(s, c, user) && NoOverwriteUnderWay(s, c, user)
  }

  lemma SettledStep(s: System, a: Action, c: Code, user: string)
    requires Settled(s, c, user)
    ensures Settled(Apply(s, a), c, user)
  {
    var t := Apply(s, a);
    forall id | id in t.calls ensures !Overwrites(t.calls[id], c, user) {
      if id in s.calls { assert !Overwrites(s.calls[id], c, user); }
    }
    if a.Next? && a.id in s.calls { assert !Overwrites(s.calls[a.id], c, user); }
  }

  lemma {:induction false} SettledForGood(s: System, actions: seq<Action>, c: Code, user: string)
    requires Settled(s, c, user)
    ensures Settled(Run(s, actions), c, user)
    decreases |actions|
  {
    if actions != [] {
      SettledStep(s, actions[0], c, user);
      SettledForGood(Apply(s, actions[0]), actions[1..], c, user);
    }
  }

  lemma OverwriteWrites(s: System, id: nat, c: Code, user: string)
    requires id in s.calls && Overwrites(s.calls[id], c, user) && c in s.rows
    ensures !StillFor(Apply(s, Next(id)), c, user)
  {
    assert Statement(s.rows, s.calls[id], s.now) == Write(s.rows, s.calls[id]);
  }

  /**
   * An approved code keeps its user and its approval (until it expires or is
   * handed out) over every interleaving exactly when no other approval and no
   * denial had read the row while it was pending and has not written yet.
   */
  lemma ApprovalHoldsExactly(s: System, c: Code, user: string)
    requires c in s.rows && c in s.drawn && s.rows[c].status == Approved && s.rows[c].userId == Some(user)
    ensures (forall actions :: StillFor(Run(s, actions), c, user)) <==> NoOverwriteUnderWay(s, c, user)
  {
    if NoOverwriteUnderWay(s, c, user) {
      forall actions ensures StillFor(Run(s, actions), c, user) {
        SettledForGood(s, actions, c, user);
      }
    } else {
      var id :| id in s.calls && Overwrites(s.calls[id], c, user);
      OverwriteWrites(s, id, c, user);
      RunOne(s, Next(id));
      assert !StillFor(Run(s, [Next(id)]), c, user);
    }
  }

  // ---------- a grant was approved ----------

  /** The k-th action of the run is the next statement of a call that stands so. */
  ghost predicate TakesAt(start: int, actions: seq<Action>, k: nat, id: nat, call: Call) {
    && k < |actions| && actions[k] == Next(id)
    && id in Run(Initial(start), actions[..k]).calls && Run(Initial(start), actions[..k]).calls[id] == call
  }

  /** Some call read the typed code, pending and in time, and went on to approve it for the user. */
  ghost predicate ReadFor(start: int, actions: seq<Action>, id: nat, c: Code, user: string) {
    exists k: nat, typed: string ::
      && TakesAt(start, actions, k, id, Approving(typed, user))
      && ReadApproval(Run(Initial(start), actions[..k]).rows, typed, user, Run(Initial(start), actions[..k]).now)
         == WritingApproval(c, user)
  }

  /** And wrote the approval. */
  ghost predicate ApprovedIn(start: int, actions: seq<Action>, c: Code, user: string) {
    exists k: nat, id: nat ::
      TakesAt(start, actions, k, id, WritingApproval(c, user)) && ReadFor(start, actions, id, c, user)
  }

  /** A poll of the code's own client read this row, in time. */
  ghost predicate PolledIn(start: int, actions: seq<Action>, id: nat, c: Code, row: Row) {
    exists k: nat :: PollReads(start, actions, k, id, c, row)
  }

  ghost predicate PollReads(start: int, actions: seq<Action>, k: nat, id: nat, c: Code, row: Row) {
    && TakesAt(start, actions, k, id, Polling(c, row.clientId))
    && var s := Run(Initial(start), actions[..k]);
       c in s.rows && s.rows[c] == row && s.now <= row.expiresAt
  }

  /** What the history says of the rows and of the calls. */
  ghost predicate RowHistory(start: int, actions: seq<Action>, row: Row, c: Code) {
    row.userId.Some? ==> ApprovedIn(start, actions, c, row.userId.value)
  }

  ghost predicate CallHistory(start: int, actions: seq<Action>, id: nat, call: Call) {
    match call
    case WritingApproval(c, user) => ReadFor(start, actions, id, c, user)
    case Touching(c, row, _) => RowHistory(start, actions, row, c) && PolledIn(start, actions, id, c, row)
    case Deleting(c, row) => RowHistory(start, actions, row, c) && PolledIn(start, actions, id, c, row)
    case Finished(outcome) =>
      outcome.Answered? && outcome.reply.Granted? ==>
        && Answer(outcome.reply.row).Granted?
        && RowHistory(start, actions, outcome.reply.row, outcome.reply.row.code)
        && PolledIn(start, actions, id, outcome.reply.row.code, outcome.reply.row)
    case _ => true
  }

  ghost predicate History(start: int, actions: seq<Action>) {
    var s := Run(Initial(start), actions);
    && Inv(s)
    && (forall c | c in s.rows :: RowHistory(start, actions, s.rows[c], c))
    && (forall id | id in s.calls :: CallHistory(start, actions, id, s.calls[id]))
  }

  lemma {:induction false} RunSnoc(s: System, actions: seq<Action>, a: Action)
    ensures Run(s, actions + [a]) == Apply(Run(s, actions), a)
    decreases |actions|
  {
    if actions == [] {
      assert actions + [a] == [a];
      RunOne(s, a);
    } else {
      assert (actions + [a])[1..] == actions[1..] + [a];
      RunSnoc(Apply(s, actions[0]), actions[1..], a);
    }
  }

  ghost predicate Reachable(s: System) {
    exists start, actions :: s == Run(Initial(start), actions)
  }

  lemma ReachNext(s: System, a: Action)
    requires Reachable(s)
    ensures Reachable(Apply(s, a))
  {
    var start, actions :| s == Run(Initial(start), actions);
    RunSnoc(Initial(start), actions, a);
    assert Apply(s, a) == Run(Initial(start), actions + [a]);
  }

  /** What was in a run is in it with one more action. */
  lemma TakesStill(start: int, actions: seq<Action>, a: Action, k: nat, id: nat, call: Call)
    requires TakesAt(start, actions, k, id, call)
    ensures TakesAt(start, actions + [a], k, id, call) && (actions + [a])[..k] == actions[..k]
  {
    assert (actions + [a])[..k] == actions[..k];
  }

  lemma ReadStill(start: int, actions: seq<Action>, a: Action, id: nat, c: Code, user: string)
    requires ReadFor(start, actions, id, c, user)
    ensures ReadFor(start, actions + [a], id, c, user)
  {
    var k: nat, typed: string :|
      && TakesAt(start, actions, k, id, Approving(typed, user))
      && ReadApproval(Run(Initial(start), actions[..k]).rows, typed, user, Run(Initial(start), actions[..k]).now)
         == WritingApproval(c, user);
    TakesStill(start, actions, a, k, id, Approving(typed, user));
  }

  lemma RowStill(start: int, actions: seq<Action>, a: Action, row: Row, c: Code)
    requires RowHistory(start, actions, row, c)
    ensures RowHistory(start, actions + [a], row, c)
  {
    if row.userId.Some? {
      var user := row.userId.value;
      var k: nat, id: nat :|
        TakesAt(start, actions, k, id, WritingApproval(c, user)) && ReadFor(start, actions, id, c, user);
      TakesStill(start, actions, a, k, id, WritingApproval(c, user));
      ReadStill(start, actions, a, id, c, user);
    }
  }

  lemma PolledStill(start: int, actions: seq<Action>, a: Action, id: nat, c: Code, row: Row)
    requires PolledIn(start, actions, id, c, row)
    ensures PolledIn(start, actions + [a], id, c, row)
  {
    var k: nat :| PollReads(start, actions, k, id, c, row);
    TakesStill(start, actions, a, k, id, Polling(c, row.clientId));
    assert PollReads(start, actions + [a], k, id, c, row);
  }

  lemma CallHistoryStill(start: int, actions: seq<Action>, a: Action, id: nat, call: Call)
    requires CallHistory(start, actions, id, call)
    ensures CallHistory(start, actions + [a], id, call)
  {
    hide RowHistory, PolledIn, ReadFor;
    match call
    case WritingApproval(c, user) => ReadStill(start, actions, a, id, c, user);
    case Touching(c, row, _) => RowStill(start, actions, a, row, c); PolledStill(start, actions, a, id, c, row);
    case Deleting(c, row) => RowStill(start, actions, a, row, c); PolledStill(start, actions, a, id, c, row);
    case Finished(outcome) =>
      if outcome.Answered? && outcome.reply.Granted? {
        var row := outcome.reply.row;
        RowStill(start, actions, a, row, row.code);
        PolledStill(start, actions, a, id, row.code, row);
      }
    case _ =>
  }

  /** The statement just taken is in the history. */
  lemma JustTook(start: int, actions: seq<Action>, id: nat)
    requires id in Run(Initial(start), actions).calls
    ensures TakesAt(start, actions + [Next(id)], |actions|, id, Run(Initial(start), actions).calls[id])
    ensures (actions + [Next(id)])[..|actions|] == actions
  {
    assert (actions + [Next(id)])[..|actions|] == actions;
  }

  lemma HistoryNext(start: int, actions: seq<Action>, id: nat)
    requires History(start, actions) && id in Run(Initial(start), actions).calls
    ensures History(start, actions + [Next(id)])
  {
    var s := Run(Initial(start), actions);
    var more := actions + [Next(id)];
    RunSnoc(Initial(start), actions, Next(id));
    var t := Run(Initial(start), more);
    ApplyKeeps(s, Next(id));
    JustTook(start, actions, id);
    forall c | c in t.rows ensures RowHistory(start, more, t.rows[c], c) {
      RowNext(start, actions, id, c);
    }
    forall o | o in t.calls ensures CallHistory(start, more, o, t.calls[o]) {
      if o == id { CallNext(start, actions, id); } else { CallHistoryStill(start, actions, Next(id), o, s.calls[o]); }
    }
  }

  /** A row that gets a user gets it from the approval being written. */
  lemma RowNext(start: int, actions: seq<Action>, id: nat, c: Code)
    requires History(start, actions) && id in Run(Initial(start), actions).calls
    requires c in Apply(Run(Initial(start), actions), Next(id)).rows
    ensures RowHistory(start, actions + [Next(id)], Apply(Run(Initial(start), actions), Next(id)).rows[c], c)
  {
    var s := Run(Initial(start), actions);
    var t := Apply(s, Next(id));
    var call := s.calls[id];
    UserMoves(s, id, c);
    RowStill(start, actions, Next(id), s.rows[c], c);
    JustTook(start, actions, id);
    if t.rows[c].userId != s.rows[c].userId {
      assert CallHistory(start, actions, id, call);
      ReadStill(start, actions, Next(id), id, c, call.user);
    }
  }

  lemma UserMoves(s: System, id: nat, c: Code)
    requires Inv(s) && id in s.calls && c in Apply(s, Next(id)).rows
    ensures c in s.rows
    ensures Apply(s, Next(id)).rows[c].userId == s.rows[c].userId
         || (s.calls[id].WritingApproval? && s.calls[id].code == c
             && Apply(s, Next(id)).rows[c].userId == Some(s.calls[id].user))
  {
    StatementKeeps(s, id);
  }

  lemma CallNext(start: int, actions: seq<Action>, id: nat)
    requires History(start, actions) && id in Run(Initial(start), actions).calls
    ensures CallHistory(start, actions + [Next(id)], id, Apply(Run(Initial(start), actions), Next(id)).calls[id])
  {
    var s := Run(Initial(start), actions);
    var call := s.calls[id];
    var more := actions + [Next(id)];
    JustTook(start, actions, id);
    assert CallHistory(start, actions, id, call);
    match call
    case Polling(c, clientId) =>
      if c in s.rows && s.rows[c].clientId == clientId && s.now <= s.rows[c].expiresAt {
        RowStill(start, actions, Next(id), s.rows[c], c);
        assert PollReads(start, more, |actions|, id, c, s.rows[c]);
      }
    case Approving(typed, user) => ApprovalIsRead(start, actions, id, typed, user);
    case Touching(c, row, at) => TouchedHistory(start, actions, id, c, row, at);
    case Deleting(c, row) => DeletedHistory(start, actions, id, c, row);
    case _ => CallHistoryStill(start, actions, Next(id), id, call);
  }

  lemma ApprovalIsRead(start: int, actions: seq<Action>, id: nat, typed: string, user: string)
    requires id in Run(Initial(start), actions).calls
    requires Run(Initial(start), actions).calls[id] == Approving(typed, user)
    ensures CallHistory(start, actions + [Next(id)], id, Apply(Run(Initial(start), actions), Next(id)).calls[id])
  {
    JustTook(start, actions, id);
    var s := Run(Initial(start), actions);
    var next := ReadApproval(s.rows, typed, user, s.now);
    assert Apply(s, Next(id)).calls[id] == next;
    if next.WritingApproval? {
      assert ReadFor(start, actions + [Next(id)], id, next.code, user);
    }
  }

  lemma TouchedHistory(start: int, actions: seq<Action>, id: nat, c: Code, row: Row, at: int)
    requires History(start, actions) && id in Run(Initial(start), actions).calls
    requires Run(Initial(start), actions).calls[id] == Touching(c, row, at)
    ensures CallHistory(start, actions + [Next(id)], id, Apply(Run(Initial(start), actions), Next(id)).calls[id])
  {
    assert CallHistory(start, actions, id, Touching(c, row, at));
    hide RowHistory, PolledIn, ReadFor, Inv, Run;
    RowStill(start, actions, Next(id), row, c);
    PolledStill(start, actions, Next(id), id, c, row);
  }

  lemma DeletedHistory(start: int, actions: seq<Action>, id: nat, c: Code, row: Row)
    requires History(start, actions) && id in Run(Initial(start), actions).calls
    requires Run(Initial(start), actions).calls[id] == Deleting(c, row)
    ensures CallHistory(start, actions + [Next(id)], id, Apply(Run(Initial(start), actions), Next(id)).calls[id])
  {
    var s := Run(Initial(start), actions);
    assert CallOk(s.calls[id], s.drawn);
    assert CallHistory(start, actions, id, Deleting(c, row));
    hide RowHistory, PolledIn, ReadFor, Run;
    RowStill(start, actions, Next(id), row, c);
    PolledStill(start, actions, Next(id), id, c, row);
  }

  lemma HistoryOther(start: int, actions: seq<Action>, a: Action)
    requires History(start, actions) && !(a.Next? && a.id in Run(Initial(start), actions).calls)
    ensures History(start, actions + [a])
  {
    var s := Run(Initial(start), actions);
    RunSnoc(Initial(start), actions, a);
    ApplyKeeps(s, a);
    var t := Apply(s, a);
    forall c | c in t.rows ensures RowHistory(start, actions + [a], t.rows[c], c) {
      if c in s.rows && t.rows[c] == s.rows[c] { RowStill(start, actions, a, s.rows[c], c); }
    }
    forall id | id in t.calls ensures CallHistory(start, actions + [a], id, t.calls[id]) {
      if id in s.calls { CallHistoryStill(start, actions, a, id, s.calls[id]); }
    }
  }

  lemma {:induction false} HistoryHolds(start: int, actions: seq<Action>)
    ensures History(start, actions)
  {
    if actions != [] {
      var n := |actions| - 1;
      HistoryHolds(start, actions[..n]);
      assert actions == actions[..n] + [actions[n]];
      if actions[n].Next? && actions[n].id in Run(Initial(start), actions[..n]).calls {
        HistoryNext(start, actions[..n], actions[n].id);
      } else {
        HistoryOther(start, actions[..n], actions[n]);
      }
    }
  }

  /**
   * Over every interleaving, a row that is handed out was read by that very poll,
   * from the code's own client and before it expired; and it names the user of an
   * approval that read the typed code pending and in time, and wrote it.
   */
  lemma GrantWasApproved(start: int, actions: seq<Action>, p: nat, c: Code)
    requires p in Run(Initial(start), actions).calls && Grants(Run(Initial(start), actions).calls[p], c)
    ensures var row := Run(Initial(start), actions).calls[p].outcome.reply.row;
            && PolledIn(start, actions, p, c, row)
            && row.userId.Some? && row.userId.value != "" && ApprovedIn(start, actions, c, row.userId.value)
  {
    HistoryHolds(start, actions);
    assert CallHistory(start, actions, p, Run(Initial(start), actions).calls[p]);
  }

  // ---------- a run that shows the case ----------

  const SOME_CODE: Code := 7

  const PENDING_ROW: Row := FreshRow(SOME_CODE, "B", "client", None, None, 0)

  /** An approval and a denial of one code, both of which read it before either writes. */
  function Script(n: nat): Action
    requires n < 6
  {
    if n == 0 then Draw(SOME_CODE, "B", "client", None, None)
    else if n == 1 then Begin(0, Approving("B", "user"))
    else if n == 2 then Begin(1, Denying("B"))
    else if n == 3 then Next(0)
    else Next(1)
  }

  function CallsAt(n: nat): map<nat, Call> {
    if n <= 1 then map[]
    else if n == 2 then map[0 := Approving("B", "user")]
    else if n == 3 then map[0 := Approving("B", "user"), 1 := Denying("B")]
    else
      map[0 := WritingApproval(SOME_CODE, "user"),
          1 := if n == 4 then Denying("B") else if n == 5 then WritingDenial(SOME_CODE)
               else Finished(Answered(DenyReturned))]
  }

  function Stage(n: nat): System {
    if n == 0 then Initial(0)
    else
      var row := if n < 6 then PENDING_ROW else PENDING_ROW.(status := Denied);
      System(map[SOME_CODE := row], {SOME_CODE}, CallsAt(n), 0)
  }

  lemma ReadsPending(rows: Table)
    requires rows == map[SOME_CODE := PENDING_ROW]
    ensures ReadApproval(rows, "B", "user", 0) == WritingApproval(SOME_CODE, "user")
    ensures ReadDenial(rows, "B", 0) == WritingDenial(SOME_CODE)
  {
    assert Normalise("B") == "B";
    assert rows[SOME_CODE].userCode == Normalise("B");
    assert HasUserCode(rows, Normalise("B"));
  }

  lemma BeginsStep(n: nat)
    requires n < 3
    ensures Apply(Stage(n), Script(n)) == Stage(n + 1)
  {
  }

  lemma ApprovalReadsStep()
    ensures Apply(Stage(3), Script(3)) == Stage(4)
  {
    hide ReadApproval, ReadDenial, ReadPoll;
    ReadsPending(map[SOME_CODE := PENDING_ROW]);
    assert CallsAt(3)[0 := WritingApproval(SOME_CODE, "user")] == CallsAt(4);
  }

  lemma DenialReadsStep()
    ensures Apply(Stage(4), Script(4)) == Stage(5)
  {
    hide ReadApproval, ReadDenial, ReadPoll;
    ReadsPending(map[SOME_CODE := PENDING_ROW]);
    assert CallsAt(4)[1 := WritingDenial(SOME_CODE)] == CallsAt(5);
  }

  lemma DeniesStep()
    ensures Apply(Stage(5), Script(5)) == Stage(6)
  {
    assert CallsAt(5)[1 := Finished(Answered(DenyReturned))] == CallsAt(6);
  }

  lemma StageStep(n: nat)
    requires n < 6
    ensures Apply(Stage(n), Script(n)) == Stage(n + 1)
  {
    if n < 3 {
      BeginsStep(n);
    } else if n == 3 {
      ApprovalReadsStep();
    } else if n == 4 {
      DenialReadsStep();
    } else {
      DeniesStep();
    }
  }

  lemma {:induction false} StageIsReachable(n: nat)
    requires n <= 6
    ensures Reachable(Stage(n))
  {
    if n == 0 {
      assert Run(Initial(0), []) == Stage(0);
    } else {
      StageIsReachable(n - 1);
      StageStep(n - 1);
      ReachNext(Stage(n - 1), Script(n - 1));
    }
  }

  /** The case arises: a reachable state with a denied code, and a run of it that approves the code. */
  lemma DenialCanBeOvertaken()
    ensures exists s, more ::
              && Reachable(s) && SOME_CODE in s.rows && s.rows[SOME_CODE].status == Denied
              && IsApproved(Run(s, more), SOME_CODE)
  {
    StageIsReachable(6);
    var s := Stage(6);
    ApprovalWrites(s, 0, SOME_CODE);
    RunOne(s, Next(0));
    assert IsApproved(Run(s, [Next(0)]), SOME_CODE);
  }
}
