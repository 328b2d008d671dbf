/** When a code that was denied is handed out all the same (src/oauth/device-flow.service.ts). */
module DeviceGrants {
  import Flow = DeviceFlow
  import opened DeviceRaces
  import opened Wrappers

  ghost predicate HandedOut(s: System, c: Flow.Code) {
    exists id :: id in s.calls && Grants(s.calls[id], c)
  }

  /** The call read the row while it was approved for a user, and is on its way to hand it out. */
  predicate HandsOut(call: Call, c: Flow.Code) {
    || (call.Touching? && call.code == c && Flow.Answer(call.row).Granted?)
    || (call.Deleting? && call.code == c && Flow.Answer(call.row).Granted?)
  }

  /** The call is about to approve the code for a user. */
  predicate ApprovesFor(call: Call, c: Flow.Code) {
    call.WritingApproval? && call.code == c && call.user != ""
  }

  // ---------- whether a poll may still get through in time ----------

  predicate Touches(call: Call, c: Flow.Code) {
    call.Touching? && call.code == c
  }

  predicate Slows(call: Call, c: Flow.Code) {
    call.SlowingDown? && call.code == c
  }

  /** The poll time and interval that calls under way may leave in the row. */
  ghost predicate MayLeave(s: System, c: Flow.Code, last: Option<int>, interval: nat)
    requires c in s.rows
  {
    || (last == s.rows[c].lastPolledAt && interval == s.rows[c].interval)
    || (interval == s.rows[c].interval && TouchLeaves(s, c, last))
    || (exists p :: p in s.calls && Slows(s.calls[p], c) && interval == s.calls[p].interval + 5
          && (last == Some(s.calls[p].at) || TouchLeaves(s, c, last)))
  }

  ghost predicate TouchLeaves(s: System, c: Flow.Code, last: Option<int>) {
    exists t :: t in s.calls && Touches(s.calls[t], c) && last == Some(s.calls[t].at)
  }

  /** A poll at this time is not too soon. */
  predicate InTime(last: Option<int>, interval: nat, at: int) {
    last.Some? ==> at - last.value >= interval * 1000
  }

  /** Some poll of the row can still come in time: no later than its expiry, and not too soon after the last one. */
  ghost predicate CanBePolled(s: System, c: Flow.Code)
    requires c in s.rows
  {
    && s.now <= s.rows[c].expiresAt
    && exists last, interval :: MayLeave(s, c, last, interval) && InTime(last, interval, s.rows[c].expiresAt)
  }

  ghost predicate NoGrantUnderWay(s: System, c: Flow.Code)
    requires c in s.rows
  {
    && (forall id | id in s.calls :: !HandsOut(s.calls[id], c))
    && (CanBePolled(s, c) ==> forall id | id in s.calls :: !ApprovesFor(s.calls[id], c))
  }

  // ---------- the code is handed out ----------

  /** Some later run hands the code out. */
  ghost predicate CanHandOut(s: System, c: Flow.Code) {
    exists actions :: HandedOut(Run(s, actions), c)
  }

  lemma CanNext(s: System, a: Action, c: Flow.Code)
    requires CanHandOut(Apply(s, a), c)
    ensures CanHandOut(s, c)
  {
    hide HandedOut;
    var actions :| HandedOut(Run(Apply(s, a), actions), c);
    assert ([a] + actions)[1..] == actions;
    assert Run(s, [a] + actions) == Run(Apply(s, a), actions);
  }

  lemma DeletingHandsOut(s: System, id: nat, c: Flow.Code, row: Flow.Row)
    requires id in s.calls && s.calls[id] == Deleting(c, row) && row.code == c && c in s.rows
    ensures CanHandOut(s, c)
  {
    RunOne(s, Next(id));
    assert Grants(Apply(s, Next(id)).calls[id], c);
    assert HandedOut(Run(s, [Next(id)]), c);
  }

  lemma TouchingHandsOut(s: System, id: nat, c: Flow.Code, row: Flow.Row, at: int)
    requires id in s.calls && s.calls[id] == Touching(c, row, at) && row.code == c && c in s.rows
    requires Flow.Answer(row).Granted?
    ensures CanHandOut(s, c)
  {
    DeletingHandsOut(Apply(s, Next(id)), id, c, row);
    CanNext(s, Next(id), c);
  }

  lemma SomeFreeId(used: set<nat>) returns (id: nat)
    ensures id !in used
  {
    id := FreeAbove(used);
  }

  ghost function FreeAbove(used: set<nat>): (r: nat)
    ensures forall n | n in used :: n < r
  {
    if used == {} then 0
    else
      var n :| n in used;
      var rest := FreeAbove(used - {n});
      assert forall m | m in used :: m == n || m in used - {n};
      if n < rest then rest else n + 1
  }

  /** A poll of an approved row, in time, hands it out. */
  lemma PollHandsOut(s: System, c: Flow.Code)
    requires c in s.rows && s.rows[c].code == c && Flow.Answer(s.rows[c]).Granted?
    requires s.now <= s.rows[c].expiresAt && !Flow.TooSoon(s.rows[c], s.now)
    ensures CanHandOut(s, c)
  {
    var id := SomeFreeId(s.calls.Keys);
    var poll := Begin(id, Polling(c, s.rows[c].clientId));
    var t := Apply(s, poll);
    TouchingHandsOut(Apply(t, Next(id)), id, c, s.rows[c], s.now);
    CanNext(t, Next(id), c);
    CanNext(s, poll, c);
  }

  lemma WaitingHandsOut(s: System, c: Flow.Code)
    requires c in s.rows && s.rows[c].code == c && Flow.Answer(s.rows[c]).Granted?
    requires s.now <= s.rows[c].expiresAt && !Flow.TooSoon(s.rows[c], s.rows[c].expiresAt)
    ensures CanHandOut(s, c)
  {
    var wait := Tick(s.rows[c].expiresAt);
    PollHandsOut(Apply(s, wait), c);
    CanNext(s, wait, c);
  }

  lemma ApprovingHandsOut(s: System, id: nat, c: Flow.Code)
    requires id in s.calls && ApprovesFor(s.calls[id], c)
    requires c in s.rows && s.rows[c].code == c
    requires s.now <= s.rows[c].expiresAt && !Flow.TooSoon(s.rows[c], s.rows[c].expiresAt)
    ensures CanHandOut(s, c)
  {
    WaitingHandsOut(Apply(s, Next(id)), c);
    CanNext(s, Next(id), c);
  }

  lemma TouchedThenHandsOut(s: System, t: nat, id: nat, c: Flow.Code)
    requires id in s.calls && ApprovesFor(s.calls[id], c) && t in s.calls && Touches(s.calls[t], c)
    requires c in s.rows && s.rows[c].code == c && s.now <= s.rows[c].expiresAt
    requires InTime(Some(s.calls[t].at), s.rows[c].interval, s.rows[c].expiresAt)
    ensures CanHandOut(s, c)
  {
    ApprovingHandsOut(Apply(s, Next(t)), id, c);
    CanNext(s, Next(t), c);
  }

  lemma SlowedThenHandsOut(s: System, p: nat, last: Option<int>, id: nat, c: Flow.Code)
    requires id in s.calls && ApprovesFor(s.calls[id], c) && p in s.calls && Slows(s.calls[p], c)
    requires c in s.rows && s.rows[c].code == c && s.now <= s.rows[c].expiresAt
    requires last == Some(s.calls[p].at) || TouchLeaves(s, c, last)
    requires InTime(last, s.calls[p].interval + 5, s.rows[c].expiresAt)
    ensures CanHandOut(s, c)
  {
    var u := Apply(s, Next(p));
    if last == Some(s.calls[p].at) {
      ApprovingHandsOut(u, id, c);
    } else {
      var t :| t in s.calls && Touches(s.calls[t], c) && last == Some(s.calls[t].at);
      TouchedThenHandsOut(u, t, id, c);
    }
    CanNext(s, Next(p), c);
  }

  lemma ApprovalHandsOut(s: System, id: nat, c: Flow.Code)
    requires id in s.calls && ApprovesFor(s.calls[id], c) && c in s.rows && s.rows[c].code == c && CanBePolled(s, c)
    ensures CanHandOut(s, c)
  {
    var last, interval :| MayLeave(s, c, last, interval) && InTime(last, interval, s.rows[c].expiresAt);
    if last == s.rows[c].lastPolledAt && interval == s.rows[c].interval {
      ApprovingHandsOut(s, id, c);
    } else if interval == s.rows[c].interval && TouchLeaves(s, c, last) {
      var t :| t in s.calls && Touches(s.calls[t], c) && last == Some(s.calls[t].at);
      TouchedThenHandsOut(s, t, id, c);
    } else {
      var p :| p in s.calls && Slows(s.calls[p], c) && interval == s.calls[p].interval + 5
               && (last == Some(s.calls[p].at) || TouchLeaves(s, c, last));
      SlowedThenHandsOut(s, p, last, id, c);
    }
  }

  // ---------- the code is not handed out ----------

  /** No time a call has read, or left in a row, is in the future. */
  predicate CallClock(call: Call, now: int) {
    (call.Touching? || call.SlowingDown?) ==> call.at <= now
  }

  ghost predicate ClocksOk(s: System) {
    && (forall c | c in s.rows && s.rows[c].lastPolledAt.Some? :: s.rows[c].lastPolledAt.value <= s.now)
    && (forall id | id in s.calls :: CallClock(s.calls[id], s.now))
  }

  lemma ClocksStep(s: System, a: Action)
    requires ClocksOk(s)
    ensures ClocksOk(Apply(s, a))
  {
    if a.Next? && a.id in s.calls { assert CallClock(s.calls[a.id], s.now); }
    var t := Apply(s, a);
    forall id | id in t.calls ensures CallClock(t.calls[id], t.now) {
      if id in s.calls { assert CallClock(s.calls[id], s.now); }
    }
  }

  lemma {:induction false} ClocksRun(s: System, actions: seq<Action>)
    requires ClocksOk(s)
    ensures ClocksOk(Run(s, actions))
    decreases |actions|
  {
    if actions != [] {
      ClocksStep(s, actions[0]);
      ClocksRun(Apply(s, actions[0]), actions[1..]);
    }
  }

  ghost predicate Quiet(s: System, c: Flow.Code) {
    && c in s.drawn && (forall id | id in s.calls :: !HandsOut(s.calls[id], c) && !Grants(s.calls[id], c))
  }

  /** Nobody approves: the row is decided, and not for a user. */
  ghost predicate NobodyApproves(s: System, c: Flow.Code) {
    && (forall id | id in s.calls :: !ApprovesFor(s.calls[id], c))
    && (c in s.rows ==> s.rows[c].status != Flow.Pending && !Flow.Answer(s.rows[c]).Granted?)
  }

  /** What a statement leaves of this. */
  lemma NobodyApprovesNext(s: System, id: nat, c: Flow.Code)
    requires CallsOk(s) && Quiet(s, c) && NobodyApproves(s, c) && id in s.calls
    ensures var (rows, call) := Statement(s.rows, s.calls[id], s.now);
            && !HandsOut(call, c) && !Grants(call, c) && !ApprovesFor(call, c)
            && (c in rows ==> rows[c].status != Flow.Pending && !Flow.Answer(rows[c]).Granted?)
  {
    assert !HandsOut(s.calls[id], c) && !Grants(s.calls[id], c) && !ApprovesFor(s.calls[id], c);
    assert CallOk(s.calls[id], s.drawn);
  }

  lemma NobodyApprovesStep(s: System, a: Action, c: Flow.Code)
    requires CallsOk(s) && Quiet(s, c) && NobodyApproves(s, c)
    ensures Quiet(Apply(s, a), c) && NobodyApproves(Apply(s, a), c)
  {
    hide Statement;
    var t := Apply(s, a);
    if a.Next? && a.id in s.calls { NobodyApprovesNext(s, a.id, c); }
    forall id | id in t.calls
      ensures !HandsOut(t.calls[id], c) && !Grants(t.calls[id], c) && !ApprovesFor(t.calls[id], c)
    {
      if id in s.calls { assert !HandsOut(s.calls[id], c) && !Grants(s.calls[id], c) && !ApprovesFor(s.calls[id], c); }
    }
  }

  lemma {:induction false} NobodyApprovesRun(s: System, actions: seq<Action>, c: Flow.Code)
    requires Inv(s) && Quiet(s, c) && NobodyApproves(s, c)
    ensures !HandedOut(Run(s, actions), c)
    decreases |actions|
  {
    if actions != [] {
      ApplyKeeps(s, actions[0]);
      NobodyApprovesStep(s, actions[0], c);
      NobodyApprovesRun(Apply(s, actions[0]), actions[1..], c);
    }
  }

  /** No poll gets through: the row is gone or expired, or it is too soon for one until it expires. */
  ghost predicate Shut(s: System, c: Flow.Code) {
    c in s.rows ==> s.rows[c].code == c && !CanBePolled(s, c)
  }

  /**
   * With a poll that is too soon even at the end, a poll now is too soon, and
   * what it leaves is too soon at the end.
   */
  lemma TooSoonNow(row: Flow.Row, now: int)
    requires row.lastPolledAt.Some? && row.lastPolledAt.value <= now <= row.expiresAt
    requires !InTime(row.lastPolledAt, row.interval, row.expiresAt)
    ensures Flow.TooSoon(row, now) && !InTime(Some(now), row.interval + 5, row.expiresAt)
  {
  }

  /** So a poll is not let through. */
  lemma ShutPoll(s: System, c: Flow.Code, clientId: string)
    requires ClocksOk(s) && Shut(s, c)
    ensures !ReadPoll(s.rows, c, clientId, s.now).Touching?
  {
    if c in s.rows && s.now <= s.rows[c].expiresAt {
      NowIsTooSoon(s, c);
    }
  }

  lemma NowIsTooSoon(s: System, c: Flow.Code)
    requires ClocksOk(s) && Shut(s, c) && c in s.rows && s.now <= s.rows[c].expiresAt
    ensures Flow.TooSoon(s.rows[c], s.now)
    ensures !InTime(Some(s.now), s.rows[c].interval + 5, s.rows[c].expiresAt)
  {
    assert MayLeave(s, c, s.rows[c].lastPolledAt, s.rows[c].interval);
    TooSoonNow(s.rows[c], s.now);
  }

  /** A statement hands the code out to nobody, and its row lasts no longer. */
  lemma ShutQuiet(s: System, id: nat, c: Flow.Code)
    requires Inv(s) && ClocksOk(s) && Quiet(s, c) && Shut(s, c) && id in s.calls
    ensures var (rows, call) := Statement(s.rows, s.calls[id], s.now);
            && !HandsOut(call, c) && !Grants(call, c)
            && (c in rows ==> c in s.rows && rows[c].code == c && rows[c].expiresAt == s.rows[c].expiresAt)
  {
    assert !HandsOut(s.calls[id], c) && !Grants(s.calls[id], c) && CallOk(s.calls[id], s.drawn);
    hide CanBePolled;
    if s.calls[id].Polling? && s.calls[id].code == c { ShutPoll(s, c, s.calls[id].clientId); }
  }

  lemma TouchesWere(s: System, id: nat, c: Flow.Code, last: Option<int>)
    requires ClocksOk(s) && Shut(s, c) && id in s.calls && TouchLeaves(Apply(s, Next(id)), c, last)
    ensures TouchLeaves(s, c, last)
  {
    hide CanBePolled;
    var t := Apply(s, Next(id));
    var o :| o in t.calls && Touches(t.calls[o], c) && last == Some(t.calls[o].at);
    if o == id && s.calls[id].Polling? { ShutPoll(s, c, s.calls[id].clientId); }
    assert Touches(s.calls[o], c) && s.calls[o].at == t.calls[o].at;
  }

  lemma SlowsWere(s: System, id: nat, c: Flow.Code, p: nat)
    requires id in s.calls && c in s.rows && p in Apply(s, Next(id)).calls && Slows(Apply(s, Next(id)).calls[p], c)
    ensures var call := Apply(s, Next(id)).calls[p];
            p in s.calls && (s.calls[p] == call || (call.at == s.now && call.interval == s.rows[c].interval))
  {
  }

  /** What may be left in a row after a statement might have been before, but for what a slowed poll adds. */
  lemma LeavesWere(s: System, id: nat, c: Flow.Code, last: Option<int>, interval: nat)
    requires ClocksOk(s) && Shut(s, c) && id in s.calls && c in s.rows && c in Apply(s, Next(id)).rows
    requires MayLeave(Apply(s, Next(id)), c, last, interval)
    ensures || MayLeave(s, c, last, interval)
            || (interval == s.rows[c].interval + 5 && (last == Some(s.now) || TouchLeaves(s, c, last)))
  {
    var t := Apply(s, Next(id));
    RowWas(s, id, c);
    hide Apply, Shut, ClocksOk;
    if TouchLeaves(t, c, last) { TouchesWere(s, id, c, last); }
    if last == t.rows[c].lastPolledAt && interval == t.rows[c].interval {
    } else if interval == t.rows[c].interval && TouchLeaves(t, c, last) {
    } else {
      var p :| p in t.calls && Slows(t.calls[p], c) && interval == t.calls[p].interval + 5
               && (last == Some(t.calls[p].at) || TouchLeaves(t, c, last));
      SlowsWere(s, id, c, p);
    }
  }

  /** The poll time and interval of the row are as before, or as a call under way left them. */
  lemma RowWas(s: System, id: nat, c: Flow.Code)
    requires id in s.calls && c in s.rows && c in Apply(s, Next(id)).rows
    ensures var row := Apply(s, Next(id)).rows[c]; var call := s.calls[id];
            if Slows(call, c) then row.lastPolledAt == Some(call.at) && row.interval == call.interval + 5
            else row.interval == s.rows[c].interval
                 && row.lastPolledAt == if Touches(call, c) then Some(call.at) else s.rows[c].lastPolledAt
  {
  }

  lemma ShutLeaves(s: System, id: nat, c: Flow.Code, last: Option<int>, interval: nat)
    requires ClocksOk(s) && Shut(s, c) && id in s.calls
    requires c in Apply(s, Next(id)).rows && c in s.rows && s.now <= s.rows[c].expiresAt
    requires MayLeave(Apply(s, Next(id)), c, last, interval)
    ensures !InTime(last, interval, s.rows[c].expiresAt)
  {
    LeavesWere(s, id, c, last, interval);
    hide Apply, ClocksOk;
    if !MayLeave(s, c, last, interval) {
      NowIsTooSoon(s, c);
      if TouchLeaves(s, c, last) { assert MayLeave(s, c, last, s.rows[c].interval); }
    }
  }

  lemma ShutNext(s: System, id: nat, c: Flow.Code)
    requires Inv(s) && ClocksOk(s) && Quiet(s, c) && Shut(s, c) && id in s.calls
    ensures Quiet(Apply(s, Next(id)), c) && Shut(Apply(s, Next(id)), c)
  {
    var t := Apply(s, Next(id));
    ShutQuiet(s, id, c);
    hide Statement, MayLeave, InTime, ClocksOk;
    forall o | o in t.calls ensures !HandsOut(t.calls[o], c) && !Grants(t.calls[o], c) {
      if o != id { assert !HandsOut(s.calls[o], c) && !Grants(s.calls[o], c); }
    }
    if c in t.rows && s.now <= s.rows[c].expiresAt {
      forall last, interval | MayLeave(t, c, last, interval) ensures !InTime(last, interval, s.rows[c].expiresAt) {
        ShutLeaves(s, id, c, last, interval);
      }
    }
  }

  lemma ShutOther(s: System, a: Action, c: Flow.Code)
    requires Inv(s) && Quiet(s, c) && Shut(s, c) && !(a.Next? && a.id in s.calls)
    ensures Quiet(Apply(s, a), c) && Shut(Apply(s, a), c)
  {
    var t := Apply(s, a);
    forall o | o in t.calls ensures !HandsOut(t.calls[o], c) && !Grants(t.calls[o], c) {
      if o in s.calls { assert !HandsOut(s.calls[o], c) && !Grants(s.calls[o], c); }
    }
    if c in t.rows && t.now <= t.rows[c].expiresAt {
      forall last, interval | MayLeave(t, c, last, interval) ensures !InTime(last, interval, s.rows[c].expiresAt) {
        assert MayLeave(s, c, last, interval);
      }
    }
  }

  lemma {:induction false} ShutRun(s: System, actions: seq<Action>, c: Flow.Code)
    requires Inv(s) && ClocksOk(s) && Quiet(s, c) && Shut(s, c)
    ensures !HandedOut(Run(s, actions), c)
    decreases |actions|
  {
    if actions != [] {
      var a := actions[0];
      ApplyKeeps(s, a);
      ClocksStep(s, a);
      if a.Next? && a.id in s.calls { ShutNext(s, a.id, c); } else { ShutOther(s, a, c); }
      hide Inv, ClocksOk, Quiet, Shut, Apply;
      ShutRun(Apply(s, a), actions[1..], c);
    }
  }

  // ---------- a denied code ----------

  /**
   * A denied code yields nothing, over every interleaving, exactly when no poll
   * that read it approved is still to hand it out, and no approval that read it
   * pending is still to write while a poll can come in time.
   */
  lemma DeniedYieldsNothingExactly(s: System, c: Flow.Code)
    requires Reachable(s) && c in s.rows && s.rows[c].status == Flow.Denied
    ensures !CanHandOut(s, c) <==> NoGrantUnderWay(s, c)
  {
    ReachableOk(s);
    hide Run, Inv, ClocksOk, HandedOut, NoGrantUnderWay, Reachable;
    if NoGrantUnderWay(s, c) {
      forall later ensures !HandedOut(Run(s, later), c) { NothingIsHandedOut(s, later, c); }
    } else {
      GrantUnderWayHandsOut(s, c);
    }
  }

  lemma ReachableOk(s: System)
    requires Reachable(s)
    ensures Inv(s) && ClocksOk(s)
  {
    var start, actions :| s == Run(Initial(start), actions);
    RunKeeps(Initial(start), actions);
    ClocksRun(Initial(start), actions);
  }

  lemma NothingIsHandedOut(s: System, later: seq<Action>, c: Flow.Code)
    requires Inv(s) && ClocksOk(s) && c in s.rows && s.rows[c].status == Flow.Denied && NoGrantUnderWay(s, c)
    ensures !HandedOut(Run(s, later), c)
  {
    if CanBePolled(s, c) { NobodyApprovesRun(s, later, c); } else { ShutRun(s, later, c); }
  }

  lemma GrantUnderWayHandsOut(s: System, c: Flow.Code)
    requires Inv(s) && c in s.rows && !NoGrantUnderWay(s, c)
    ensures CanHandOut(s, c)
  {
    if id :| id in s.calls && HandsOut(s.calls[id], c) {
      assert CallOk(s.calls[id], s.drawn);
      match s.calls[id]
      case Touching(_, row, at) => TouchingHandsOut(s, id, c, row, at);
      case Deleting(_, row) => DeletingHandsOut(s, id, c, row);
    } else {
      var id :| id in s.calls && ApprovesFor(s.calls[id], c);
      ApprovalHandsOut(s, id, c);
    }
  }

  // ---------- a run that shows the case ----------

  const APPROVED_ROW: Flow.Row := PENDING_ROW.(status := Flow.Approved, userId := Some("user"))

  function CallsNow(denial: Call, poll: Call): map<nat, Call> {
    map[0 := Finished(Answered(Flow.ApprovedNow(APPROVED_ROW))), 1 := denial, 2 := poll]
  }

  function Written(row: Flow.Row, calls: map<nat, Call>): System {
    System(map[SOME_CODE := row], {SOME_CODE}, calls, 0)
  }

  /** The approval has written, and the denial, which had read the row pending too, has not. */
  function BeforePoll(): System {
    Written(APPROVED_ROW, map[0 := Finished(Answered(Flow.ApprovedNow(APPROVED_ROW))), 1 := WritingDenial(SOME_CODE)])
  }

  function PollBegun(): System {
    Written(APPROVED_ROW, CallsNow(WritingDenial(SOME_CODE), Polling(SOME_CODE, "client")))
  }

  function PollRead(): System {
    Written(APPROVED_ROW, CallsNow(WritingDenial(SOME_CODE), Touching(SOME_CODE, APPROVED_ROW, 0)))
  }

  function DeniedLate(): System {
    Written(APPROVED_ROW.(status := Flow.Denied),
            CallsNow(Finished(Answered(Flow.DenyReturned)), Touching(SOME_CODE, APPROVED_ROW, 0)))
  }

  lemma Approves()
    ensures Apply(Stage(5), Next(0)) == BeforePoll()
  {
    assert Stage(5).calls[0 := Finished(Answered(Flow.ApprovedNow(APPROVED_ROW)))] == BeforePoll().calls;
  }

  lemma BeginsPoll()
    ensures Apply(BeforePoll(), Begin(2, Polling(SOME_CODE, "client"))) == PollBegun()
  {
    assert BeforePoll().calls[2 := Polling(SOME_CODE, "client")] == PollBegun().calls;
  }

  lemma ReadsApproved()
    ensures Apply(PollBegun(), Next(2)) == PollRead()
  {
    assert PollBegun().calls[2 := Touching(SOME_CODE, APPROVED_ROW, 0)] == PollRead().calls;
  }

  lemma DeniesLate()
    ensures Apply(PollRead(), Next(1)) == DeniedLate()
  {
    assert PollRead().calls[1 := Finished(Answered(Flow.DenyReturned))] == DeniedLate().calls;
  }

  lemma DeniedLateIsReachable()
    ensures Reachable(DeniedLate())
  {
    StageIsReachable(5);
    Approves();
    BeginsPoll();
    ReadsApproved();
    DeniesLate();
    hide Apply, Stage, Reachable, BeforePoll, PollBegun, PollRead, DeniedLate;
    ReachNext(Stage(5), Next(0));
    ReachNext(BeforePoll(), Begin(2, Polling(SOME_CODE, "client")));
    ReachNext(PollBegun(), Next(2));
    ReachNext(PollRead(), Next(1));
  }

  /**
   * The case arises with no approval under way at all: a poll reads the code
   * approved, a denial that had read it pending writes, and the poll hands the
   * denied code out.
   */
  lemma DeniedCodeIsHandedOut()
    ensures exists s ::
              && Reachable(s) && SOME_CODE in s.rows && s.rows[SOME_CODE].status == Flow.Denied
              && NoApprovalUnderWay(s, SOME_CODE) && CanHandOut(s, SOME_CODE)
  {
    DeniedLateIsReachable();
    hide Reachable, CanHandOut;
    TouchingHandsOut(DeniedLate(), 2, SOME_CODE, APPROVED_ROW, 0);
  }
}
