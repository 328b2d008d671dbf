/**
 * The token endpoint as the service writes it: straight-line code over the
 * shared tables, with any actions of others between any two of its statements
 * (src/oauth/refresh-grant.ts, oauth.service.ts, oauth-token-issuer.service.ts,
 * the revoke paths and the cleanup). Each method is proved to be one call of
 * the token machine, so that everything proved of the machine holds of it.
 */
module TokenEndpoints {
  import opened Wrappers
  import opened TokenStore
  import opened TokenMachine
  import opened TokenEffects
  import Authority

  /** What the grace comes to. */
  datatype GraceOutcome = PairOf(tokens: Tokens) | RotatedSince | NoPairKept

  datatype ChildState = LiveChild(id: Id) | RotatedChild | GoneChild

  lemma {:induction false} RunSnoc(s: State, actions: seq<Action>, a: Action)
    ensures Run(s, actions + [a]) == Apply(Run(s, actions), a)
    decreases |actions|
  {
    if actions == [] {
      assert actions + [a] == [a];
      assert [a][1..] == [];
      assert Run(s, [a]) == Run(Apply(s, a), []);
    } else {
      assert (actions + [a])[1..] == actions[1..] + [a];
      RunSnoc(Apply(s, actions[0]), actions[1..], a);
    }
  }

  predicate About(a: Action, me: CallId) {
    (a.Step? || a.Start?) && a.me == me
  }

  /** The actions of others before each statement of a call. */
  type Interference = nat -> seq<Action>

  ghost predicate LeavesAlone(others: Interference, me: CallId) {
    forall k, a | a in others(k) :: !About(a, me)
  }

  /** A trace is an interleaving of the call's own steps with actions of the others. */
  ghost predicate Woven(trace: seq<Action>, me: CallId, request: Request, others: Interference) {
    forall a | a in trace :: a == Start(me, request) || (a.Step? && a.me == me) || exists k :: a in others(k)
  }

  /** Where the machine is once the child's state is known. */
  function Verdict(key: Option<nat>, snap: Snap, why: Why, now: Time, child: ChildState): Call {
    match child
    case LiveChild(_) =>
      var tokens := OpenReplay(key, snap.id, snap.row, now);
      if tokens.Some? then Done(Pair(tokens.value), {}) else NoPair(snap, why)
    case RotatedChild => Done(Refused(AlreadyRotated), {})
    case GoneChild => NoPair(snap, why)
  }

  lemma TouchedStep(s: State, me: CallId, snap: Snap, why: Why, now: Time, window: nat, id: Id, d: Draw)
    requires me in s.calls && s.calls[me] == ChildTouch(snap, why, now, window, id) && LiveAt(s.rows, id, now)
    ensures StepCall(s, me, s.calls[me], d)
         == Goto(s.(rows := TouchLive(s.rows, id, now)), me, Verdict(s.key, snap, why, now, LiveChild(id)))
  {
  }

  lemma UntouchedStep(s: State, me: CallId, snap: Snap, why: Why, now: Time, window: nat, id: Id, d: Draw)
    requires me in s.calls && s.calls[me] == ChildTouch(snap, why, now, window, id) && !LiveAt(s.rows, id, now)
    ensures StepCall(s, me, s.calls[me], d) == Goto(s, me, ChildCount(snap, why, now, id))
    ensures TouchLive(s.rows, id, now) == s.rows
  {
  }

  class TokenEndpoint {
    /** The token table and everything else in the service, the calls in flight included. */
    var s: State

    /** The run since the call under proof began. */
    ghost var start: State
    ghost var trace: seq<Action>

    constructor (s: State)
      ensures this.s == s
    {
      this.s := s;
      start := s;
      trace := [];
    }

    /** The run so far ends here, with call `me` at `c`. */
    ghost predicate At(me: CallId, c: Call)
      reads this
    {
      s == Run(start, trace) && me in s.calls && s.calls[me] == c
    }

    /** Awaiting a statement: the others run. */
    method Await(me: CallId, c: Call, request: Request, others: Interference, k: nat)
      requires At(me, c) && LeavesAlone(others, me) && Woven(trace, me, request, others)
      modifies this`s, this`trace
      ensures At(me, c) && Woven(trace, me, request, others)
      ensures s == Run(old(s), others(k)) && trace == old(trace) + others(k)
    {
      hide Apply;
      var actions := others(k);
      var i := 0;
      RunNil(s);
      while i < |actions|
        invariant 0 <= i <= |actions|
        invariant At(me, c) && s == Run(old(s), actions[..i]) && trace == old(trace) + actions[..i]
        invariant Woven(trace, me, request, others)
      {
        var a := actions[i];
        assert a in others(k) && !About(a, me);
        ApplyEffect(s, a, me);
        RunSnoc(start, trace, a);
        RunSnoc(old(s), actions[..i], a);
        assert actions[..i + 1] == actions[..i] + [a];
        s := Apply(s, a);
        trace := trace + [a];
        i := i + 1;
      }
      assert actions[..i] == actions;
    }

    lemma RunNil(t: State)
      ensures Run(t, []) == t
    {
    }

    /** The call's own step is done: the statement ran on `s`, and the call goes on at `next`. */
    method Took(me: CallId, ghost before: State, ghost d: Draw, next: Call, request: Request,
                ghost others: Interference)
      requires before == Run(start, trace) && me in before.calls
      requires Goto(s, me, next) == StepCall(before, me, before.calls[me], d)
      requires Woven(trace, me, request, others)
      modifies this`s, this`trace
      ensures At(me, next) && Woven(trace, me, request, others)
      ensures s == Goto(old(s), me, next)
    {
      hide StepCall;
      RunSnoc(start, trace, Step(me, d));
      s := Goto(s, me, next);
      trace := trace + [Step(me, d)];
    }

    // ---------- statements ----------

    method FindByToken(token: string) returns (r: Option<Snap>)
      ensures r == var found := WithLookup(s.rows, Hmac(token));
                   if found == {} then None else Some(Snap(Least(found), s.rows[Least(found)]))
    {
      var found := WithLookup(s.rows, Hmac(token));
      r := if found == {} then None else Some(Snap(Least(found), s.rows[Least(found)]));
    }

    method FindById(id: Id) returns (r: Option<Snap>)
      ensures r == if id in s.rows then Some(Snap(id, s.rows[id])) else None
    {
      r := if id in s.rows then Some(Snap(id, s.rows[id])) else None;
    }

    method UpdateErase(w: Where)
      modifies this`s
      ensures s == old(s).(rows := EraseWhere(old(s).rows, w))
    {
      s := s.(rows := EraseWhere(s.rows, w));
    }

    method UpdateRevokeLive(w: Where)
      modifies this`s
      ensures s == old(s).(rows := RevokeWhere(old(s).rows, w, true, old(s).now))
    {
      s := s.(rows := RevokeWhere(s.rows, w, true, s.now));
    }

    method UpdateTouchLive(id: Id, at: Time) returns (count: nat)
      modifies this`s
      ensures s == old(s).(rows := TouchLive(old(s).rows, id, at))
      ensures count == if LiveAt(old(s).rows, id, at) then 1 else 0
    {
      count := if LiveAt(s.rows, id, at) then 1 else 0;
      s := s.(rows := TouchLive(s.rows, id, at));
    }

    /**
     * The transaction of a rotation: the claim, which alone can refuse; the pair
     * kept on the parent, erased; the child, inserted. A draw that is not new
     * breaks a unique constraint and rolls the whole transaction back.
     */
    method ClaimAndInsert(snap: Snap, bounds: Authority.Bounds, sealMs: nat, d: Draw)
      returns (issued: Option<Tokens>, lost: bool)
      modifies this`s
      ensures lost <==> snap.id !in old(s).rows || old(s).rows[snap.id].revoked
      ensures issued.Some? <==> !lost && Fresh(old(s), d)
      ensures issued.None? ==> s == old(s)
      ensures issued.Some? ==>
                var b := ChildBirth(old(s), snap, bounds, d);
                && issued.value == b.tokens
                && s == old(s).(rows := ClaimedRows(old(s), snap, sealMs, d.id, b),
                                born := old(s).born[d.id := b],
                                chains := Extend(old(s).chains, b.chain, d.id))
    {
      var b := ChildBirth(s, snap, bounds, d);
      var rows := s.rows;
      if snap.id !in rows || rows[snap.id].revoked {
        return None, true;
      }
      var claimed := rows[snap.id].(revoked := true, revokedAt := Some(s.now));
      rows := rows[snap.id := Sealed(claimed, s.key, sealMs, snap.id, b.tokens, s.now)];
      if snap.row.rotatedFrom.Some? {
        rows := EraseWhere(rows, ByIds({snap.row.rotatedFrom.value}, None, None));
      }
      if !Fresh(s, d) {
        return None, false;
      }
      rows := rows[d.id := NewRow(b)];
      s := s.(rows := rows, born := s.born[d.id := b], chains := Extend(s.chains, b.chain, d.id));
      return Some(b.tokens), false;
    }

    /** The insert that starts a chain; None when a draw is not new. */
    method InsertFirst(origin: Origin, user: string, client: string, scope: string,
                       resource: Option<Authority.Uri>, d: Draw) returns (issued: Option<Tokens>)
      modifies this`s
      ensures issued.Some? <==> Fresh(old(s), d)
      ensures issued.None? ==> s == old(s)
      ensures issued.Some? ==>
                var b := Birth(origin, |old(s).chains|, 0, user, client, scope, Named(resource), old(s).now,
                               Issue(d, scope));
                issued.value == b.tokens && s == InsertRoot(old(s), d.id, b)
    {
      if !Fresh(s, d) {
        return None;
      }
      var b := Birth(origin, |s.chains|, 0, user, client, scope, Named(resource), s.now, Issue(d, scope));
      s := InsertRoot(s, d.id, b);
      issued := Some(b.tokens);
    }

    method UpdateClaimCode(i: CodeInput, me: CallId) returns (count: nat)
      modifies this`s
      ensures count == if Claimable(old(s).codes, i, old(s).now) then 1 else 0
      ensures s == if count == 0 then old(s)
                   else old(s).(codes := old(s).codes[i.code := old(s).codes[i.code].(used := true)],
                                holder := old(s).holder[i.code := me])
    {
      if !Claimable(s.codes, i, s.now) {
        return 0;
      }
      s := s.(codes := s.codes[i.code := s.codes[i.code].(used := true)], holder := s.holder[i.code := me]);
      count := 1;
    }

    method FindCode(code: string) returns (r: Option<Code>)
      ensures r == if code in s.codes then Some(s.codes[code]) else None
    {
      r := if code in s.codes then Some(s.codes[code]) else None;
    }

    method UpdateRevokeOne(find: Where)
      modifies this`s
      ensures s == old(s).(rows := RevokeWhere(old(s).rows, find, !find.BySession?, old(s).now))
    {
      s := s.(rows := RevokeWhere(s.rows, find, !find.BySession?, s.now));
    }

    // ---------- the refresh grant ----------

    /** A request arrives: its call begins, with a trace of its own. */
    method Begin(me: CallId, request: Request, others: Interference)
      requires me !in s.calls
      modifies this
      ensures start == old(s) && At(me, First(request)) && Woven(trace, me, request, others)
      ensures s == Goto(old(s), me, First(request))
    {
      start := s;
      trace := [Start(me, request)];
      BeginRun(s, me, request);
      s := Goto(s, me, First(request));
    }

    method Refresh(me: CallId, token: string, clientId: string, client: Option<Authority.Client>, d: Draw,
                   others: Interference) returns (reply: Reply)
      requires me !in s.calls && LeavesAlone(others, me)
      modifies this
      ensures start == old(s)
      ensures exists cut :: At(me, Done(reply, cut))
      ensures Woven(trace, me, TokenMachine.Refresh(token, clientId, client), others)
    {
      hide StepClean, StepGrace, StepGranting, StepRevoke, LeavesAlone, Woven;
      var request := TokenMachine.Refresh(token, clientId, client);
      Begin(me, request, others);
      Await(me, First(request), request, others, 0);
      var matched := FindByToken(token);
      if matched.None? || matched.value.row.client != clientId {
        reply := Refused(InvalidToken);
        Took(me, s, d, Done(reply, {}), request, others);
        return;
      }
      var snap := matched.value;
      if snap.row.revoked {
        Took(me, s, d, GraceBegin(snap, Replay), request, others);
        reply := Replayed(me, snap, d, request, others);
        return;
      }
      var c := Loaded(snap, client);
      Took(me, s, d, c, request, others);
      Await(me, c, request, others, 1);
      reply := Rotate(me, snap, client, d, request, others);
    }

    lemma BeginRun(t: State, me: CallId, request: Request)
      requires me !in t.calls
      ensures Run(t, [Start(me, request)]) == Goto(t, me, First(request))
    {
      assert [Start(me, request)][1..] == [];
      assert Run(t, [Start(me, request)]) == Run(Apply(t, Start(me, request)), []);
    }

    /** A live token: expiry, bounds, the rotation, and what a lost race gets. */
    method Rotate(me: CallId, snap: Snap, client: Option<Authority.Client>, d: Draw, request: Request,
                  others: Interference) returns (reply: Reply)
      requires At(me, Loaded(snap, client)) && LeavesAlone(others, me) && Woven(trace, me, request, others)
      modifies this`s, this`trace
      ensures At(me, Done(reply, {})) && Woven(trace, me, request, others)
    {
      hide StepClean, StepGrace, StepGranting, StepRevoke, LeavesAlone, Woven;
      if snap.row.expiresAt < s.now {
        reply := Refused(TokenExpired);
        Took(me, s, d, Done(reply, {}), request, others);
        return;
      }
      var bounds := Authority.RefreshBounds(client, snap.row.scope, snap.row.resource, s.registry);
      if bounds.None? {
        reply := Refused(ResourceRefused);
        Took(me, s, d, Done(reply, {}), request, others);
        return;
      }
      var sealMs := s.windowMs;
      var c := Claiming(snap, bounds.value, sealMs);
      Took(me, s, d, c, request, others);
      Await(me, c, request, others, 2);
      reply := Claim(me, snap, bounds.value, sealMs, d, request, others);
    }

    /** The rotation's transaction and its answer. */
    method Claim(me: CallId, snap: Snap, bounds: Authority.Bounds, sealMs: nat, d: Draw, request: Request,
                 others: Interference) returns (reply: Reply)
      requires At(me, Claiming(snap, bounds, sealMs)) && LeavesAlone(others, me) && Woven(trace, me, request, others)
      modifies this`s, this`trace
      ensures At(me, Done(reply, {})) && Woven(trace, me, request, others)
    {
      hide StepClean, StepGrace, StepGranting, StepRevoke, ClaimedRows, ChildBirth, Extend, Fresh, LeavesAlone, Woven;
      var before := s;
      var issued, lost := ClaimAndInsert(snap, bounds, sealMs, d);
      if issued.Some? {
        reply := Pair(issued.value);
        Took(me, before, d, Done(reply, {}), request, others);
        return;
      }
      if !lost {
        reply := Refused(DrawCollided);
        Took(me, before, d, Done(reply, {}), request, others);
        return;
      }
      Took(me, before, d, Refinding(snap.id), request, others);
      reply := LostTheRace(me, snap.id, d, request, others);
    }

    /** The winner's pair if the grace gives it, else "already rotated". */
    method LostTheRace(me: CallId, id: Id, d: Draw, request: Request, others: Interference) returns (reply: Reply)
      requires At(me, Refinding(id)) && LeavesAlone(others, me) && Woven(trace, me, request, others)
      modifies this`s, this`trace
      ensures At(me, Done(reply, {})) && Woven(trace, me, request, others)
    {
      hide StepClean, StepGrace, StepGranting, StepRevoke, LeavesAlone, Woven;
      Await(me, Refinding(id), request, others, 3);
      var rotated := FindById(id);
      if rotated.None? {
        reply := Refused(AlreadyRotated);
        Took(me, s, d, Done(reply, {}), request, others);
        return;
      }
      Took(me, s, d, GraceBegin(rotated.value, LostRace), request, others);
      var outcome := GraceReuse(me, rotated.value, LostRace, d, request, others);
      reply := if outcome.PairOf? then Pair(outcome.tokens) else Refused(AlreadyRotated);
    }

    /** A revoked token presented: the kept pair, a plain refusal, or the theft branch. */
    method Replayed(me: CallId, snap: Snap, d: Draw, request: Request, others: Interference) returns (reply: Reply)
      requires At(me, GraceBegin(snap, Replay)) && LeavesAlone(others, me) && Woven(trace, me, request, others)
      modifies this`s, this`trace
      ensures exists cut :: At(me, Done(reply, cut))
      ensures Woven(trace, me, request, others)
    {
      var outcome := GraceReuse(me, snap, Replay, d, request, others);
      if outcome.PairOf? {
        return Pair(outcome.tokens);
      }
      if outcome.RotatedSince? {
        return Refused(AlreadyRotated);
      }
      var family := ByUserClient(snap.row.user, snap.row.client);
      reply := Refused(TokenRevoked);
      RevokeAndErase(me, family, family, reply, d, request, others);
    }

    /**
     * The two statements of a family-wide or user-wide revoke: every live row,
     * then every pair kept in its scope. As the verdict of theft, the rows of
     * the user and client.
     */
    method RevokeAndErase(me: CallId, revoke: Where, erase: Where, reply: Reply, d: Draw, request: Request,
                          others: Interference)
      requires At(me, Sweeping(revoke, erase, reply)) && LeavesAlone(others, me) && Woven(trace, me, request, others)
      modifies this`s, this`trace
      ensures exists cut :: At(me, Done(reply, cut))
      ensures Woven(trace, me, request, others)
    {
      hide StepClean, StepGrace, StepGranting, StepRefresh, LeavesAlone, Woven;
      Await(me, Sweeping(revoke, erase, reply), request, others, 9);
      var before := s;
      UpdateRevokeLive(revoke);
      var cut := Matching(before.rows, revoke);
      Took(me, before, d, Erasing(revoke, erase, reply, cut), request, others);
      EraseKept(me, revoke, erase, reply, cut, d, request, others);
    }

    method EraseKept(me: CallId, revoke: Where, erase: Where, reply: Reply, cut: set<Id>, d: Draw, request: Request,
                     others: Interference)
      requires At(me, Erasing(revoke, erase, reply, cut)) && LeavesAlone(others, me)
      requires Woven(trace, me, request, others)
      modifies this`s, this`trace
      ensures At(me, Done(reply, cut)) && Woven(trace, me, request, others)
    {
      hide StepClean, StepGrace, StepGranting, StepRefresh, LeavesAlone, Woven;
      Await(me, Erasing(revoke, erase, reply, cut), request, others, 10);
      var before := s;
      UpdateErase(erase);
      Took(me, before, d, Done(reply, cut), request, others);
    }

    /** Within the grace of a rotation, the pair it returned, only while its child is still live. */
    method GraceReuse(me: CallId, snap: Snap, why: Why, d: Draw, request: Request, others: Interference)
      returns (outcome: GraceOutcome)
      requires At(me, GraceBegin(snap, why)) && LeavesAlone(others, me) && Woven(trace, me, request, others)
      modifies this`s, this`trace
      ensures At(me, match outcome
                     case PairOf(tokens) => Done(Pair(tokens), {})
                     case RotatedSince => Done(Refused(AlreadyRotated), {})
                     case NoPairKept => NoPair(snap, why))
      ensures Woven(trace, me, request, others)
    {
      var now, window := OpenGrace(me, snap, why, d, request, others);
      if s.key.None? || !WithinGrace(snap.row, window, now) {
        return NoPairKept;
      }
      var child := FindChildState(me, snap, why, now, window, d, request, others);
      if child.RotatedChild? {
        return RotatedSince;
      }
      if !child.LiveChild? {
        return NoPairKept;
      }
      var tokens := OpenReplay(s.key, snap.id, snap.row, now);
      outcome := if tokens.Some? then PairOf(tokens.value) else NoPairKept;
    }

    /** The clock and the setting; a pair read after its window is erased on the way. */
    method OpenGrace(me: CallId, snap: Snap, why: Why, d: Draw, request: Request, others: Interference)
      returns (now: Time, window: nat)
      requires At(me, GraceBegin(snap, why)) && LeavesAlone(others, me) && Woven(trace, me, request, others)
      modifies this`s, this`trace
      ensures At(me, if s.key.None? || !WithinGrace(snap.row, window, now) then NoPair(snap, why)
                     else ChildFind(snap, why, now, window))
      ensures Woven(trace, me, request, others)
    {
      hide StepClean, StepGranting, StepRefresh, StepRevoke, LeavesAlone, Woven;
      Await(me, GraceBegin(snap, why), request, others, 4);
      now, window := s.now, s.windowMs;
      if Overdue(snap.row, now) {
        Took(me, s, d, GraceErase(snap, why, now), request, others);
        window := EraseOverdue(me, snap, why, now, d, request, others);
      } else {
        Took(me, s, d, AfterErase(s, snap, why, now), request, others);
      }
    }

    method EraseOverdue(me: CallId, snap: Snap, why: Why, now: Time, d: Draw, request: Request, others: Interference)
      returns (window: nat)
      requires At(me, GraceErase(snap, why, now)) && LeavesAlone(others, me) && Woven(trace, me, request, others)
      modifies this`s, this`trace
      ensures window == s.windowMs && At(me, AfterErase(s, snap, why, now)) && Woven(trace, me, request, others)
    {
      hide StepClean, StepGranting, StepRefresh, StepRevoke, LeavesAlone, Woven;
      Await(me, GraceErase(snap, why, now), request, others, 5);
      var before := s;
      UpdateErase(ByIds({snap.id}, None, None));
      Took(me, before, d, AfterErase(before, snap, why, now), request, others);
      window := s.windowMs;
    }

    /** Live (by the conditional update), rotated (revoked, with a child of its own), or gone. */
    method FindChildState(me: CallId, snap: Snap, why: Why, now: Time, window: nat, d: Draw, request: Request,
                          others: Interference) returns (child: ChildState)
      requires At(me, ChildFind(snap, why, now, window)) && LeavesAlone(others, me) && Woven(trace, me, request, others)
      modifies this`s, this`trace
      ensures At(me, Verdict(s.key, snap, why, now, child))
      ensures Woven(trace, me, request, others)
    {
      hide StepClean, StepGranting, StepRefresh, StepRevoke, LeavesAlone, Woven;
      var c := ChildFind(snap, why, now, window);
      Await(me, c, request, others, 6);
      var found := ChildrenOf(s.rows, snap.id, snap.row.user, snap.row.client);
      if found == {} {
        Took(me, s, d, NoPair(snap, why), request, others);
        return GoneChild;
      }
      var id := Least(found);
      Took(me, s, d, ChildTouch(snap, why, now, window, id), request, others);
      child := TouchChild(me, snap, why, now, window, id, d, request, others);
    }

    method TouchChild(me: CallId, snap: Snap, why: Why, now: Time, window: nat, id: Id, d: Draw, request: Request,
                      others: Interference) returns (child: ChildState)
      requires At(me, ChildTouch(snap, why, now, window, id)) && LeavesAlone(others, me)
      requires Woven(trace, me, request, others)
      modifies this`s, this`trace
      ensures At(me, Verdict(s.key, snap, why, now, child)) && Woven(trace, me, request, others)
    {
      Await(me, ChildTouch(snap, why, now, window, id), request, others, 7);
      child := TouchNow(me, snap, why, now, window, id, d, request, others);
    }

    method TouchNow(me: CallId, snap: Snap, why: Why, now: Time, window: nat, id: Id, d: Draw, request: Request,
                    others: Interference) returns (child: ChildState)
      requires At(me, ChildTouch(snap, why, now, window, id)) && LeavesAlone(others, me)
      requires Woven(trace, me, request, others)
      modifies this`s, this`trace
      ensures At(me, Verdict(s.key, snap, why, now, child)) && Woven(trace, me, request, others)
    {
      hide StepCall, TouchLive, LiveAt, Verdict, LeavesAlone, Woven;
      var before := s;
      var count := UpdateTouchLive(id, now);
      if count == 1 {
        child := LiveChild(id);
        TouchedStep(before, me, snap, why, now, window, id, d);
        Took(me, before, d, Verdict(before.key, snap, why, now, child), request, others);
        return;
      }
      UntouchedStep(before, me, snap, why, now, window, id, d);
      Took(me, before, d, ChildCount(snap, why, now, id), request, others);
      child := CountGrandchildren(me, snap, why, now, id, d, request, others);
    }

    method CountGrandchildren(me: CallId, snap: Snap, why: Why, now: Time, id: Id, d: Draw, request: Request,
                              others: Interference) returns (child: ChildState)
      requires At(me, ChildCount(snap, why, now, id)) && LeavesAlone(others, me) && Woven(trace, me, request, others)
      modifies this`s, this`trace
      ensures At(me, Verdict(s.key, snap, why, now, child)) && Woven(trace, me, request, others)
    {
      hide StepClean, StepGranting, StepRefresh, StepRevoke, LeavesAlone, Woven;
      Await(me, ChildCount(snap, why, now, id), request, others, 8);
      var grandchildren := ChildrenOf(s.rows, id, snap.row.user, snap.row.client);
      if grandchildren == {} {
        Took(me, s, d, NoPair(snap, why), request, others);
        return GoneChild;
      }
      Took(me, s, d, Done(Refused(AlreadyRotated), {}), request, others);
      return RotatedChild;
    }

    // ---------- the authorization_code grant ----------

    /** Claim the code, and only then look at it. */
    method ExchangeAuthorizationCode(me: CallId, i: CodeInput, d: Draw, others: Interference) returns (reply: Reply)
      requires me !in s.calls && LeavesAlone(others, me)
      modifies this
      ensures start == old(s)
      ensures exists cut :: At(me, Done(reply, cut))
      ensures Woven(trace, me, ExchangeCode(i), others)
    {
      hide StepClean, StepGrace, StepRefresh, StepRevoke, LeavesAlone, Woven;
      var request := ExchangeCode(i);
      Begin(me, request, others);
      Await(me, CodeClaim(i), request, others, 0);
      var before := s;
      var count := UpdateClaimCode(i, me);
      if count != 1 {
        Took(me, before, d, CodeCheck(i.code), request, others);
        reply := HandleCodeClaimFailure(me, i.code, d, request, others);
        return;
      }
      Took(me, before, d, CodeRead(i), request, others);
      reply := ReadAndIssue(me, i, d, request, others);
    }

    /** The verifier and the audience, against the row the claim took; then the tokens. */
    method ReadAndIssue(me: CallId, i: CodeInput, d: Draw, request: Request,
                        others: Interference) returns (reply: Reply)
      requires At(me, CodeRead(i)) && LeavesAlone(others, me) && Woven(trace, me, request, others)
      modifies this`s, this`trace
      ensures At(me, Done(reply, {})) && Woven(trace, me, request, others)
    {
      hide StepClean, StepGrace, StepRefresh, StepRevoke, LeavesAlone, Woven;
      Await(me, CodeRead(i), request, others, 1);
      var authCode := FindCode(i.code);
      if authCode.None? {
        reply := Refused(InvalidCode);
        Took(me, s, d, Done(reply, {}), request, others);
        return;
      }
      if !PkceOk(authCode.value, i.verifier) {
        reply := Refused(InvalidVerifier);
        Took(me, s, d, Done(reply, {}), request, others);
        return;
      }
      if !AudienceOk(authCode.value, i, s.registry) {
        reply := Refused(InvalidTarget);
        Took(me, s, d, Done(reply, {}), request, others);
        return;
      }
      Took(me, s, d, CodeIssue(i.code, authCode.value), request, others);
      reply := IssueForCode(me, i.code, authCode.value, d, request, others);
    }

    method IssueForCode(me: CallId, code: string, row: Code, d: Draw, request: Request, others: Interference)
      returns (reply: Reply)
      requires At(me, CodeIssue(code, row)) && LeavesAlone(others, me) && Woven(trace, me, request, others)
      modifies this`s, this`trace
      ensures At(me, Done(reply, {})) && Woven(trace, me, request, others)
    {
      hide StepClean, StepGrace, StepRefresh, StepRevoke, InsertRoot, Fresh, Named, LeavesAlone, Woven;
      Await(me, CodeIssue(code, row), request, others, 2);
      var before := s;
      var issued := InsertFirst(FromCode(code), row.user, row.client, row.scope, row.resource, d);
      reply := if issued.Some? then Pair(issued.value) else Refused(DrawCollided);
      Took(me, before, d, Done(reply, {}), request, others);
    }

    /** A failed claim: of a used code, the theft verdict on its user and client. */
    method HandleCodeClaimFailure(me: CallId, code: string, d: Draw, request: Request, others: Interference)
      returns (reply: Reply)
      requires At(me, CodeCheck(code)) && LeavesAlone(others, me) && Woven(trace, me, request, others)
      modifies this`s, this`trace
      ensures reply == Refused(InvalidCode) && exists cut :: At(me, Done(reply, cut))
      ensures Woven(trace, me, request, others)
    {
      hide StepClean, StepGrace, StepRefresh, StepRevoke, LeavesAlone, Woven;
      reply := Refused(InvalidCode);
      Await(me, CodeCheck(code), request, others, 3);
      var replay := FindCode(code);
      if replay.Some? && replay.value.used {
        var family := ByUserClient(replay.value.user, replay.value.client);
        Took(me, s, d, Sweeping(family, family, reply), request, others);
        RevokeAndErase(me, family, family, reply, d, request, others);
        return;
      }
      Took(me, s, d, Done(reply, {}), request, others);
    }

    /** Tokens for an approved device. */
    method GrantDevice(me: CallId, user: string, client: string, scope: string, resource: Option<Authority.Uri>,
                       d: Draw, others: Interference) returns (reply: Reply)
      requires me !in s.calls && LeavesAlone(others, me)
      modifies this
      ensures start == old(s) && At(me, Done(reply, {}))
      ensures Woven(trace, me, DeviceGrant(user, client, scope, resource), others)
    {
      var request := DeviceGrant(user, client, scope, resource);
      Begin(me, request, others);
      reply := IssueForDevice(me, user, client, scope, resource, d, request, others);
    }

    method IssueForDevice(me: CallId, user: string, client: string, scope: string, resource: Option<Authority.Uri>,
                          d: Draw, request: Request, others: Interference) returns (reply: Reply)
      requires At(me, Granting(user, client, scope, resource)) && LeavesAlone(others, me)
      requires Woven(trace, me, request, others)
      modifies this`s, this`trace
      ensures At(me, Done(reply, {})) && Woven(trace, me, request, others)
    {
      hide StepClean, StepGrace, StepRefresh, StepRevoke, InsertRoot, Fresh, Named, LeavesAlone, Woven;
      Await(me, Granting(user, client, scope, resource), request, others, 0);
      var before := s;
      var issued := InsertFirst(FromDevice, user, client, scope, resource, d);
      reply := if issued.Some? then Pair(issued.value) else Refused(DrawCollided);
      Took(me, before, d, Done(reply, {}), request, others);
    }

    // ---------- the revoke paths ----------

    /**
     * Logout, a password change and the admin's revoke of all sessions are
     * EndUserTokens; "sign out everywhere else" is RevokeAllSessions. Each is
     * one revoking and one erasing statement.
     */
    method RevokeUserWide(me: CallId, request: Request, d: Draw, others: Interference)
      requires request.EndUserTokens? || request.RevokeAllSessions?
      requires me !in s.calls && LeavesAlone(others, me)
      modifies this
      ensures start == old(s)
      ensures exists cut :: At(me, Done(Acknowledged, cut))
      ensures Woven(trace, me, request, others)
    {
      Begin(me, request, others);
      var revoke :=
        if request.RevokeAllSessions? && request.except.Some? then ByUserExcept(request.user, request.except.value)
        else ByUser(request.user);
      RevokeAndErase(me, revoke, ByUser(request.user), Acknowledged, d, request, others);
    }

    /** Disconnecting an application: both statements in one transaction. */
    method RevokeConsentOf(me: CallId, user: string, client: string, d: Draw, others: Interference)
      requires me !in s.calls && LeavesAlone(others, me)
      modifies this
      ensures start == old(s)
      ensures exists cut :: At(me, Done(Acknowledged, cut))
      ensures Woven(trace, me, RevokeConsent(user, client), others)
    {
      hide StepClean, StepGrace, StepGranting, StepRefresh, LeavesAlone, Woven;
      var request := RevokeConsent(user, client);
      var family := ByUserClient(user, client);
      Begin(me, request, others);
      Await(me, Disconnecting(user, client), request, others, 0);
      var before := s;
      UpdateRevokeLive(family);
      UpdateErase(family);
      Took(me, before, d, Done(Acknowledged, Matching(before.rows, family)), request, others);
    }

    /** One refresh token (RFC 7009) or one session: the row, then the pairs kept on it and on its parent. */
    method RevokeOne(me: CallId, request: Request, d: Draw, others: Interference)
      requires request.RevokeToken? || request.RevokeSession?
      requires me !in s.calls && LeavesAlone(others, me)
      modifies this
      ensures start == old(s) && At(me, Done(Acknowledged, {})) && Woven(trace, me, request, others)
    {
      hide StepClean, StepGrace, StepGranting, StepRefresh, LeavesAlone, Woven;
      Begin(me, request, others);
      var find :=
        if request.RevokeToken? then ByLookup(Hmac(request.token), request.client)
        else BySession(request.id, request.user);
      Await(me, FindingOne(find), request, others, 0);
      var found := Matching(s.rows, find);
      var around := if found == {} then None else Some(Around(Least(found), s.rows[Least(found)]));
      Took(me, s, d, RevokingOne(find, around), request, others);
      RevokeFound(me, find, around, d, request, others);
    }

    method RevokeFound(me: CallId, find: Where, around: Option<set<Id>>, d: Draw, request: Request,
                       others: Interference)
      requires find.ByLookup? || find.BySession?
      requires At(me, RevokingOne(find, around)) && LeavesAlone(others, me) && Woven(trace, me, request, others)
      modifies this`s, this`trace
      ensures At(me, Done(Acknowledged, {})) && Woven(trace, me, request, others)
    {
      hide StepClean, StepGrace, StepGranting, StepRefresh, LeavesAlone, Woven;
      Await(me, RevokingOne(find, around), request, others, 1);
      var before := s;
      UpdateRevokeOne(find);
      if around.None? {
        Took(me, before, d, Done(Acknowledged, {}), request, others);
        return;
      }
      var erase :=
        if find.ByLookup? then ByIds(around.value, None, Some(find.client))
        else ByIds(around.value, Some(find.user), None);
      Took(me, before, d, ErasingOne(erase), request, others);
      EraseAround(me, erase, d, request, others);
    }

    method EraseAround(me: CallId, erase: Where, d: Draw, request: Request, others: Interference)
      requires At(me, ErasingOne(erase)) && LeavesAlone(others, me) && Woven(trace, me, request, others)
      modifies this`s, this`trace
      ensures At(me, Done(Acknowledged, {})) && Woven(trace, me, request, others)
    {
      hide StepClean, StepGrace, StepGranting, StepRefresh, LeavesAlone, Woven;
      Await(me, ErasingOne(erase), request, others, 2);
      var before := s;
      UpdateErase(erase);
      Took(me, before, d, Done(Acknowledged, {}), request, others);
    }

    // ---------- the cleanup ----------

    /** Expired codes, expired rows, then pairs past their window, all by one reading of the clock. */
    method CleanupExpired(me: CallId, d: Draw, others: Interference)
      requires me !in s.calls && LeavesAlone(others, me)
      modifies this
      ensures start == old(s) && At(me, Done(Acknowledged, {})) && Woven(trace, me, Cleanup, others)
    {
      hide StepGrace, StepGranting, StepRefresh, StepRevoke, LeavesAlone, Woven;
      Begin(me, Cleanup, others);
      Await(me, CleanBegin, Cleanup, others, 0);
      var now := s.now;
      Took(me, s, d, CleanCodes(now), Cleanup, others);
      CleanupCodes(me, now, d, others);
      CleanupRows(me, now, d, others);
      CleanupPairs(me, now, d, others);
    }

    method CleanupCodes(me: CallId, now: Time, d: Draw, others: Interference)
      requires At(me, CleanCodes(now)) && LeavesAlone(others, me) && Woven(trace, me, Cleanup, others)
      modifies this`s, this`trace
      ensures At(me, CleanTokens(now)) && Woven(trace, me, Cleanup, others)
    {
      hide StepGrace, StepGranting, StepRefresh, StepRevoke, LeavesAlone, Woven;
      Await(me, CleanCodes(now), Cleanup, others, 1);
      var before := s;
      s := s.(codes := DeleteExpiredCodes(s.codes, now));
      Took(me, before, d, CleanTokens(now), Cleanup, others);
    }

    method CleanupRows(me: CallId, now: Time, d: Draw, others: Interference)
      requires At(me, CleanTokens(now)) && LeavesAlone(others, me) && Woven(trace, me, Cleanup, others)
      modifies this`s, this`trace
      ensures At(me, CleanKept(now)) && Woven(trace, me, Cleanup, others)
    {
      hide StepGrace, StepGranting, StepRefresh, StepRevoke, LeavesAlone, Woven;
      Await(me, CleanTokens(now), Cleanup, others, 2);
      var before := s;
      s := s.(rows := DeleteExpired(s.rows, now));
      Took(me, before, d, CleanKept(now), Cleanup, others);
    }

    method CleanupPairs(me: CallId, now: Time, d: Draw, others: Interference)
      requires At(me, CleanKept(now)) && LeavesAlone(others, me) && Woven(trace, me, Cleanup, others)
      modifies this`s, this`trace
      ensures At(me, Done(Acknowledged, {})) && Woven(trace, me, Cleanup, others)
    {
      hide StepGrace, StepGranting, StepRefresh, StepRevoke, LeavesAlone, Woven;
      Await(me, CleanKept(now), Cleanup, others, 3);
      var before := s;
      s := s.(rows := EraseExpired(s.rows, now));
      Took(me, before, d, Done(Acknowledged, {}), Cleanup, others);
    }
  }
}
