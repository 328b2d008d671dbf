/**
 * The token endpoint as a state machine. Each step is one statement (or one
 * transaction) of one in-flight call, or a local computation between two
 * statements; any number of calls are in flight and interleave freely. A call
 * in flight carries what the code holds in its local variables, including row
 * snapshots that may be stale by the time they are used
 * (src/oauth/refresh-grant.ts, refresh-grace.ts, oauth-token-issuer.service.ts,
 * oauth.service.ts and the revoke paths).
 *
 * `born`, `chains` and `holder` are history: they record every row ever
 * inserted, the rotation chain each belongs to and which call claimed each
 * code, so that the properties survive the deletion of expired rows. No step
 * decides anything by them except that random draws are new.
 */
module TokenMachine {
  import opened Wrappers
  import opened TokenStore
  import Authority

  type CallId = nat

  // ---------- authorization codes ----------

  datatype Digest = Sha256(text: string) | OtherDigest(text: string)

  /** The stored challenge by its method; an unknown method never verifies. */
  datatype Challenge = PlainText(text: string) | S256(digest: Digest) | UnknownMethod

  predicate VerifyChallenge(verifier: string, c: Challenge) {
    match c
    case PlainText(t) => verifier == t
    case S256(d) => d == Sha256(verifier)
    case UnknownMethod => false
  }

  datatype Code = Code(client: string, redirectUri: string, user: string, challenge: Option<Challenge>,
                       scope: string, resource: Option<Authority.Uri>, expiresAt: Time, used: bool)

  const CODE_LIFE_MS := 10 * 60 * 1000

  datatype CodeInput = CodeInput(code: string, client: string, redirectUri: string, verifier: Option<string>,
                                 row: Authority.Client)

  /** `updateMany where { code, clientId, redirectUri, used: false, expiresAt: { gt: now } }` */
  predicate Claimable(codes: map<string, Code>, i: CodeInput, now: Time) {
    i.code in codes
    && codes[i.code].client == i.client
    && codes[i.code].redirectUri == i.redirectUri
    && !codes[i.code].used
    && codes[i.code].expiresAt > now
  }

  predicate PkceOk(c: Code, verifier: Option<string>) {
    c.challenge.Some? ==> verifier.Some? && VerifyChallenge(verifier.value, c.challenge.value)
  }

  /** `resolveCodeAudience` lets the exchange go on. */
  predicate AudienceOk(c: Code, i: CodeInput, registry: seq<string>) {
    Authority.IsResourceAllowed(i.row.(clientId := i.client), c.resource, registry)
  }

  // ---------- history ----------

  datatype Origin = FromCode(code: string) | FromDevice | FromRotation(parent: Id)

  /** What is remembered of a row for ever. */
  datatype Birth = Birth(origin: Origin, chain: nat, pos: nat, user: string, client: string, scope: string,
                         resource: Option<Authority.Uri>, at: Time, tokens: Tokens)
  {
    function Parent(): Option<Id> {
      if origin.FromRotation? then Some(origin.parent) else None
    }
  }

  // ---------- calls in flight ----------

  datatype Reason =
    | InvalidToken | TokenExpired | AlreadyRotated | TokenRevoked | ResourceRefused
    | InvalidCode | InvalidVerifier | InvalidTarget | DrawCollided

  datatype Reply = Pair(tokens: Tokens) | Refused(reason: Reason) | Acknowledged

  datatype Snap = Snap(id: Id, row: Row)

  /** Why the grace is asked: the row was found revoked, or this call lost its claim. */
  datatype Why = Replay | LostRace

  datatype Call =
    // RefreshGrant.refresh
    | Finding(token: string, client: string, bound: Option<Authority.Client>)
    | Loaded(snap: Snap, bound: Option<Authority.Client>)
    | Claiming(snap: Snap, bounds: Authority.Bounds, sealMs: nat)
    | Refinding(id: Id)
    // graceReuse, childState: `at` is the clock the call read, `window` the setting it read
    | GraceBegin(snap: Snap, why: Why)
    | GraceErase(snap: Snap, why: Why, at: Time)
    | ChildFind(snap: Snap, why: Why, at: Time, window: nat)
    | ChildTouch(snap: Snap, why: Why, at: Time, window: nat, child: Id)
    | ChildCount(snap: Snap, why: Why, at: Time, child: Id)
    // the two statements of a family-wide or user-wide revoke
    | Sweeping(revoke: Where, erase: Where, after: Reply)
    | Erasing(revoke: Where, erase: Where, after: Reply, cut: set<Id>)
    | Disconnecting(user: string, client: string)
    // one token (RFC 7009) or one session
    | FindingOne(find: Where)
    | RevokingOne(find: Where, around: Option<set<Id>>)
    | ErasingOne(erase: Where)
    // the authorization_code and device_code grants
    | CodeClaim(input: CodeInput)
    | CodeRead(input: CodeInput)
    | CodeIssue(code: string, row: Code)
    | CodeCheck(code: string)
    | Granting(user: string, client: string, scope: string, resource: Option<Authority.Uri>)
    // the hourly cleanup
    | CleanBegin
    | CleanCodes(at: Time)
    | CleanTokens(at: Time)
    | CleanKept(at: Time)
    // `cut`: the rows the call's own revoke statement selected
    | Done(reply: Reply, cut: set<Id>)

  datatype Request =
    | Refresh(token: string, client: string, bound: Option<Authority.Client>)
    | ExchangeCode(input: CodeInput)
    | DeviceGrant(user: string, client: string, scope: string, resource: Option<Authority.Uri>)
    | RevokeToken(token: string, client: string)
    | RevokeSession(id: Id, user: string)
    | RevokeAllSessions(user: string, except: Option<Id>)
    | EndUserTokens(user: string)
    | RevokeConsent(user: string, client: string)
    | Cleanup

  /** Where a call starts. EndUserTokens is logout, a password change and the admin's revoke-all. */
  function First(r: Request): Call {
    match r
    case Refresh(token, client, bound) => Finding(token, client, bound)
    case ExchangeCode(input) => CodeClaim(input)
    case DeviceGrant(user, client, scope, resource) => Granting(user, client, scope, resource)
    case RevokeToken(token, client) => FindingOne(ByLookup(Hmac(token), client))
    case RevokeSession(id, user) => FindingOne(BySession(id, user))
    case RevokeAllSessions(user, except) =>
      Sweeping(if except.Some? then ByUserExcept(user, except.value) else ByUser(user), ByUser(user), Acknowledged)
    case EndUserTokens(user) => Sweeping(ByUser(user), ByUser(user), Acknowledged)
    case RevokeConsent(user, client) => Disconnecting(user, client)
    case Cleanup => CleanBegin
  }

  // ---------- the state and its steps ----------

  datatype State = State(
    now: Time, windowMs: nat, key: Option<nat>, registry: seq<string>,
    rows: Rows, codes: map<string, Code>, minted: set<string>,
    born: map<Id, Birth>, chains: seq<seq<Id>>, holder: map<string, CallId>,
    calls: map<CallId, Call>)

  /** The random values a step may need. */
  datatype Draw = Draw(id: Id, accessToken: string, refreshToken: string, idToken: string, ttl: nat)

  datatype Action =
    | Tick(ms: nat)
    | SetGrace(setting: Option<nat>)
    | MintCode(code: string, row: Code)
    | DropClient(client: string)
    | DropUser(user: string)
    | Start(me: CallId, request: Request)
    | Step(me: CallId, draw: Draw)

  /** Random draws do not repeat: a new row id and a new refresh token. */
  predicate Fresh(s: State, d: Draw) {
    d.id !in s.born && d.id !in s.rows && forall i | i in s.born :: s.born[i].tokens.refreshToken != d.refreshToken
  }

  function Issue(d: Draw, scope: string): Tokens {
    Tokens(d.accessToken, d.refreshToken, d.idToken, d.ttl, scope)
  }

  /** The row `persistRefreshToken` creates, from what is remembered of it. */
  function NewRow(b: Birth): Row {
    Row(Hmac(b.tokens.refreshToken), b.user, b.client, b.scope, b.resource,
        b.at + REFRESH_LIFE_MS, b.Parent(), None, None, false, None, b.at)
  }

  function Goto(s: State, me: CallId, c: Call): State {
    s.(calls := s.calls[me := c])
  }

  function ChainOf(s: State, id: Id): nat {
    if id in s.born && s.born[id].chain < |s.chains| then s.born[id].chain else 0
  }

  function Extend(chains: seq<seq<Id>>, c: nat, id: Id): seq<seq<Id>> {
    if c < |chains| then chains[c := chains[c] + [id]] else chains
  }

  /** A grant that starts a chain: the ungated insert. */
  function InsertRoot(s: State, id: Id, b: Birth): State {
    s.(rows := s.rows[id := NewRow(b)], born := s.born[id := b], chains := s.chains + [[id]])
  }

  /**
   * The rotation transaction: claim the row and keep the pair on it, erase the
   * pair its parent keeps, insert the child.
   */
  function ClaimedRows(s: State, snap: Snap, sealMs: nat, id: Id, b: Birth): Rows
    requires snap.id in s.rows
  {
    var rotated := Sealed(s.rows[snap.id].(revoked := true, revokedAt := Some(s.now)),
                          s.key, sealMs, snap.id, b.tokens, s.now);
    var rows := s.rows[snap.id := rotated];
    (if snap.row.rotatedFrom.Some? then EraseWhere(rows, ByIds({snap.row.rotatedFrom.value}, None, None)) else rows)
      [id := NewRow(b)]
  }

  function ChildBirth(s: State, snap: Snap, bounds: Authority.Bounds, d: Draw): Birth {
    var c := ChainOf(s, snap.id);
    Birth(FromRotation(snap.id), c, if c < |s.chains| then |s.chains[c]| else 0,
          snap.row.user, snap.row.client, bounds.scope, bounds.resource, s.now, Issue(d, bounds.scope))
  }

  function StepClaiming(s: State, me: CallId, snap: Snap, bounds: Authority.Bounds, sealMs: nat, d: Draw): State {
    if snap.id !in s.rows || s.rows[snap.id].revoked then Goto(s, me, Refinding(snap.id))
    else if !Fresh(s, d) then Goto(s, me, Done(Refused(DrawCollided), {}))
    else
      var b := ChildBirth(s, snap, bounds, d);
      s.(rows := ClaimedRows(s, snap, sealMs, d.id, b),
         born := s.born[d.id := b],
         chains := Extend(s.chains, b.chain, d.id),
         calls := s.calls[me := Done(Pair(b.tokens), {})])
  }

  /** The theft branch for a replay, the plain refusal for a lost race. */
  function NoPair(snap: Snap, why: Why): (c: Call)
    ensures c.Done? || c.Sweeping?
  {
    if why.LostRace? then Done(Refused(AlreadyRotated), {})
    else
      var family := ByUserClient(snap.row.user, snap.row.client);
      Sweeping(family, family, Refused(TokenRevoked))
  }

  /** The grace rule on the snapshot, after its overdue pair was erased. */
  function AfterErase(s: State, snap: Snap, why: Why, at: Time): (c: Call)
    ensures c.Done? || c.Sweeping? || c.ChildFind?
  {
    if s.key.None? || !WithinGrace(snap.row, s.windowMs, at) then NoPair(snap, why)
    else ChildFind(snap, why, at, s.windowMs)
  }

  function StepFinding(s: State, me: CallId, token: string, client: string, bound: Option<Authority.Client>): State {
    var found := WithLookup(s.rows, Hmac(token));
    if found == {} then Goto(s, me, Done(Refused(InvalidToken), {}))
    else
      var id := Least(found);
      var row := s.rows[id];
      if row.client != client then Goto(s, me, Done(Refused(InvalidToken), {}))
      else if row.revoked then Goto(s, me, GraceBegin(Snap(id, row), Replay))
      else Goto(s, me, Loaded(Snap(id, row), bound))
  }

  function StepLoaded(s: State, me: CallId, snap: Snap, bound: Option<Authority.Client>): State {
    if snap.row.expiresAt < s.now then Goto(s, me, Done(Refused(TokenExpired), {}))
    else
      var bounds := Authority.RefreshBounds(bound, snap.row.scope, snap.row.resource, s.registry);
      if bounds.None? then Goto(s, me, Done(Refused(ResourceRefused), {}))
      else Goto(s, me, Claiming(snap, bounds.value, s.windowMs))
  }

  function StepRefinding(s: State, me: CallId, id: Id): State {
    if id in s.rows then Goto(s, me, GraceBegin(Snap(id, s.rows[id]), LostRace))
    else Goto(s, me, Done(Refused(AlreadyRotated), {}))
  }

  predicate Overdue(row: Row, at: Time) {
    row.graceReplay.Some? && row.graceReplayUntil.Some? && row.graceReplayUntil.value <= at
  }

  function StepGraceBegin(s: State, me: CallId, snap: Snap, why: Why): State {
    if Overdue(snap.row, s.now) then Goto(s, me, GraceErase(snap, why, s.now))
    else Goto(s, me, AfterErase(s, snap, why, s.now))
  }

  function StepGraceErase(s: State, me: CallId, snap: Snap, why: Why, at: Time): State {
    Goto(s, me, AfterErase(s, snap, why, at)).(rows := EraseWhere(s.rows, ByIds({snap.id}, None, None)))
  }

  function StepChildFind(s: State, me: CallId, snap: Snap, why: Why, at: Time, window: nat): State {
    var children := ChildrenOf(s.rows, snap.id, snap.row.user, snap.row.client);
    if children == {} then Goto(s, me, NoPair(snap, why))
    else Goto(s, me, ChildTouch(snap, why, at, window, Least(children)))
  }

  function StepChildTouch(s: State, me: CallId, snap: Snap, why: Why, at: Time, child: Id): State {
    if !LiveAt(s.rows, child, at) then Goto(s, me, ChildCount(snap, why, at, child))
    else
      var tokens := OpenReplay(s.key, snap.id, snap.row, at);
      var next := if tokens.Some? then Done(Pair(tokens.value), {}) else NoPair(snap, why);
      Goto(s, me, next).(rows := TouchLive(s.rows, child, at))
  }

  function StepChildCount(s: State, me: CallId, snap: Snap, why: Why, child: Id): State {
    if ChildrenOf(s.rows, child, snap.row.user, snap.row.client) == {} then Goto(s, me, NoPair(snap, why))
    else Goto(s, me, Done(Refused(AlreadyRotated), {}))
  }

  function StepSweeping(s: State, me: CallId, revoke: Where, erase: Where, after: Reply): State {
    Goto(s, me, Erasing(revoke, erase, after, Matching(s.rows, revoke)))
      .(rows := RevokeWhere(s.rows, revoke, true, s.now))
  }

  function StepErasing(s: State, me: CallId, erase: Where, after: Reply, cut: set<Id>): State {
    Goto(s, me, Done(after, cut)).(rows := EraseWhere(s.rows, erase))
  }

  /** ConsentService.revoke: both statements in one transaction. */
  function StepDisconnecting(s: State, me: CallId, user: string, client: string): State {
    var family := ByUserClient(user, client);
    Goto(s, me, Done(Acknowledged, Matching(s.rows, family)))
      .(rows := EraseWhere(RevokeWhere(s.rows, family, true, s.now), family))
  }

  /** `keptPairsAround` */
  function Around(id: Id, row: Row): set<Id> {
    if row.rotatedFrom.Some? then {id, row.rotatedFrom.value} else {id}
  }

  function StepFindingOne(s: State, me: CallId, find: Where): State {
    var found := Matching(s.rows, find);
    Goto(s, me, RevokingOne(find, if found == {} then None else Some(Around(Least(found), s.rows[Least(found)]))))
  }

  /** A session revoke has no `revoked: false` filter: it stamps a revoked row again. */
  function StepRevokingOne(s: State, me: CallId, find: Where, around: Option<set<Id>>): State {
    var next :=
      if around.None? then Done(Acknowledged, {})
      else if find.ByLookup? then ErasingOne(ByIds(around.value, None, Some(find.client)))
      else if find.BySession? then ErasingOne(ByIds(around.value, Some(find.user), None))
      else Done(Acknowledged, {});
    Goto(s, me, next).(rows := RevokeWhere(s.rows, find, !find.BySession?, s.now))
  }

  function StepErasingOne(s: State, me: CallId, erase: Where): State {
    Goto(s, me, Done(Acknowledged, {})).(rows := EraseWhere(s.rows, erase))
  }

  function StepCodeClaim(s: State, me: CallId, i: CodeInput): State {
    if Claimable(s.codes, i, s.now) then
      Goto(s, me, CodeRead(i)).(codes := s.codes[i.code := s.codes[i.code].(used := true)],
                                holder := s.holder[i.code := me])
    else Goto(s, me, CodeCheck(i.code))
  }

  function StepCodeRead(s: State, me: CallId, i: CodeInput): State {
    if i.code !in s.codes then Goto(s, me, Done(Refused(InvalidCode), {}))
    else
      var row := s.codes[i.code];
      if !PkceOk(row, i.verifier) then Goto(s, me, Done(Refused(InvalidVerifier), {}))
      else if !AudienceOk(row, i, s.registry) then Goto(s, me, Done(Refused(InvalidTarget), {}))
      else Goto(s, me, CodeIssue(i.code, row))
  }

  function StepCodeCheck(s: State, me: CallId, code: string): State {
    if code in s.codes && s.codes[code].used then
      var family := ByUserClient(s.codes[code].user, s.codes[code].client);
      Goto(s, me, Sweeping(family, family, Refused(InvalidCode)))
    else Goto(s, me, Done(Refused(InvalidCode), {}))
  }

  /** An empty resource is no resource. */
  function Named(resource: Option<Authority.Uri>): Option<Authority.Uri> {
    if resource.Some? && resource.value.text == "" then None else resource
  }

  function StepGrant(s: State, me: CallId, origin: Origin, user: string, client: string, scope: string,
                     resource: Option<Authority.Uri>, d: Draw): State
  {
    if !Fresh(s, d) then Goto(s, me, Done(Refused(DrawCollided), {}))
    else
      var b := Birth(origin, |s.chains|, 0, user, client, scope, Named(resource), s.now, Issue(d, scope));
      Goto(InsertRoot(s, d.id, b), me, Done(Pair(b.tokens), {}))
  }

  function DeleteExpiredCodes(codes: map<string, Code>, at: Time): map<string, Code> {
    map c | c in codes && !(codes[c].expiresAt < at) :: codes[c]
  }

  predicate IsRefresh(c: Call) {
    c.Finding? || c.Loaded? || c.Claiming? || c.Refinding?
  }

  predicate IsGrace(c: Call) {
    c.GraceBegin? || c.GraceErase? || c.ChildFind? || c.ChildTouch? || c.ChildCount?
  }

  predicate IsRevoke(c: Call) {
    c.Sweeping? || c.Erasing? || c.Disconnecting? || c.FindingOne? || c.RevokingOne? || c.ErasingOne?
  }

  predicate IsGrant(c: Call) {
    c.CodeClaim? || c.CodeRead? || c.CodeIssue? || c.CodeCheck? || c.Granting?
  }

  predicate IsClean(c: Call) {
    c.CleanBegin? || c.CleanCodes? || c.CleanTokens? || c.CleanKept? || c.Done?
  }

  function StepRefresh(s: State, me: CallId, c: Call, d: Draw): State
    requires IsRefresh(c)
  {
    match c
    case Finding(token, client, bound) => StepFinding(s, me, token, client, bound)
    case Loaded(snap, bound) => StepLoaded(s, me, snap, bound)
    case Claiming(snap, bounds, sealMs) => StepClaiming(s, me, snap, bounds, sealMs, d)
    case Refinding(id) => StepRefinding(s, me, id)
  }

  function StepGrace(s: State, me: CallId, c: Call): State
    requires IsGrace(c)
  {
    match c
    case GraceBegin(snap, why) => StepGraceBegin(s, me, snap, why)
    case GraceErase(snap, why, at) => StepGraceErase(s, me, snap, why, at)
    case ChildFind(snap, why, at, window) => StepChildFind(s, me, snap, why, at, window)
    case ChildTouch(snap, why, at, window, child) => StepChildTouch(s, me, snap, why, at, child)
    case ChildCount(snap, why, at, child) => StepChildCount(s, me, snap, why, child)
  }

  function StepRevoke(s: State, me: CallId, c: Call): State
    requires IsRevoke(c)
  {
    match c
    case Sweeping(revoke, erase, after) => StepSweeping(s, me, revoke, erase, after)
    case Erasing(revoke, erase, after, cut) => StepErasing(s, me, erase, after, cut)
    case Disconnecting(user, client) => StepDisconnecting(s, me, user, client)
    case FindingOne(find) => StepFindingOne(s, me, find)
    case RevokingOne(find, around) => StepRevokingOne(s, me, find, around)
    case ErasingOne(erase) => StepErasingOne(s, me, erase)
  }

  function StepGranting(s: State, me: CallId, c: Call, d: Draw): State
    requires IsGrant(c)
  {
    match c
    case CodeClaim(input) => StepCodeClaim(s, me, input)
    case CodeRead(input) => StepCodeRead(s, me, input)
    case CodeIssue(code, row) => StepGrant(s, me, FromCode(code), row.user, row.client, row.scope, row.resource, d)
    case CodeCheck(code) => StepCodeCheck(s, me, code)
    case Granting(user, client, scope, resource) => StepGrant(s, me, FromDevice, user, client, scope, resource, d)
  }

  function StepClean(s: State, me: CallId, c: Call): State
    requires IsClean(c)
  {
    match c
    case CleanBegin => Goto(s, me, CleanCodes(s.now))
    case CleanCodes(at) => Goto(s, me, CleanTokens(at)).(codes := DeleteExpiredCodes(s.codes, at))
    case CleanTokens(at) => Goto(s, me, CleanKept(at)).(rows := DeleteExpired(s.rows, at))
    case CleanKept(at) => Goto(s, me, Done(Acknowledged, {})).(rows := EraseExpired(s.rows, at))
    case Done(_, _) => s
  }

  function StepCall(s: State, me: CallId, c: Call, d: Draw): State {
    if IsRefresh(c) then StepRefresh(s, me, c, d)
    else if IsGrace(c) then StepGrace(s, me, c)
    else if IsRevoke(c) then StepRevoke(s, me, c)
    else if IsGrant(c) then StepGranting(s, me, c, d)
    else StepClean(s, me, c)
  }

  function Apply(s: State, a: Action): State {
    match a
    case Tick(ms) => s.(now := s.now + ms)
    case SetGrace(setting) => s.(windowMs := GraceWindowMs(setting))
    case MintCode(code, row) =>
      if code in s.minted then s
      else s.(codes := s.codes[code := row.(used := false, expiresAt := s.now + CODE_LIFE_MS)],
              minted := s.minted + {code})
    case DropClient(client) =>
      s.(rows := DeleteClient(s.rows, client),
         codes := map c | c in s.codes && s.codes[c].client != client :: s.codes[c])
    case DropUser(user) =>
      s.(rows := DeleteUser(s.rows, user), codes := map c | c in s.codes && s.codes[c].user != user :: s.codes[c])
    case Start(me, request) => if me in s.calls then s else Goto(s, me, First(request))
    case Step(me, draw) => if me in s.calls then StepCall(s, me, s.calls[me], draw) else s
  }

  function Run(s: State, actions: seq<Action>): State
    decreases |actions|
  {
    if actions == [] then s else Run(Apply(s, actions[0]), actions[1..])
  }

  /** Before any request: no rows, no codes, no calls. */
  function Initial(now: Time, key: Option<nat>, registry: seq<string>): State {
    State(now, GraceWindowMs(None), key, registry, map[], map[], {}, map[], [], map[], map[])
  }

  predicate IsLeast(ids: set<Id>, r: Id) {
    r in ids && forall i | i in ids :: r <= i
  }

  /** A fixed choice from a set of ids, for a query that returns one of several rows. */
  function Least(ids: set<Id>): (r: Id)
    requires ids != {}
    ensures IsLeast(ids, r)
  {
    LeastExists(ids);
    var r :| IsLeast(ids, r);
    r
  }

  lemma {:induction false} LeastExists(ids: set<Id>)
    requires ids != {}
    ensures exists r :: IsLeast(ids, r)
  {
    var x :| x in ids;
    var rest := ids - {x};
    if rest == {} {
      assert ids == {x};
      assert IsLeast(ids, x);
    } else {
      LeastExists(rest);
      var m :| IsLeast(rest, m);
      LeastOfTwo(ids, x, m);
    }
  }

  lemma LeastOfTwo(ids: set<Id>, x: Id, m: Id)
    requires x in ids && IsLeast(ids - {x}, m)
    ensures IsLeast(ids, if x < m then x else m)
  {
    forall i | i in ids ensures (if x < m then x else m) <= i {
      if i != x { assert i in ids - {x}; }
    }
  }
}
