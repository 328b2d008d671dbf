/**
 * The refresh-token table and the statements that change it
 * (src/oauth/refresh-grace.ts, the updateMany calls of the revoke paths and the
 * hourly cleanup). Every function here is one atomic statement.
 */
module TokenStore {
  import opened Wrappers
  import Authority

  type Id = nat
  type Time = int

  const GRACE_MAX_SECONDS := 60
  const DEFAULT_GRACE_SECONDS := 30
  const REFRESH_LIFE_MS := 7 * 24 * 60 * 60 * 1000

  /** The lookup column: HMAC-SHA256 under the server's secret, taken as an injection. */
  datatype Lookup = Hmac(token: string)

  datatype Tokens = Tokens(accessToken: string, refreshToken: string, idToken: string, expiresIn: int, scope: string)

  /** The pair a rotation returned, bound to the rotated row. */
  datatype SealedPair = SealedPair(tokens: Tokens, parentId: Id, issuedAt: Time)

  /** A FieldCrypto value: an authenticated envelope under a key, or any other text. */
  datatype Envelope = V1(key: nat, plain: SealedPair) | Foreign(text: string)

  datatype Row = Row(
    lookup: Lookup, user: string, client: string, scope: string, resource: Option<Authority.Uri>,
    expiresAt: Time, rotatedFrom: Option<Id>, graceReplay: Option<Envelope>, graceReplayUntil: Option<Time>,
    revoked: bool, revokedAt: Option<Time>, lastUsedAt: Time)

  type Rows = map<Id, Row>

  // ---------- the grace rule ----------

  /** `graceWindowMs`: the setting in seconds (None when it is not a duration), capped. */
  function GraceWindowMs(setting: Option<nat>): nat {
    var seconds := if setting.Some? then setting.value else DEFAULT_GRACE_SECONDS;
    (if seconds < GRACE_MAX_SECONDS then seconds else GRACE_MAX_SECONDS) * 1000
  }

  predicate WithinGrace(row: Row, windowMs: int, now: Time) {
    windowMs > 0 && row.revokedAt.Some? && row.expiresAt > now && now - row.revokedAt.value <= windowMs
  }

  /** `sealReplay`: the two columns a rotation writes on the rotated row; none without a key. */
  function Sealed(row: Row, key: Option<nat>, windowMs: int, id: Id, issued: Tokens, now: Time): Row {
    if key.None? || windowMs <= 0 then row
    else row.(graceReplay := Some(V1(key.value, SealedPair(issued, id, now))),
              graceReplayUntil := Some(now + windowMs))
  }

  /** `FieldCrypto.decrypt`: opens only under the key that sealed it. */
  function Decrypt(key: nat, e: Envelope): Option<SealedPair> {
    if e.V1? && e.key == key then Some(e.plain) else None
  }

  function Max(a: int, b: int): int {
    if a >= b then a else b
  }

  /** `openReplay` */
  function OpenReplay(key: Option<nat>, id: Id, row: Row, now: Time): Option<Tokens> {
    if key.None? || row.graceReplay.None? || row.graceReplayUntil.None? || row.graceReplayUntil.value <= now then None
    else
      match Decrypt(key.value, row.graceReplay.value)
      case None => None
      case Some(pair) =>
        if pair.parentId != id then None
        else
          var elapsed := (now - pair.issuedAt) / 1000;
          Some(pair.tokens.(expiresIn := Max(0, pair.tokens.expiresIn - elapsed)))
  }

  // ---------- updateMany ----------

  datatype Where =
    | ByUserClient(user: string, client: string)
    | ByUser(user: string)
    | ByUserExcept(user: string, kept: Id)
    | ByLookup(lookup: Lookup, client: string)
    | BySession(id: Id, user: string)
    | ByIds(ids: set<Id>, onlyUser: Option<string>, onlyClient: Option<string>)

  /** Does a `where` select the row? It reads only columns that never change. */
  predicate Selects(w: Where, id: Id, user: string, client: string, lookup: Lookup) {
    match w
    case ByUserClient(u, c) => user == u && client == c
    case ByUser(u) => user == u
    case ByUserExcept(u, k) => user == u && id != k
    case ByLookup(l, c) => lookup == l && client == c
    case BySession(i, u) => id == i && user == u
    case ByIds(ids, u, c) => id in ids && (u.Some? ==> user == u.value) && (c.Some? ==> client == c.value)
  }

  predicate Matches(w: Where, id: Id, row: Row) {
    Selects(w, id, row.user, row.client, row.lookup)
  }

  function Matching(rows: Rows, w: Where): set<Id> {
    set id | id in rows && Matches(w, id, rows[id])
  }

  /** `data: { revoked: true, revokedAt }`, over the live rows only or over all selected. */
  function RevokeWhere(rows: Rows, w: Where, onlyLive: bool, at: Time): Rows {
    map id | id in rows ::
      if Matches(w, id, rows[id]) && (onlyLive ==> !rows[id].revoked)
      then rows[id].(revoked := true, revokedAt := Some(at))
      else rows[id]
  }

  function Erased(row: Row): Row {
    row.(graceReplay := None, graceReplayUntil := None)
  }

  /** `where: keptPairsIn(w), data: ERASED_REPLAY` */
  function EraseWhere(rows: Rows, w: Where): Rows {
    map id | id in rows ::
      if Matches(w, id, rows[id]) && rows[id].graceReplay.Some? then Erased(rows[id]) else rows[id]
  }

  /** `eraseExpiredReplays` */
  function EraseExpired(rows: Rows, now: Time): Rows {
    map id | id in rows ::
      if rows[id].graceReplayUntil.Some? && rows[id].graceReplayUntil.value < now then Erased(rows[id]) else rows[id]
  }

  function DeleteExpired(rows: Rows, now: Time): Rows {
    map id | id in rows && !(rows[id].expiresAt < now) :: rows[id]
  }

  /** The deletion of a user or a client takes its rows with it. */
  function DeleteUser(rows: Rows, user: string): Rows {
    map id | id in rows && rows[id].user != user :: rows[id]
  }

  function DeleteClient(rows: Rows, client: string): Rows {
    map id | id in rows && rows[id].client != client :: rows[id]
  }

  /** Is the child live, in the conditional update of `childState`? */
  predicate LiveAt(rows: Rows, id: Id, at: Time) {
    id in rows && !rows[id].revoked && rows[id].expiresAt > at
  }

  function TouchLive(rows: Rows, id: Id, at: Time): Rows {
    if LiveAt(rows, id, at) then rows[id := rows[id].(lastUsedAt := at)] else rows
  }

  /** The rows `findFirst`/`count` see as rotation children of `id` in a family. */
  function ChildrenOf(rows: Rows, id: Id, user: string, client: string): set<Id> {
    set c | c in rows && rows[c].user == user && rows[c].client == client && rows[c].rotatedFrom == Some(id)
  }

  function WithLookup(rows: Rows, lookup: Lookup): set<Id> {
    set id | id in rows && rows[id].lookup == lookup
  }
}
