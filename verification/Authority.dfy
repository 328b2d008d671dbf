/**
 * What a token may carry: the scope rule of the user grants, the resource rule
 * of RFC 8707 and the narrowing of RFC 8693 token exchange
 * (src/oauth/oauth-scopes.registry.ts, resource-registry.ts, refresh-bounds.ts
 * and oauth-m2m.service.ts).
 */
module Authority {
  import opened Wrappers
  import opened Text

  // ---------- scopes ----------

  const STANDARD_SCOPES := ["openid", "profile", "email", "offline_access"]
  const DCR_VERTICAL_SCOPES := [
    "brain:read", "brain:write",
    "mikefluff:purchase", "mikefluff:booking",
    "wallet:pay", "billing:account",
    "fund:read", "fund:write"
  ]
  const DEFAULT_SCOPE := "openid profile email"

  /** A resource text together with what `new URL` makes of it (nothing if it throws). */
  datatype Uri = Uri(text: string, url: Option<Url>)

  datatype Url = Url(protocol: string, hostname: string, port: string, username: string,
                     password: string, hash: string, origin: string, pathname: string)

  /** The columns of a client row the two rules read. */
  datatype Client = Client(clientId: string, allowedScopes: seq<string>, isPublic: bool,
                           allowedAudiences: seq<string>, redirectUris: seq<Uri>)

  predicate IsDynamic(clientId: string) {
    StartsWith(clientId, "dcr_")
  }

  /** `[...new Set(xs)]`: the first occurrence of each. */
  function Dedup(xs: seq<string>): (r: seq<string>)
    ensures forall x :: x in r <==> x in xs
    ensures forall i, j | 0 <= i < j < |r| :: r[i] != r[j]
  {
    if xs == [] then []
    else
      var r := Dedup(xs[..|xs| - 1]);
      assert xs == xs[..|xs| - 1] + [xs[|xs| - 1]];
      if xs[|xs| - 1] in r then r else r + [xs[|xs| - 1]]
  }

  function Keep(xs: seq<string>, allowed: set<string>): (r: seq<string>)
    ensures forall x :: x in r <==> x in xs && x in allowed
    ensures (forall x | x in xs :: x in allowed) ==> r == xs
    ensures |r| <= |xs|
    ensures |r| == |xs| ==> r == xs
  {
    if xs == [] then []
    else if xs[0] in allowed then [xs[0]] + Keep(xs[1..], allowed)
    else Keep(xs[1..], allowed)
  }

  function SetOf(xs: seq<string>): set<string> {
    set x | x in xs
  }

  /** Who asks: a client row, a client id without one, or nobody known. */
  datatype Asker = Registered(client: Client) | Bare(clientId: string) | Nobody

  function AllowedSet(who: Asker): set<string> {
    match who
    case Registered(c) =>
      if IsDynamic(c.clientId) then SetOf(STANDARD_SCOPES + DCR_VERTICAL_SCOPES)
      else SetOf(STANDARD_SCOPES) + SetOf(c.allowedScopes) +
           (if c.isPublic then SetOf(DCR_VERTICAL_SCOPES) else {})
    case Bare(id) =>
      if IsDynamic(id) then SetOf(STANDARD_SCOPES + DCR_VERTICAL_SCOPES) else SetOf(STANDARD_SCOPES)
    case Nobody => SetOf(STANDARD_SCOPES)
  }

  function PermittedScopes(who: Asker, requested: string): (r: seq<string>)
    ensures forall x :: x in r <==> x in Words(requested) && x in AllowedSet(who)
    ensures forall x | x in r :: IsWord(x)
  {
    Keep(Dedup(Words(requested)), AllowedSet(who))
  }

  function GrantableScope(who: Asker, requested: string): string {
    var scopes := PermittedScopes(who, requested);
    if |scopes| > 0 then Join(scopes, " ") else DEFAULT_SCOPE
  }

  /** The scopes a stored or issued scope text stands for. */
  function ScopeSet(scope: string): set<string> {
    SetOf(Words(scope))
  }

  /** Storing a permitted list and reading it back gives exactly the permitted scopes. */
  lemma PermittedScopeSet(who: Asker, requested: string)
    ensures ScopeSet(Join(PermittedScopes(who, requested), " ")) == ScopeSet(requested) * AllowedSet(who)
  {
    WordsOfJoin(PermittedScopes(who, requested));
  }

  /**
   * The same rule applied again grants the same scopes: narrowing by one
   * client row is idempotent, so a refresh against an unchanged row never
   * loses a scope the previous refresh kept.
   */
  lemma PermittedTwice(who: Asker, requested: string)
    ensures ScopeSet(Join(PermittedScopes(who, Join(PermittedScopes(who, requested), " ")), " "))
         == ScopeSet(Join(PermittedScopes(who, requested), " "))
  {
    PermittedScopeSet(who, requested);
    PermittedScopeSet(who, Join(PermittedScopes(who, requested), " "));
  }

  /** The tail of the brain scopes an open registration may not hold. */
  predicate Sensitive(scope: string) {
    scope == "brain:admin" || scope == "brain:read_pii" || scope == "registry:publish" || scope == "indexer:write"
  }

  /** A self-registered client is granted nothing outside the open set, so never a sensitive scope. */
  lemma DynamicClientsStayInTheOpenSet(who: Asker, requested: string, x: string)
    requires (who.Registered? && IsDynamic(who.client.clientId)) || (who.Bare? && IsDynamic(who.clientId))
    requires x in ScopeSet(GrantableScope(who, requested))
    ensures x in OpenScopes() && !Sensitive(x)
  {
    GrantedIsOpen(who, requested, x);
    OpenIsNotSensitive(x);
  }

  lemma OpenIsNotSensitive(x: string)
    requires x in OpenScopes()
    ensures !Sensitive(x)
  {
    var i :| 0 <= i < |STANDARD_SCOPES + DCR_VERTICAL_SCOPES| && (STANDARD_SCOPES + DCR_VERTICAL_SCOPES)[i] == x;
    OpenScopeAt(i);
  }

  function OpenScopes(): set<string> {
    SetOf(STANDARD_SCOPES + DCR_VERTICAL_SCOPES)
  }

  lemma GrantedIsOpen(who: Asker, requested: string, x: string)
    requires (who.Registered? && IsDynamic(who.client.clientId)) || (who.Bare? && IsDynamic(who.clientId))
    requires x in ScopeSet(GrantableScope(who, requested))
    ensures x in OpenScopes()
  {
    hide ScopeSet, PermittedScopes, SetOf;
    if |PermittedScopes(who, requested)| > 0 {
      PermittedScopeSet(who, requested);
    } else {
      DefaultIsOpen(x);
    }
  }

  lemma DefaultIsOpen(x: string)
    requires x in ScopeSet(DEFAULT_SCOPE)
    ensures x in OpenScopes()
  {
    hide Words;
    DefaultScopeWords();
    assert x in ["openid", "profile", "email"];
    FirstScopes();
  }

  lemma FirstScopes()
    ensures forall x | x in ["openid", "profile", "email"] :: x in STANDARD_SCOPES
  {
    assert STANDARD_SCOPES[0] == "openid" && STANDARD_SCOPES[1] == "profile" && STANDARD_SCOPES[2] == "email";
  }

  lemma OpenScopeAt(i: nat)
    requires i < |STANDARD_SCOPES + DCR_VERTICAL_SCOPES|
    ensures !Sensitive((STANDARD_SCOPES + DCR_VERTICAL_SCOPES)[i])
  {
    var s := (STANDARD_SCOPES + DCR_VERTICAL_SCOPES)[i];
    if |s| == |"brain:admin"| {
      assert s == "brain:write";
      assert s[6] != "brain:admin"[6];
    }
    if |s| == |"brain:read_pii"| {
      assert s == "offline_access";
      assert s[0] != "brain:read_pii"[0];
    }
  }

  lemma DefaultScopeWords()
    ensures Words(DEFAULT_SCOPE) == ["openid", "profile", "email"]
  {
    var ws := ["openid", "profile", "email"];
    assert Join(ws[2..], " ") == "email";
    assert ws[1..][1..] == ws[2..];
    assert Join(ws[1..], " ") == "profile" + " " + "email";
    assert Join(ws, " ") == "openid" + " " + ("profile" + " " + "email") == DEFAULT_SCOPE;
    WordsOfJoin(ws);
  }

  // ---------- resources ----------

  const FAMILY_DOMAINS := [
    "inite.ai", "inite.services", "inite.rent", "inite.estate", "inite.digital", "inite.club",
    "inite.solutions", "inite.fund", "inite.studio", "inite.shop", "inite.food", "inite.travel",
    "inite.events", "inite.health", "inite.training", "inite.education", "inite.sport", "mikefluff.com"
  ]

  predicate OnFamilyHost(hostname: string) {
    exists d | d in FAMILY_DOMAINS :: Lower(hostname) == d || EndsWith(Lower(hostname), "." + d)
  }

  function TrimSlash(s: string): string {
    if EndsWith(s, "/") then s[..|s| - 1] else s
  }

  predicate Plain(r: Uri) {
    r.url.Some? && r.url.value.hash == "" && '#' !in r.text
    && r.url.value.username == "" && r.url.value.password == ""
  }

  /** `registry` holds the entries of OAUTH_RESOURCE_REGISTRY. */
  predicate IsRegisteredResource(r: Uri, registry: seq<string>) {
    match r.url
    case None => false
    case Some(u) =>
      if u.hash != "" || '#' in r.text then false
      else if u.username != "" || u.password != "" then false
      else if TrimSlash(r.text) in registry || u.origin in registry then true
      else if u.protocol != "https:" then false
      else if u.port != "" then false
      else OnFamilyHost(u.hostname)
  }

  predicate NeedsRegisteredResource(c: Client) {
    if |c.allowedAudiences| > 0 then false else IsDynamic(c.clientId) || c.isPublic
  }

  predicate IsOwnResource(c: Client, r: Uri) {
    if r.text == c.clientId then true
    else match r.url
      case None => false
      case Some(u) =>
        if u.protocol != "https:" || u.hash != "" || '#' in r.text then false
        else if u.username != "" || u.password != "" then false
        else exists own | own in c.redirectUris ::
               own.url.Some? && own.url.value.protocol == "https:" && own.url.value.origin == u.origin
  }

  predicate IsResourceAllowed(c: Client, resource: Option<Uri>, registry: seq<string>) {
    match resource
    case None => true
    case Some(r) =>
      if r.text == "" then true
      else if |c.allowedAudiences| > 0 then r.text in c.allowedAudiences
      else if NeedsRegisteredResource(c) then IsRegisteredResource(r, registry)
      else IsOwnResource(c, r)
  }

  /**
   * A client without a list of its own never reaches a bare identifier other
   * than its own id: what it may name is an absolute URL without fragment or
   * userinfo, and outside the registry only an https URL on a family host
   * (self-registered, public) or on one of its own redirect origins.
   */
  lemma UnlistedClientsReachOnlyTheirOwn(c: Client, r: Uri, registry: seq<string>)
    requires c.allowedAudiences == [] && r.text != "" && r.text != c.clientId
    requires IsResourceAllowed(c, Some(r), registry)
    ensures Plain(r)
    ensures r.url.value.protocol == "https:" || TrimSlash(r.text) in registry || r.url.value.origin in registry
    ensures !IsDynamic(c.clientId) && !c.isPublic ==>
              exists own | own in c.redirectUris :: own.url.Some? && own.url.value.origin == r.url.value.origin
    ensures IsDynamic(c.clientId) || c.isPublic ==>
              || TrimSlash(r.text) in registry || r.url.value.origin in registry
              || (r.url.value.protocol == "https:" && r.url.value.port == "" && OnFamilyHost(r.url.value.hostname))
  {
    if !NeedsRegisteredResource(c) {
      var own :| own in c.redirectUris && own.url.Some? && own.url.value.protocol == "https:"
                 && own.url.value.origin == r.url.value.origin;
    }
  }

  // ---------- the refresh bounds ----------

  datatype Bounds = Bounds(scope: string, resource: Option<Uri>)

  /** `refreshBounds`: None is the refusal of a resource the client may no longer target. */
  function RefreshBounds(client: Option<Client>, scope: string, resource: Option<Uri>, registry: seq<string>)
    : (r: Option<Bounds>)
  {
    match client
    case None => Some(Bounds(scope, resource))
    case Some(c) =>
      if !IsResourceAllowed(c, resource, registry) then None
      else Some(Bounds(Join(PermittedScopes(Registered(c), scope), " "), resource))
  }

  /**
   * One refresh: refused exactly when the supplied client row may not target
   * the bound resource; otherwise the resource is unchanged and the scopes are
   * the old ones the row still permits.
   */
  lemma RefreshNarrows(client: Option<Client>, scope: string, resource: Option<Uri>, registry: seq<string>)
    ensures var r := RefreshBounds(client, scope, resource, registry);
            && (r.None? <==> client.Some? && !IsResourceAllowed(client.value, resource, registry))
            && (r.Some? ==>
                  && r.value.resource == resource
                  && ScopeSet(r.value.scope) <= ScopeSet(scope)
                  && ScopeSet(r.value.scope) ==
                     if client.Some? then ScopeSet(scope) * AllowedSet(Registered(client.value)) else ScopeSet(scope))
  {
    if client.Some? {
      PermittedScopeSet(Registered(client.value), scope);
    }
  }

  // ---------- token exchange ----------

  /** The scope claims of a verified token; user tokens carry only `scope`. */
  datatype Claims = Claims(scopes: Option<seq<string>>, scope: Option<string>)

  function ClaimScopes(c: Claims): seq<string> {
    match c.scopes
    case Some(list) => list
    case None => if c.scope.Some? then Words(c.scope.value) else []
  }

  datatype ScopeError = NoneAvailable | Exceeds(denied: seq<string>)

  function ResolveExchangeScopes(requested: string, subject: seq<string>, allowed: seq<string>)
    : (r: Result<seq<string>, ScopeError>)
  {
    var ceiling := if |allowed| > 0 then Keep(subject, SetOf(allowed)) else subject;
    var req := Words(requested);
    if |req| == 0 then
      if |ceiling| == 0 then Err(NoneAvailable) else Ok(ceiling)
    else
      var denied := Keep(req, SetOf(req) - SetOf(ceiling));
      if |denied| > 0 then Err(Exceeds(denied)) else Ok(req)
  }

  /**
   * Exactly when an exchange is granted, and exactly what it grants: a
   * request is met in full or refused, and an absent one gets all the client
   * and the subject share.
   */
  lemma ExchangeGrantsExactly(requested: string, subject: seq<string>, allowed: seq<string>)
    ensures var r := ResolveExchangeScopes(requested, subject, allowed);
            var shared := if |allowed| > 0 then SetOf(subject) * SetOf(allowed) else SetOf(subject);
            && (r.Ok? <==> if ScopeSet(requested) == {} then shared != {} else ScopeSet(requested) <= shared)
            && (r.Ok? ==> SetOf(r.value) == if ScopeSet(requested) == {} then shared else ScopeSet(requested))
            && (r.Ok? ==> r.value != [] && SetOf(r.value) <= SetOf(subject))
  {
    var ceiling := if |allowed| > 0 then Keep(subject, SetOf(allowed)) else subject;
    var shared := if |allowed| > 0 then SetOf(subject) * SetOf(allowed) else SetOf(subject);
    assert SetOf(ceiling) == shared;
    var req := Words(requested);
    if |req| == 0 {
      assert SetOf(req) == {};
      if |ceiling| > 0 { assert ceiling[0] in shared; } else { assert shared == {}; }
    } else {
      assert req[0] in SetOf(req);
      var denied := Keep(req, SetOf(req) - SetOf(ceiling));
      if |denied| > 0 { assert denied[0] in denied; } else {
        forall x | x in SetOf(req) ensures x in shared { assert x !in denied; }
      }
    }
  }

  function ResolveClientCredentials(requested: string, allowed: seq<string>): (r: Result<seq<string>, ScopeError>) {
    var req := Words(requested);
    var granted := if |req| == 0 then allowed else Keep(req, SetOf(allowed));
    if |req| > 0 && |granted| != |req| then Err(Exceeds(Keep(req, SetOf(req) - SetOf(allowed))))
    else if |granted| == 0 then Err(NoneAvailable)
    else Ok(granted)
  }

  lemma ClientCredentialsGrantsExactly(requested: string, allowed: seq<string>)
    ensures var r := ResolveClientCredentials(requested, allowed);
            && (r.Ok? <==> if ScopeSet(requested) == {} then allowed != [] else ScopeSet(requested) <= SetOf(allowed))
            && (r.Ok? ==> r.value == if ScopeSet(requested) == {} then allowed else Words(requested))
            && (r.Ok? ==> SetOf(r.value) <= SetOf(allowed))
  {
    var req := Words(requested);
    if |req| > 0 {
      assert req[0] in SetOf(req);
      var granted := Keep(req, SetOf(allowed));
      if SetOf(req) <= SetOf(allowed) {
        forall x | x in req ensures x in SetOf(allowed) { assert x in SetOf(req); }
      } else {
        var x :| x in SetOf(req) && x !in SetOf(allowed);
        assert x in req && x !in granted;
      }
    }
  }

  // ---------- chains of any length ----------

  /** A token somebody holds: a user grant (it can be refreshed) or an exchanged one. */
  datatype Held = User(scope: string, resource: Option<Uri>) | Exchanged(claims: Claims)

  datatype Hop =
    | Refresh(row: Option<Client>, registry: seq<string>)
    | Exchange(requested: string, allowed: seq<string>)

  function ScopesHeld(t: Held): set<string> {
    match t
    case User(scope, _) => ScopeSet(scope)
    case Exchanged(claims) => SetOf(ClaimScopes(claims))
  }

  function ClaimsOf(t: Held): Claims {
    match t
    case User(scope, _) => Claims(None, Some(scope))
    case Exchanged(claims) => claims
  }

  /** One hop; None when the service refuses it. */
  function Follow(t: Held, h: Hop): Option<Held> {
    match h
    case Refresh(row, registry) =>
      if t.Exchanged? then None
      else
        var b := RefreshBounds(row, t.scope, t.resource, registry);
        if b.None? then None else Some(User(b.value.scope, b.value.resource))
    case Exchange(requested, allowed) =>
      var r := ResolveExchangeScopes(requested, ClaimScopes(ClaimsOf(t)), allowed);
      if r.Err? then None else Some(Exchanged(Claims(Some(r.value), Some(Join(r.value, " ")))))
  }

  /** The tokens of a chain of hops from `t`, as far as the service grants them. */
  function Chain(t: Held, hops: seq<Hop>): (ts: seq<Held>)
    ensures 1 <= |ts| <= |hops| + 1 && ts[0] == t
    decreases |hops|
  {
    if hops == [] then [t]
    else match Follow(t, hops[0])
      case None => [t]
      case Some(next) => [t] + Chain(next, hops[1..])
  }

  lemma FollowNarrows(t: Held, h: Hop)
    requires Follow(t, h).Some?
    ensures ScopesHeld(Follow(t, h).value) <= ScopesHeld(t)
    ensures h.Exchange? && |h.allowed| > 0 ==> ScopesHeld(Follow(t, h).value) <= SetOf(h.allowed)
    ensures t.User? && Follow(t, h).value.User? ==>
              && Follow(t, h).value.resource == t.resource
              && (h.row.Some? ==> IsResourceAllowed(h.row.value, t.resource, h.registry))
  {
    match h
    case Refresh(row, registry) => RefreshNarrows(row, t.scope, t.resource, registry);
    case Exchange(requested, allowed) => ExchangeGrantsExactly(requested, ClaimScopes(ClaimsOf(t)), allowed);
  }

  /**
   * Authority only narrows: over any chain of refreshes and exchanges, a later
   * token holds no scope an earlier one did not, the bound resource never
   * changes while the grant is refreshed, and every refresh that had the client
   * row was of a resource that row may target.
   */
  lemma {:induction false} AuthorityOnlyNarrows(t: Held, hops: seq<Hop>, i: nat, j: nat)
    requires i <= j < |Chain(t, hops)|
    ensures ScopesHeld(Chain(t, hops)[j]) <= ScopesHeld(Chain(t, hops)[i])
    ensures Chain(t, hops)[j].User? ==>
              && Chain(t, hops)[i].User?
              && Chain(t, hops)[j].resource == Chain(t, hops)[i].resource
              && (forall k | i <= k < j ::
                    && hops[k].Refresh?
                    && (hops[k].row.Some? ==>
                          IsResourceAllowed(hops[k].row.value, Chain(t, hops)[i].resource, hops[k].registry)))
    decreases |hops|
  {
    hide Follow, ScopesHeld, IsResourceAllowed;
    if j > 0 {
      ChainGoesOn(t, hops);
      var next := Follow(t, hops[0]).value;
      FollowNarrows(t, hops[0]);
      FollowedByRefresh(t, hops[0]);
      hide Chain;
      if i > 0 {
        AuthorityOnlyNarrows(next, hops[1..], i - 1, j - 1);
        assert forall k | i <= k < j :: hops[k] == hops[1..][k - 1];
      } else {
        AuthorityOnlyNarrows(next, hops[1..], 0, j - 1);
        assert forall k | 1 <= k < j :: hops[k] == hops[1..][k - 1];
      }
    }
  }

  /** A refresh token's chain goes on as one only by a refresh of it. */
  lemma FollowedByRefresh(t: Held, h: Hop)
    requires Follow(t, h).Some?
    ensures Follow(t, h).value.User? ==> t.User? && h.Refresh?
  {
    hide RefreshBounds, ResolveExchangeScopes;
  }

  lemma ChainGoesOn(t: Held, hops: seq<Hop>)
    requires |Chain(t, hops)| > 1
    ensures hops != [] && Follow(t, hops[0]).Some?
    ensures Chain(t, hops) == [t] + Chain(Follow(t, hops[0]).value, hops[1..])
  {
  }
}
