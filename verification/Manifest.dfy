/** What a client manifest means, and the rules it must meet (src/clients/manifest.ts). */
module Manifest {
  import opened Wrappers
  import opened Text
  import opened ClientPlan
  import opened Authority

  const CALLBACK_PATH := "/callback"
  const BACKCHANNEL_LOGOUT_PATH := "/api/auth/backchannel-logout"
  const DEFAULT_GRANTS := ["authorization_code", "refresh_token"]
  const MACHINE_GRANTS := ["client_credentials"]
  const CONFIDENTIAL_ONLY_GRANTS := ["client_credentials", "urn:ietf:params:oauth:grant-type:token-exchange"]

  datatype Kind = Product | Machine | OtherKind(text: string)

  datatype Secret = Secret(name: string, environment: Option<string>)

  /** The back-channel override: not there, or there with a URI or null. */
  datatype BackchannelOverride = NotSet | SetTo(uri: Option<Uri>)

  datatype Overrides = Overrides(reason: string, isPublic: Option<bool>, callbackPath: Option<string>,
                                 extraRedirectUris: seq<Uri>, backchannel: BackchannelOverride,
                                 grants: Option<seq<string>>, scopes: Option<seq<string>>)

  datatype ClientManifest = ClientManifest(
    clientId: string, name: string, repo: Option<string>, kind: Kind, origins: Option<seq<Uri>>,
    scopes: Option<seq<string>>, audiences: Option<seq<Uri>>, companyId: Option<string>, secret: Option<Secret>,
    outsideFamily: Option<string>, active: Option<bool>, customerLane: Option<bool>, overrides: Option<Overrides>)

  function OrEmpty<T>(xs: Option<seq<T>>): seq<T> {
    if xs.Some? then xs.value else []
  }

  function TextsOf(uris: seq<Uri>): (r: seq<string>)
    ensures |r| == |uris| && forall i | 0 <= i < |uris| :: r[i] == uris[i].text
  {
    seq(|uris|, i requires 0 <= i < |uris| => uris[i].text)
  }

  function Suffixed(xs: seq<string>, suffix: string): (r: seq<string>)
    ensures |r| == |xs| && forall i | 0 <= i < |xs| :: r[i] == xs[i] + suffix
  {
    seq(|xs|, i requires 0 <= i < |xs| => xs[i] + suffix)
  }

  predicate AllUrls(uris: seq<Uri>) {
    forall u | u in uris :: u.url.Some?
  }

  function OriginsOf(uris: seq<Uri>): (r: seq<string>)
    requires AllUrls(uris)
    ensures |r| == |uris| && forall i | 0 <= i < |uris| :: r[i] == uris[i].url.value.origin
  {
    seq(|uris|, i requires 0 <= i < |uris| => uris[i].url.value.origin)
  }

  // ---------- the row a manifest means ----------

  function DeriveMachine(m: ClientManifest): ClientRow {
    ClientRow(m.clientId, m.name, [], Dedup(OrEmpty(m.scopes)), MACHINE_GRANTS, Dedup(TextsOf(OrEmpty(m.audiences))),
              None, true, false, "client_secret_post", m.companyId, m.active == None || m.active.value, false)
  }

  predicate IsPublicClient(m: ClientManifest) {
    m.overrides.Some? && m.overrides.value.isPublic == Some(true)
  }

  function BackchannelOf(m: ClientManifest, origins: seq<string>): Option<string> {
    if m.overrides.Some? && m.overrides.value.backchannel.SetTo? then
      (if m.overrides.value.backchannel.uri.Some? then Some(m.overrides.value.backchannel.uri.value.text) else None)
    else if origins == [] then Some("undefined" + BACKCHANNEL_LOGOUT_PATH)
    else Some(origins[0] + BACKCHANNEL_LOGOUT_PATH)
  }

  function CallbackOf(m: ClientManifest): string {
    if m.overrides.Some? && m.overrides.value.callbackPath.Some? then m.overrides.value.callbackPath.value
    else CALLBACK_PATH
  }

  function ExtraRedirects(m: ClientManifest): seq<Uri> {
    if m.overrides.Some? then m.overrides.value.extraRedirectUris else []
  }

  function RedirectUrisOf(m: ClientManifest, origins: seq<string>): seq<string> {
    Dedup(Suffixed(origins, CallbackOf(m)) + TextsOf(ExtraRedirects(m)))
  }

  function ScopesOf(m: ClientManifest): seq<string> {
    Dedup(if m.overrides.Some? && m.overrides.value.scopes.Some? then m.overrides.value.scopes.value
          else STANDARD_SCOPES + OrEmpty(m.scopes))
  }

  function GrantsOf(m: ClientManifest): seq<string> {
    Dedup(if m.overrides.Some? && m.overrides.value.grants.Some? then m.overrides.value.grants.value
          else DEFAULT_GRANTS)
  }

  /** `deriveClient`; None when it throws on an origin that is not a URL. */
  function Derive(m: ClientManifest): Option<ClientRow> {
    if m.kind.Machine? then Some(DeriveMachine(m))
    else if !AllUrls(OrEmpty(m.origins)) then None
    else
      var origins := OriginsOf(OrEmpty(m.origins));
      var pub := IsPublicClient(m);
      Some(ClientRow(m.clientId, m.name, RedirectUrisOf(m, origins), ScopesOf(m), GrantsOf(m),
                     Dedup(TextsOf(OrEmpty(m.audiences))), BackchannelOf(m, origins), true, pub,
                     if pub then "none" else "client_secret_post",
                     m.companyId, m.active == None || m.active.value, m.customerLane == Some(true)))
  }

  /** `takesSecret` */
  predicate TakesSecret(r: ClientRow) {
    !r.isPublic && r.tokenEndpointAuthMethod != "none"
  }

  // ---------- the validators ----------

  datatype Problem =
    | BadId | BadFileName | SelfRegistered | SystemClient | NoName | BadRepo | SecretWithoutRepo | BadSecretName
    | BadKind | NotAUrl(uri: string) | NotHttps(uri: string) | HasCredentials(uri: string) | OffFamily(uri: string)
    | NotOnMachine(key: string) | MachineWithoutScopes | MachineWithOidcScopes | MachineWithoutAudiences
    | NoOrigins | OriginHasPath(uri: string) | PublicIsTrueOrAbsent | PublicWithSecret | PublicCannotHold(grant: string)
    | PublicWithBackchannel | NoReason | BadCallbackPath | BothScopes | NoOpenid | OfflineWithoutRefresh
    | BadScope(scope: string)

  function If(condition: bool, p: Problem): (r: seq<Problem>)
    ensures r == [] <==> !condition
  {
    if condition then [p] else []
  }

  predicate LowerOrDigit(c: char) {
    'a' <= c <= 'z' || '0' <= c <= '9'
  }

  predicate IdOk(id: string) {
    2 <= |id| <= 63 && LowerOrDigit(id[0]) && forall c | c in id[1..] :: LowerOrDigit(c) || c == '-'
  }

  const REPO_OWNER := "inite-ai/"

  predicate RepoOk(repo: string) {
    StartsWith(repo, REPO_OWNER) && |repo| > |REPO_OWNER|
    && forall c | c in repo[|REPO_OWNER|..] ::
         LowerOrDigit(c) || 'A' <= c <= 'Z' || c == '.' || c == '_' || c == '-'
  }

  predicate SecretNameOk(name: string) {
    && 3 <= |name| <= 64 && 'A' <= name[0] <= 'Z'
    && forall c | c in name[1..] :: 'A' <= c <= 'Z' || '0' <= c <= '9' || c == '_'
  }

  predicate ScopePartOk(s: string) {
    s != "" && 'a' <= s[0] <= 'z' && forall c | c in s :: LowerOrDigit(c) || c == '_'
  }

  predicate ScopeOk(s: string) {
    || ScopePartOk(s)
    || exists i | 0 <= i < |s| :: s[i] == ':' && ScopePartOk(s[..i]) && ScopePartOk(s[i + 1..])
  }

  function IdentityProblems(m: ClientManifest, file: string): seq<Problem> {
    If(!IdOk(m.clientId), BadId)
    + If(file != m.clientId + ".json", BadFileName)
    + If(IsDynamic(m.clientId), SelfRegistered)
    + If(m.clientId in SYSTEM_CLIENT_IDS, SystemClient)
    + If(m.name == "", NoName)
    + If(m.repo.Some? && !RepoOk(m.repo.value), BadRepo)
    + If(m.secret.Some? && (m.repo.None? || m.repo.value == ""), SecretWithoutRepo)
    + If(m.secret.Some? && !SecretNameOk(m.secret.value.name), BadSecretName)
  }

  predicate OnFamily(hostname: string, family: seq<string>) {
    exists d | d in family :: hostname == d || EndsWith(hostname, "." + d)
  }

  function UrlProblem(u: Uri, outside: bool, family: seq<string>): seq<Problem> {
    match u.url
    case None => [NotAUrl(u.text)]
    case Some(url) =>
      if url.protocol != "https:" then [NotHttps(u.text)]
      else if url.username != "" || url.password != "" || url.hash != "" then [HasCredentials(u.text)]
      else If(!OnFamily(url.hostname, family) && !outside, OffFamily(u.text))
  }

  function UrlListProblems(us: seq<Uri>, outside: bool, family: seq<string>): (r: seq<Problem>)
    ensures r == [] <==> forall u | u in us :: UrlProblem(u, outside, family) == []
  {
    if us == [] then [] else UrlProblem(us[0], outside, family) + UrlListProblems(us[1..], outside, family)
  }

  predicate Outside(m: ClientManifest) {
    m.outsideFamily.Some? && m.outsideFamily.value != ""
  }

  function MachineProblems(m: ClientManifest, family: seq<string>): seq<Problem> {
    If(m.origins.Some?, NotOnMachine("origins"))
    + If(m.overrides.Some?, NotOnMachine("overrides"))
    + If(m.outsideFamily.Some?, NotOnMachine("outsideFamily"))
    + If(m.customerLane.Some?, NotOnMachine("customerLane"))
    + If(OrEmpty(m.scopes) == [], MachineWithoutScopes)
    + If(exists s | s in OrEmpty(m.scopes) :: s in STANDARD_SCOPES, MachineWithOidcScopes)
    + If(OrEmpty(m.audiences) == [], MachineWithoutAudiences)
    + UrlListProblems(OrEmpty(m.audiences), Outside(m), family)
  }

  function OriginPathProblems(us: seq<Uri>): (r: seq<Problem>)
    ensures r == [] <==> forall u | u in us :: u.url.Some? ==> u.url.value.pathname == "/"
  {
    if us == [] then []
    else If(us[0].url.Some? && us[0].url.value.pathname != "/", OriginHasPath(us[0].text)) + OriginPathProblems(us[1..])
  }

  function BackchannelUris(m: ClientManifest): seq<Uri> {
    if m.overrides.Some? && m.overrides.value.backchannel.SetTo? && m.overrides.value.backchannel.uri.Some?
       && m.overrides.value.backchannel.uri.value.text != ""
    then [m.overrides.value.backchannel.uri.value] else []
  }

  function UrlProblems(m: ClientManifest, family: seq<string>): seq<Problem> {
    if OrEmpty(m.origins) == [] then [NoOrigins]
    else
      UrlListProblems(m.origins.value, Outside(m), family)
      + UrlListProblems(ExtraRedirects(m), Outside(m), family)
      + UrlListProblems(BackchannelUris(m), Outside(m), family)
      + OriginPathProblems(m.origins.value)
  }

  function HeldByPublic(grants: seq<string>): (r: seq<Problem>)
    ensures r == [] <==> forall g | g in grants :: g !in CONFIDENTIAL_ONLY_GRANTS
  {
    if grants == [] then []
    else If(grants[0] in CONFIDENTIAL_ONLY_GRANTS, PublicCannotHold(grants[0])) + HeldByPublic(grants[1..])
  }

  function PublicProblems(m: ClientManifest, row: ClientRow): seq<Problem> {
    if m.overrides.None? || m.overrides.value.isPublic.None? then []
    else if !m.overrides.value.isPublic.value then [PublicIsTrueOrAbsent]
    else If(m.secret.Some?, PublicWithSecret)
         + HeldByPublic(row.allowedGrants)
         + If(m.overrides.value.backchannel != SetTo(None), PublicWithBackchannel)
  }

  function OverrideFieldProblems(m: ClientManifest): seq<Problem> {
    match m.overrides
    case None => []
    case Some(o) =>
      If(|Trim(o.reason)| < 8, NoReason)
      + If(o.callbackPath.Some? && o.callbackPath.value != "" && !StartsWith(o.callbackPath.value, "/"),
           BadCallbackPath)
      + If(o.scopes.Some? && m.scopes.Some?, BothScopes)
      + If(o.scopes.Some? && "openid" !in o.scopes.value, NoOpenid)
  }

  function DerivedProblems(m: ClientManifest): seq<Problem> {
    match Derive(m)
    case None => []
    case Some(row) =>
      If("offline_access" in row.allowedScopes && "refresh_token" !in row.allowedGrants, OfflineWithoutRefresh)
      + PublicProblems(m, row)
  }

  function ScopeNameProblems(scopes: seq<string>): (r: seq<Problem>)
    ensures r == [] <==> forall s | s in scopes :: ScopeOk(s)
  {
    if scopes == [] then [] else If(!ScopeOk(scopes[0]), BadScope(scopes[0])) + ScopeNameProblems(scopes[1..])
  }

  function OverrideProblems(m: ClientManifest): seq<Problem> {
    ScopeNameProblems(OrEmpty(m.scopes) + (if m.overrides.Some? then OrEmpty(m.overrides.value.scopes) else []))
    + (if m.kind.Machine? then [] else OverrideFieldProblems(m) + DerivedProblems(m))
  }

  /** `manifestProblems` */
  function ManifestProblems(m: ClientManifest, file: string, family: seq<string>): seq<Problem> {
    If(m.kind.OtherKind?, BadKind)
    + IdentityProblems(m, file)
    + (if m.kind.Machine? then MachineProblems(m, family) else UrlProblems(m, family))
    + OverrideProblems(m)
  }

  // ---------- soundness ----------

  predicate SafeUrl(u: Uri, m: ClientManifest, family: seq<string>) {
    && u.url.Some? && u.url.value.protocol == "https:" && u.url.value.username == "" && u.url.value.password == ""
    && u.url.value.hash == "" && (OnFamily(u.url.value.hostname, family) || Outside(m))
  }

  lemma UrlProblemIsExact(u: Uri, m: ClientManifest, family: seq<string>)
    ensures UrlProblem(u, Outside(m), family) == [] <==> SafeUrl(u, m, family)
  {
  }

  lemma NoneOf(a: seq<Problem>, b: seq<Problem>)
    ensures a + b == [] <==> a == [] && b == []
  {
  }

  /** A machine row: it signs no one in, and reaches only https resources of the family. */
  predicate SoundMachine(m: ClientManifest, row: ClientRow, family: seq<string>) {
    && row.allowedGrants == ["client_credentials"] && row.redirectUris == [] && row.backchannelLogoutUri == None
    && !row.isPublic && TakesSecret(row) && !row.customerLane
    && row.allowedScopes != [] && (forall s | s in row.allowedScopes :: s !in STANDARD_SCOPES && ScopeOk(s))
    && row.allowedAudiences != []
    && (forall a | a in row.allowedAudiences :: FamilyAudience(a, OrEmpty(m.audiences), family))
  }

  predicate SoundPublic(m: ClientManifest, row: ClientRow) {
    && row.tokenEndpointAuthMethod == "none" && !TakesSecret(row) && m.secret.None?
    && row.backchannelLogoutUri == None
    && (forall g | g in row.allowedGrants :: g !in CONFIDENTIAL_ONLY_GRANTS)
  }

  /** A redirect URI: a safe origin with the callback, or a safe extra URI. */
  predicate SafeRedirect(uri: string, m: ClientManifest, family: seq<string>) {
    || (exists o | o in OrEmpty(m.origins) ::
          SafeUrl(o, m, family) && o.url.value.pathname == "/" && uri == o.url.value.origin + CallbackOf(m))
    || (exists u | u in ExtraRedirects(m) :: u.text == uri && SafeUrl(u, m, family))
  }

  /** The override sets the back-channel to the empty text, which the URL rules skip. */
  predicate BackchannelIsBlank(m: ClientManifest) {
    && m.overrides.Some? && m.overrides.value.backchannel.SetTo?
    && m.overrides.value.backchannel.uri.Some? && m.overrides.value.backchannel.uri.value.text == ""
  }

  /** A back-channel URI: none, on the first origin, or the override's own, and safe. */
  predicate SafeBackchannel(m: ClientManifest, row: ClientRow, family: seq<string>) {
    match row.backchannelLogoutUri
    case None => true
    case Some(uri) =>
      || (exists o | o in OrEmpty(m.origins) ::
            SafeUrl(o, m, family) && o.url.value.pathname == "/" && uri == o.url.value.origin + BACKCHANNEL_LOGOUT_PATH)
      || (exists u | u in BackchannelUris(m) :: u.text == uri && SafeUrl(u, m, family))
  }

  /** What a parser gives as the origin of a URL holds no '#'. */
  predicate OriginsParsed(m: ClientManifest) {
    forall o | o in OrEmpty(m.origins) && o.url.Some? :: '#' !in o.url.value.origin
  }

  /** No redirect URI of the row has a fragment, not even an empty one. */
  predicate NoFragments(row: ClientRow) {
    forall uri | uri in row.redirectUris :: '#' !in uri
  }

  /** Neither the callback path nor an extra URI brings one. */
  predicate BringsNoFragment(m: ClientManifest) {
    '#' !in CallbackOf(m) && forall u | u in ExtraRedirects(m) :: '#' !in u.text
  }

  /** A row people sign in to. */
  predicate SoundProduct(m: ClientManifest, row: ClientRow, family: seq<string>) {
    && "openid" in row.allowedScopes
    && ("offline_access" in row.allowedScopes ==> "refresh_token" in row.allowedGrants)
    && (row.isPublic ==> SoundPublic(m, row))
    && (!row.isPublic ==> row.tokenEndpointAuthMethod == "client_secret_post" && TakesSecret(row))
    && row.redirectUris != [] && (CallbackOf(m) == "" || StartsWith(CallbackOf(m), "/"))
    && (forall uri | uri in row.redirectUris :: SafeRedirect(uri, m, family))
    && (OriginsParsed(m) ==> (NoFragments(row) <==> BringsNoFragment(m)))
    && (SafeBackchannel(m, row, family) <==> !BackchannelIsBlank(m))
  }

  predicate NoStandardScope(scopes: seq<string>) {
    forall s | s in scopes :: s !in STANDARD_SCOPES
  }

  lemma MachineFacts(m: ClientManifest, family: seq<string>)
    requires MachineProblems(m, family) == []
    ensures m.overrides.None? && OrEmpty(m.scopes) != [] && OrEmpty(m.audiences) != []
    ensures NoStandardScope(OrEmpty(m.scopes))
    ensures m.outsideFamily.None? && UrlListProblems(OrEmpty(m.audiences), Outside(m), family) == []
  {
  }

  lemma MachineIsSound(m: ClientManifest, family: seq<string>)
    requires m.kind.Machine? && MachineProblems(m, family) == [] && ScopeNameProblems(OrEmpty(m.scopes)) == []
    ensures SoundMachine(m, DeriveMachine(m), family)
  {
    MachineFacts(m, family);
    assert OrEmpty(m.scopes)[0] in Dedup(OrEmpty(m.scopes));
    assert NoStandardScope(Dedup(OrEmpty(m.scopes)));
    MachineAudiences(m, family);
  }

  predicate FamilyAudience(a: string, audiences: seq<Uri>, family: seq<string>) {
    exists u | u in audiences ::
      u.text == a && u.url.Some? && u.url.value.protocol == "https:" && OnFamily(u.url.value.hostname, family)
  }

  lemma MachineAudiences(m: ClientManifest, family: seq<string>)
    requires OrEmpty(m.audiences) != [] && m.outsideFamily.None?
    requires UrlListProblems(OrEmpty(m.audiences), Outside(m), family) == []
    ensures Dedup(TextsOf(OrEmpty(m.audiences))) != []
    ensures forall a | a in Dedup(TextsOf(OrEmpty(m.audiences))) :: FamilyAudience(a, OrEmpty(m.audiences), family)
  {
    var audiences := OrEmpty(m.audiences);
    var texts := TextsOf(audiences);
    assert texts[0] in Dedup(texts);
    forall a | a in texts ensures FamilyAudience(a, audiences, family) {
      var i :| 0 <= i < |texts| && texts[i] == a;
      assert audiences[i] in audiences;
      UrlProblemIsExact(audiences[i], m, family);
    }
  }

  lemma UrlFacts(m: ClientManifest, family: seq<string>)
    requires UrlProblems(m, family) == []
    ensures m.origins.Some? && m.origins.value != []
    ensures UrlListProblems(m.origins.value, Outside(m), family) == []
    ensures UrlListProblems(ExtraRedirects(m), Outside(m), family) == []
    ensures UrlListProblems(BackchannelUris(m), Outside(m), family) == []
    ensures OriginPathProblems(m.origins.value) == []
  {
  }

  lemma OriginRedirect(m: ClientManifest, family: seq<string>, o: Uri)
    requires UrlListProblems(OrEmpty(m.origins), Outside(m), family) == []
    requires OriginPathProblems(OrEmpty(m.origins)) == []
    requires o in OrEmpty(m.origins) && o.url.Some?
    ensures SafeRedirect(o.url.value.origin + CallbackOf(m), m, family)
  {
    UrlProblemIsExact(o, m, family);
  }

  lemma ExtraRedirect(m: ClientManifest, family: seq<string>, u: Uri)
    requires UrlListProblems(ExtraRedirects(m), Outside(m), family) == [] && u in ExtraRedirects(m)
    ensures SafeRedirect(u.text, m, family)
  {
    UrlProblemIsExact(u, m, family);
  }

  /** Where a redirect URI of the derived row comes from. */
  lemma RedirectComesFrom(m: ClientManifest, uri: string)
    requires AllUrls(OrEmpty(m.origins)) && uri in RedirectUrisOf(m, OriginsOf(OrEmpty(m.origins)))
    ensures (exists o | o in OrEmpty(m.origins) :: uri == o.url.value.origin + CallbackOf(m))
         || (exists u | u in ExtraRedirects(m) :: uri == u.text)
  {
    var os, extra := OrEmpty(m.origins), ExtraRedirects(m);
    var all := Suffixed(OriginsOf(os), CallbackOf(m)) + TextsOf(extra);
    assert uri in all;
    var i :| 0 <= i < |all| && all[i] == uri;
    if i < |os| { assert os[i] in os; } else { assert extra[i - |os|] in extra; }
  }

  lemma SomeRedirect(m: ClientManifest)
    requires AllUrls(OrEmpty(m.origins)) && OrEmpty(m.origins) != []
    ensures RedirectUrisOf(m, OriginsOf(OrEmpty(m.origins))) != []
  {
    var all := Suffixed(OriginsOf(OrEmpty(m.origins)), CallbackOf(m)) + TextsOf(ExtraRedirects(m));
    assert all[0] in Dedup(all);
  }

  lemma RedirectsAreSafe(m: ClientManifest, family: seq<string>)
    requires UrlProblems(m, family) == [] && AllUrls(OrEmpty(m.origins))
    ensures RedirectUrisOf(m, OriginsOf(OrEmpty(m.origins))) != []
    ensures forall uri | uri in RedirectUrisOf(m, OriginsOf(OrEmpty(m.origins))) :: SafeRedirect(uri, m, family)
  {
    UrlFacts(m, family);
    SomeRedirect(m);
    forall uri | uri in RedirectUrisOf(m, OriginsOf(OrEmpty(m.origins))) ensures SafeRedirect(uri, m, family) {
      RedirectComesFrom(m, uri);
      if o :| o in OrEmpty(m.origins) && uri == o.url.value.origin + CallbackOf(m) {
        OriginRedirect(m, family, o);
      } else {
        var u :| u in ExtraRedirects(m) && uri == u.text;
        ExtraRedirect(m, family, u);
      }
    }
  }

  lemma OriginsAreUrls(m: ClientManifest, family: seq<string>)
    requires UrlProblems(m, family) == []
    ensures AllUrls(OrEmpty(m.origins)) && m.origins.Some?
  {
    forall u | u in m.origins.value ensures u.url.Some? { UrlProblemIsExact(u, m, family); }
  }

  lemma ProductIsSound(m: ClientManifest, family: seq<string>)
    requires !m.kind.Machine? && UrlProblems(m, family) == [] && OverrideFieldProblems(m) == []
    requires DerivedProblems(m) == []
    ensures Derive(m).Some? && SoundProduct(m, Derive(m).value, family)
  {
    OriginsAreUrls(m, family);
    RedirectsAreSafe(m, family);
    CallbackIsAPath(m);
    BackchannelIsSafeExactly(m, family);
    if OriginsParsed(m) { FragmentFreeExactly(m, family); }
    var row := Derive(m).value;
    assert "openid" in row.allowedScopes by {
      if !(m.overrides.Some? && m.overrides.value.scopes.Some?) {
        assert (STANDARD_SCOPES + OrEmpty(m.scopes))[0] == "openid";
      }
    }
    NoneOf(If("offline_access" in row.allowedScopes && "refresh_token" !in row.allowedGrants, OfflineWithoutRefresh),
           PublicProblems(m, row));
    if row.isPublic { PublicIsSound(m, row); }
  }

  lemma CallbackRedirect(m: ClientManifest, o: Uri)
    requires AllUrls(OrEmpty(m.origins)) && o in OrEmpty(m.origins)
    ensures o.url.value.origin + CallbackOf(m) in RedirectUrisOf(m, OriginsOf(OrEmpty(m.origins)))
  {
    var i :| 0 <= i < |OrEmpty(m.origins)| && OrEmpty(m.origins)[i] == o;
    var all := Suffixed(OriginsOf(OrEmpty(m.origins)), CallbackOf(m)) + TextsOf(ExtraRedirects(m));
    assert all[i] in Dedup(all);
  }

  lemma ExtraIsRedirect(m: ClientManifest, u: Uri)
    requires AllUrls(OrEmpty(m.origins)) && u in ExtraRedirects(m)
    ensures u.text in RedirectUrisOf(m, OriginsOf(OrEmpty(m.origins)))
  {
    var os, extra := OriginsOf(OrEmpty(m.origins)), ExtraRedirects(m);
    var i :| 0 <= i < |extra| && extra[i] == u;
    var all := Suffixed(os, CallbackOf(m)) + TextsOf(extra);
    assert all[|os| + i] in Dedup(all);
  }

  /**
   * The derived redirect URIs are free of fragments exactly when the callback
   * path is, and the extra ones are as written: the URL rules look at the
   * fragment of an extra URI that is not empty, and at no callback path.
   */
  lemma FragmentFreeExactly(m: ClientManifest, family: seq<string>)
    requires !m.kind.Machine? && UrlProblems(m, family) == [] && Derive(m).Some? && OriginsParsed(m)
    ensures NoFragments(Derive(m).value) <==> BringsNoFragment(m)
  {
    UrlFacts(m, family);
    hide RedirectUrisOf, UrlProblems, UrlListProblems;
    var row := Derive(m).value;
    if BringsNoFragment(m) {
      forall uri | uri in row.redirectUris ensures '#' !in uri { RedirectComesFrom(m, uri); }
    } else if '#' in CallbackOf(m) {
      CallbackRedirect(m, m.origins.value[0]);
    } else {
      var u :| u in ExtraRedirects(m) && '#' in u.text;
      ExtraIsRedirect(m, u);
    }
  }

  /** The derived back-channel is none or safe, except exactly when an override blanks it. */
  lemma BackchannelIsSafeExactly(m: ClientManifest, family: seq<string>)
    requires !m.kind.Machine? && UrlProblems(m, family) == [] && Derive(m).Some?
    ensures SafeBackchannel(m, Derive(m).value, family) <==> !BackchannelIsBlank(m)
  {
    UrlFacts(m, family);
    var row := Derive(m).value;
    if m.overrides.Some? && m.overrides.value.backchannel.SetTo? {
      if m.overrides.value.backchannel.uri.Some? { OverriddenBackchannel(m, row, family); }
    } else {
      var o := m.origins.value[0];
      assert o in OrEmpty(m.origins);
      UrlProblemIsExact(o, m, family);
      assert row.backchannelLogoutUri == Some(o.url.value.origin + BACKCHANNEL_LOGOUT_PATH);
    }
  }

  lemma OverriddenBackchannel(m: ClientManifest, row: ClientRow, family: seq<string>)
    requires m.overrides.Some? && m.overrides.value.backchannel.SetTo? && m.overrides.value.backchannel.uri.Some?
    requires row.backchannelLogoutUri == Some(m.overrides.value.backchannel.uri.value.text)
    requires UrlListProblems(BackchannelUris(m), Outside(m), family) == []
    ensures SafeBackchannel(m, row, family) <==> !BackchannelIsBlank(m)
  {
    var u := m.overrides.value.backchannel.uri.value;
    if u.text != "" {
      assert u in BackchannelUris(m);
      UrlProblemIsExact(u, m, family);
    }
  }

  const LOOSE_ORIGIN := Uri("https://a.co", Some(Url("https:", "a.co", "", "", "", "", "https://a.co", "/")))

  const LOOSE_OVERRIDES :=
    Overrides("no logout", None, Some("/cb#x"), [], SetTo(Some(Uri("", None))), None, Some(["openid"]))

  const LOOSE_MANIFEST :=
    ClientManifest("ab", "A", None, Product, Some([LOOSE_ORIGIN]), None, None, None, None, None, None, None,
                   Some(LOOSE_OVERRIDES))

  /** A callback path with a fragment passes: a manifest with no problems whose redirect URI has one. */
  lemma FragmentCallbackPasses()
    ensures ManifestProblems(LOOSE_MANIFEST, "ab.json", ["a.co"]) == []
    ensures Derive(LOOSE_MANIFEST).Some? && "https://a.co/cb#x" in Derive(LOOSE_MANIFEST).value.redirectUris
  {
    hide ManifestProblems, RedirectUrisOf;
    BlankBackchannelPasses();
    CallbackRedirect(LOOSE_MANIFEST, LOOSE_ORIGIN);
    assert "https://a.co" + "/cb#x" == "https://a.co/cb#x";
  }

  /**
   * And so does a blank back-channel: one with no problems whose row has ""
   * for its back-channel, which is not safe.
   */
  lemma BlankBackchannelPasses()
    ensures ManifestProblems(LOOSE_MANIFEST, "ab.json", ["a.co"]) == []
    ensures Derive(LOOSE_MANIFEST).Some? && Derive(LOOSE_MANIFEST).value.backchannelLogoutUri == Some("")
    ensures !SafeBackchannel(LOOSE_MANIFEST, Derive(LOOSE_MANIFEST).value, ["a.co"])
  {
    hide IdentityProblems, UrlProblems, OverrideProblems, Derive, SafeBackchannel, MachineProblems;
    BlankIdentity();
    BlankUrls();
    BlankOverrides();
    BlankDerives();
    BlankIsBlank();
    BackchannelIsSafeExactly(LOOSE_MANIFEST, ["a.co"]);
  }

  lemma BlankIsBlank()
    ensures BackchannelIsBlank(LOOSE_MANIFEST)
  {
  }

  lemma BlankDerives()
    ensures Derive(LOOSE_MANIFEST).Some? && Derive(LOOSE_MANIFEST).value.backchannelLogoutUri == Some("")
  {
    hide Dedup, RedirectUrisOf, ScopesOf, GrantsOf;
  }

  lemma BlankIdentity()
    ensures IdentityProblems(LOOSE_MANIFEST, "ab.json") == []
  {
    var id := "ab";
    assert id[1..] == "b";
    assert "ab" + ".json" == "ab.json";
    assert id != "inite-cli" by { assert |id| != |"inite-cli"|; }
  }

  lemma BlankUrls()
    ensures UrlProblems(LOOSE_MANIFEST, ["a.co"]) == []
  {
    hide UrlProblem, UrlListProblems, OriginPathProblems, SafeUrl;
    BlankUrlIsSafe();
    UrlProblemIsExact(LOOSE_ORIGIN, LOOSE_MANIFEST, ["a.co"]);
    BlankLists();
    var none: seq<Problem> := [];
    assert none + none + none + none == none;
  }

  lemma BlankUrlIsSafe()
    ensures SafeUrl(LOOSE_ORIGIN, LOOSE_MANIFEST, ["a.co"])
  {
    assert "a.co" in ["a.co"];
  }

  lemma BlankLists()
    requires UrlProblem(LOOSE_ORIGIN, Outside(LOOSE_MANIFEST), ["a.co"]) == []
    ensures UrlListProblems([LOOSE_ORIGIN], Outside(LOOSE_MANIFEST), ["a.co"]) == []
    ensures UrlListProblems([], Outside(LOOSE_MANIFEST), ["a.co"]) == []
    ensures OriginPathProblems([LOOSE_ORIGIN]) == []
  {
    hide UrlProblem;
  }

  lemma BlankOverrides()
    ensures OverrideProblems(LOOSE_MANIFEST) == []
  {
    hide ScopeNameProblems, OverrideFieldProblems, DerivedProblems;
    BlankScopes();
    BlankFields();
    BlankRow();
    var openid := ["openid"];
    assert [] + openid == openid;
  }

  lemma BlankScopes()
    ensures ScopeNameProblems(["openid"]) == []
  {
    hide Dedup;
  }

  lemma BlankFields()
    ensures OverrideFieldProblems(LOOSE_MANIFEST) == []
  {
    assert Trim("no logout") == "no logout";
  }

  lemma BlankRow()
    ensures DerivedProblems(LOOSE_MANIFEST) == []
  {
    hide RedirectUrisOf, GrantsOf;
    assert ["openid"][1..] == [];
  }

  lemma CallbackIsAPath(m: ClientManifest)
    requires OverrideFieldProblems(m) == []
    ensures CallbackOf(m) == "" || StartsWith(CallbackOf(m), "/")
  {
  }

  lemma PublicIsSound(m: ClientManifest, row: ClientRow)
    requires Derive(m) == Some(row) && !m.kind.Machine? && row.isPublic && PublicProblems(m, row) == []
    ensures SoundPublic(m, row)
  {
  }

  /**
   * A manifest without problems derives a row that is what its kind promises,
   * under an id that is neither self-registered nor the service's own.
   */
  lemma ValidatorIsSound(m: ClientManifest, file: string, family: seq<string>)
    requires ManifestProblems(m, file, family) == []
    ensures Derive(m).Some?
    ensures Derive(m).value.clientId == m.clientId && IdOk(m.clientId) && !IsDynamic(m.clientId)
    ensures m.clientId !in SYSTEM_CLIENT_IDS
    ensures if m.kind.Machine? then SoundMachine(m, Derive(m).value, family)
            else SoundProduct(m, Derive(m).value, family)
  {
    PartsAreClean(m, file, family);
    IdentityIsSound(m, file);
    if m.kind.Machine? {
      MachineIsSound(m, family);
    } else {
      ProductIsSound(m, family);
    }
  }

  lemma PartsAreClean(m: ClientManifest, file: string, family: seq<string>)
    requires ManifestProblems(m, file, family) == []
    ensures IdentityProblems(m, file) == []
    ensures if m.kind.Machine? then MachineProblems(m, family) == [] && ScopeNameProblems(OrEmpty(m.scopes)) == []
            else UrlProblems(m, family) == [] && OverrideFieldProblems(m) == [] && DerivedProblems(m) == []
  {
    var shape := if m.kind.Machine? then MachineProblems(m, family) else UrlProblems(m, family);
    NoneOf(If(m.kind.OtherKind?, BadKind) + IdentityProblems(m, file) + shape, OverrideProblems(m));
    NoneOf(If(m.kind.OtherKind?, BadKind) + IdentityProblems(m, file), shape);
    NoneOf(If(m.kind.OtherKind?, BadKind), IdentityProblems(m, file));
    if m.kind.Machine? {
      MachineFacts(m, family);
      assert OrEmpty(m.scopes) + [] == OrEmpty(m.scopes);
    } else {
      NoneOf(OverrideFieldProblems(m), DerivedProblems(m));
    }
  }

  lemma IdentityIsSound(m: ClientManifest, file: string)
    requires IdentityProblems(m, file) == []
    ensures IdOk(m.clientId) && !IsDynamic(m.clientId) && m.clientId !in SYSTEM_CLIENT_IDS
  {
  }
}
