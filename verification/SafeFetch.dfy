/** The redirect loop of outbound fetches (src/common/safe-fetch.ts) and the URL check of every hop. */
module SafeFetch {
  import opened Text
  import opened Wrappers

  // ---------- the URL check (src/common/safe-fetch-address.ts) ----------

  /** A parsed URL, as far as the check reads it; `port` is None when the URL names none. */
  datatype Url = Url(protocol: string, username: string, password: string, port: Option<nat>, hostname: string,
                     path: string)

  datatype Reason =
    | Protocol | Port | Credentials | Address | Redirects | Size | Timeout | ContentType | NotUrl | Network

  datatype Policy = Policy(ports: Option<seq<nat>>, allowPrivateHosts: seq<string>, requireHttps: bool)

  /** What is taken as given: the address predicates, and whether a content type is JSON. */
  datatype Given = Given(isIp: string -> bool, isBlockedAddress: string -> bool, isJson: string -> bool)

  /** `hostname.replace(/^\[|\]$/g, '')` */
  function Unbracketed(host: string): string {
    var s := if host != "" && host[0] == '[' then host[1..] else host;
    if s != "" && s[|s| - 1] == ']' then s[..|s| - 1] else s
  }

  predicate IsInternalName(host: string) {
    var name := Lower(host);
    || name == "localhost" || name == "metadata.google.internal"
    || EndsWith(name, ".localhost") || EndsWith(name, ".local") || EndsWith(name, ".internal")
  }

  function CheckHost(host: string, allowed: seq<string>, given: Given): Option<Reason> {
    if host in allowed then None
    else if given.isIp(host) && given.isBlockedAddress(host) then Some(Address)
    else if IsInternalName(host) then Some(Address)
    else None
  }

  function PortOf(u: Url): nat {
    if u.port.Some? then u.port.value else if u.protocol == "https:" then 443 else 80
  }

  /** `checkUrl`, on a parsed URL: None when it may be fetched. */
  function CheckUrl(u: Url, policy: Policy, given: Given): Option<Reason> {
    if u.protocol != "http:" && u.protocol != "https:" then Some(Protocol)
    else if policy.requireHttps && u.protocol != "https:" then Some(Protocol)
    else if u.username != "" || u.password != "" then Some(Credentials)
    else if PortOf(u) !in (if policy.ports.Some? then policy.ports.value else [80, 443]) then Some(Port)
    else CheckHost(Unbracketed(u.hostname), policy.allowPrivateHosts, given)
  }

  // ---------- the loop ----------

  datatype Method = GET | HEAD | POST

  datatype Options = Options(
    verb: Method, headers: map<string, string>, body: Option<string>,
    maxRedirects: int, json: bool, policy: Policy)

  datatype Request = Request(url: Url, verb: Method, headers: map<string, string>, body: Option<string>)

  /** What comes back: a response, or the reason there is none. */
  datatype Answer =
    | Raw(status: int, location: Option<string>, contentType: Option<string>)
    | Failed(reason: Reason)

  /** Any server: it answers on everything sent so far. Locations are resolved against the current URL. */
  datatype World = World(answer: seq<Request> -> Answer, resolve: (string, Url) -> Option<Url>, given: Given)

  datatype Response = Response(url: Url, raw: Answer)

  /** `redirectTarget` */
  function RedirectTarget(raw: Answer): Option<string> {
    if raw.Raw? && 300 <= raw.status < 400 && raw.location.Some? && raw.location.value != "" then raw.location else None
  }

  /** 307 and 308 keep the method and the body. */
  predicate Keeps(raw: Answer) {
    raw.Raw? && (raw.status == 307 || raw.status == 308)
  }

  predicate NotJson(raw: Answer, given: Given) {
    raw.Raw? && raw.contentType.Some? && raw.contentType.value != "" && !given.isJson(raw.contentType.value)
  }

  /** What an answer without a redirect becomes. */
  function Final(u: Url, raw: Answer, o: Options, w: World): Result<Response, Reason> {
    if raw.Failed? then Err(raw.reason)
    else if o.json && NotJson(raw, w.given) then Err(ContentType)
    else Ok(Response(u, raw))
  }

  /** Where to go next, checked. */
  function NextUrl(location: string, u: Url, o: Options, w: World): Result<Url, Reason> {
    match w.resolve(location, u)
    case None => Err(NotUrl)
    case Some(v) => var check := CheckUrl(v, o.policy, w.given); if check.Some? then Err(check.value) else Ok(v)
  }

  /** What is asked of the next hop. */
  function NextRequest(q: Request, raw: Answer, url: Url): Request {
    if Keeps(raw) then q.(url := url) else q.(url := url, verb := GET, body := None)
  }

  // ---------- what a fetch may send ----------

  predicate Checked(sent: seq<Request>, o: Options, w: World) {
    forall i | 0 <= i < |sent| :: CheckUrl(sent[i].url, o.policy, w.given) == None
  }

  /** Each request answers a redirect of the one before it. */
  predicate Follows(sent: seq<Request>, i: nat, o: Options, w: World)
    requires 0 < i < |sent|
  {
    var raw := w.answer(sent[..i]);
    && RedirectTarget(raw).Some?
    && NextUrl(RedirectTarget(raw).value, sent[i - 1].url, o, w) == Ok(sent[i].url)
    && sent[i] == NextRequest(sent[i - 1], raw, sent[i].url)
  }

  predicate Chain(sent: seq<Request>, o: Options, w: World) {
    && (sent != [] ==> sent[0].verb == o.verb && sent[0].headers == o.headers && sent[0].body == o.body)
    && forall i | 0 < i < |sent| :: Follows(sent, i, o, w)
  }

  function Allowance(o: Options): nat {
    if o.maxRedirects > 0 then o.maxRedirects else 0
  }

  /** How a fetch ends, by its last request. */
  predicate Ends(sent: seq<Request>, r: Result<Response, Reason>, o: Options, w: World)
    requires sent != []
  {
    var last := sent[|sent| - 1].url;
    var raw := w.answer(sent);
    match RedirectTarget(raw)
    case None => r == Final(last, raw, o, w)
    case Some(location) =>
      if |sent| == Allowance(o) + 1 then r == Err(Redirects)
      else NextUrl(location, last, o, w).Err? && r == Err(NextUrl(location, last, o, w).error)
  }

  /** A fetch against a world: what it sent, and how it ended. */
  predicate IsRun(start: Option<Url>, sent: seq<Request>, r: Result<Response, Reason>, o: Options, w: World) {
    && |sent| <= Allowance(o) + 1 && Chain(sent, o, w)
    && (sent == [] <==> start.None? || CheckUrl(start.value, o.policy, w.given).Some?)
    && (sent == [] ==> r == Err(if start.None? then NotUrl else CheckUrl(start.value, o.policy, w.given).value))
    && (sent != [] ==> Some(sent[0].url) == start && Ends(sent, r, o, w))
  }

  /** `safeFetch` of a parsed URL (None when it does not parse), with every request it sends. */
  method Fetch(start: Option<Url>, o: Options, w: World) returns (r: Result<Response, Reason>, sent: seq<Request>)
    ensures |sent| <= Allowance(o) + 1
    ensures Checked(sent, o, w)
    ensures IsRun(start, sent, r, o, w)
  {
    sent := [];
    if start.None? {
      return Err(NotUrl), sent;
    }
    var check := CheckUrl(start.value, o.policy, w.given);
    if check.Some? {
      return Err(check.value), sent;
    }
    var u := start.value;
    var verb, body := o.verb, o.body;
    var hop := 0;
    while true
      invariant hop == |sent| <= Allowance(o)
      invariant CheckUrl(u, o.policy, w.given) == None
      invariant var q := Request(u, verb, o.headers, body);
                Checked(sent + [q], o, w) && Chain(sent + [q], o, w) && Some((sent + [q])[0].url) == start
      decreases Allowance(o) - hop
    {
      ghost var before := sent;
      sent := sent + [Request(u, verb, o.headers, body)];
      var raw := w.answer(sent);
      var target := RedirectTarget(raw);
      if target.None? {
        if raw.Failed? {
          return Err(raw.reason), sent;
        }
        if o.json && NotJson(raw, w.given) {
          return Err(ContentType), sent;
        }
        return Ok(Response(u, raw)), sent;
      }
      if hop >= o.maxRedirects {
        return Err(Redirects), sent;
      }
      var next := NextUrl(target.value, u, o, w);
      if next.Err? {
        return Err(next.error), sent;
      }
      ghost var q := sent[hop];
      u := next.value;
      if !(raw.status == 307 || raw.status == 308) {
        verb, body := GET, None;
      }
      ChainGrows(sent, q, raw, u, o, w);
      hop := hop + 1;
    }
  }

  lemma ChainGrows(sent: seq<Request>, q: Request, raw: Answer, url: Url, o: Options, w: World)
    requires sent != [] && q == sent[|sent| - 1] && raw == w.answer(sent)
    requires Checked(sent, o, w) && Chain(sent, o, w)
    requires RedirectTarget(raw).Some? && NextUrl(RedirectTarget(raw).value, q.url, o, w) == Ok(url)
    ensures var grown := sent + [NextRequest(q, raw, url)];
            Checked(grown, o, w) && Chain(grown, o, w)
  {
    var grown := sent + [NextRequest(q, raw, url)];
    forall i | 0 < i < |grown| ensures Follows(grown, i, o, w) {
      if i < |sent| {
        assert Follows(sent, i, o, w);
        assert grown[..i] == sent[..i];
      } else {
        assert grown[..i] == sent;
      }
    }
  }

  // ---------- what that means ----------

  /** Every redirect before the k-th request kept the method and body. */
  predicate Unbroken(sent: seq<Request>, k: nat, w: World)
    requires k < |sent|
  {
    forall j | 0 < j <= k :: Keeps(w.answer(sent[..j]))
  }

  /**
   * A request carries the caller's method and body exactly while every redirect so far was a 307 or 308;
   * after any other it is a GET without a body, for good.
   */
  lemma {:induction false} BodyIsResentOnlyUnbroken(sent: seq<Request>, k: nat, o: Options, w: World)
    requires Chain(sent, o, w) && k < |sent|
    ensures sent[k].headers == o.headers
    ensures if Unbroken(sent, k, w) then sent[k].verb == o.verb && sent[k].body == o.body
            else sent[k].verb == GET && sent[k].body == None
  {
    if k > 0 {
      BodyIsResentOnlyUnbroken(sent, k - 1, o, w);
      assert Follows(sent, k, o, w);
      assert Unbroken(sent, k, w) <==> Unbroken(sent, k - 1, w) && Keeps(w.answer(sent[..k]));
    }
  }

  lemma {:induction false} SamePrefix(start: Option<Url>, a: seq<Request>, b: seq<Request>, k: nat, o: Options,
                                      w: World)
    requires Chain(a, o, w) && Chain(b, o, w) && k < |a| && k < |b|
    requires Some(a[0].url) == start && Some(b[0].url) == start
    ensures a[..k + 1] == b[..k + 1]
  {
    if k > 0 {
      SamePrefix(start, a, b, k - 1, o, w);
      assert Follows(a, k, o, w) && Follows(b, k, o, w);
      assert a[..k] == b[..k];
      assert a[k - 1] == a[..k][k - 1] == b[..k][k - 1] == b[k - 1];
      assert a[k].url == b[k].url;
    }
  }

  lemma NotShorter(start: Option<Url>, a: seq<Request>, ra: Result<Response, Reason>, b: seq<Request>,
                   rb: Result<Response, Reason>, o: Options, w: World)
    requires IsRun(start, a, ra, o, w) && IsRun(start, b, rb, o, w)
    ensures |a| >= |b|
  {
    if 0 < |a| < |b| {
      var n := |a|;
      assert Follows(b, n, o, w);
      assert a[..n] == a;
      SamePrefix(start, a, b, n - 1, o, w);
    }
  }

  /** The contract leaves nothing open: one start against one world has one run. */
  lemma RunIsDetermined(start: Option<Url>, a: seq<Request>, ra: Result<Response, Reason>, b: seq<Request>,
                        rb: Result<Response, Reason>, o: Options, w: World)
    requires IsRun(start, a, ra, o, w) && IsRun(start, b, rb, o, w)
    ensures a == b && ra == rb
  {
    NotShorter(start, a, ra, b, rb, o, w);
    NotShorter(start, b, rb, a, ra, o, w);
    if a != [] {
      SamePrefix(start, a, b, |a| - 1, o, w);
      assert a == a[..|a|] && b == b[..|b|];
    }
  }
}
