/** Which address a request is from (src/common/client-ip.ts). */
module ClientIp {
  import opened Wrappers
  import opened Text

  /** Address syntax and the two lists, as predicates on address texts. */
  datatype Net = Net(isIp: string -> bool, ours: string -> bool, cloudflare: string -> bool)

  // ---------- texts ----------

  function IndexOf(s: string, c: char): (i: int)
    ensures i == -1 <==> c !in s
    ensures i != -1 ==> 0 <= i < |s| && s[i] == c && c !in s[..i]
  {
    if s == "" then -1
    else if s[0] == c then 0
    else
      var i := IndexOf(s[1..], c);
      assert s == [s[0]] + s[1..];
      if i == -1 then -1 else assert s[..i + 1] == [s[0]] + s[1..][..i]; i + 1
  }

  /** `split(sep)` for a one-character separator. */
  function Split(s: string, sep: char): (parts: seq<string>)
    ensures |parts| > 0
    decreases |s|
  {
    var i := IndexOf(s, sep);
    if i == -1 then [s] else [s[..i]] + Split(s[i + 1..], sep)
  }

  predicate IsDigits(s: string) {
    s != "" && forall c | c in s :: '0' <= c <= '9'
  }

  predicate IsDotted(s: string) {
    var parts := Split(s, '.');
    |parts| == 4 && forall p | p in parts :: IsDigits(p)
  }

  function Bracketed(ip: string): string {
    var close := IndexOf(ip, ']');
    if StartsWith(ip, "[") && close > 0 then ip[1..close] else ip
  }

  function Unmapped(ip: string): string {
    if |ip| >= 7 && Lower(ip[..7]) == "::ffff:" && IsDotted(ip[7..]) then ip[7..] else ip
  }

  /** A trimmed text as an address: brackets off, `::ffff:1.2.3.4` as `1.2.3.4`. */
  function Address(net: Net, text: string): Option<string> {
    var ip := Unmapped(Bracketed(text));
    if net.isIp(ip) then Some(ip) else None
  }

  /** `normalizeIp`: None for an absent header and for what is not an address. */
  function NormalizeIp(net: Net, raw: Option<string>): Option<string> {
    if raw.None? || raw.value == "" then None else Address(net, Trim(raw.value))
  }

  function NonBlank(parts: seq<string>): seq<string> {
    if parts == [] then []
    else (if Trim(parts[0]) == "" then [] else [Trim(parts[0])]) + NonBlank(parts[1..])
  }

  /** `X-Forwarded-For` as hops, nearest first. An absent header has none. */
  function Hops(header: Option<string>): seq<string> {
    Reverse(NonBlank(Split(if header.Some? then header.value else "", ',')))
  }

  // ---------- the walk ----------

  /** What the walk sees of the hops, nearest first: an address, or garbage. */
  function Seen(net: Net, hops: seq<string>): seq<Option<string>> {
    if hops == [] then [] else [NormalizeIp(net, Some(hops[0]))] + Seen(net, hops[1..])
  }

  /** Where the walk ends from `current`, with `hops` still to look at. */
  function Walk(net: Net, current: string, hops: seq<Option<string>>, cf: Option<string>): string
    decreases |hops|
  {
    if net.cloudflare(current) && cf.Some? then cf.value
    else if !net.cloudflare(current) && !net.ours(current) then current
    else if hops == [] || hops[0].None? then current
    else Walk(net, hops[0].value, hops[1..], cf)
  }

  /** A request header as it arrives: not there, on one line, or on several. */
  datatype Header = Absent | Line(text: string) | Lines(texts: seq<string>)

  /** Several `X-Forwarded-For` lines read as one, joined by commas. */
  function HeaderText(h: Header): Option<string> {
    match h
    case Absent => None
    case Line(text) => Some(text)
    case Lines(texts) => Some(Join(texts, ","))
  }

  /** Of several `CF-Connecting-IP` lines the first counts. */
  function FirstLine(h: Header): Option<string> {
    match h
    case Absent => None
    case Line(text) => Some(text)
    case Lines(texts) => if texts == [] then None else Some(texts[0])
  }

  /** `resolve` */
  method Resolve(net: Net, socketAddress: Option<string>, forwardedFor: Header, cfConnectingIp: Header)
    returns (ip: string)
    ensures ip == Resolved(net, socketAddress, HeaderText(forwardedFor), FirstLine(cfConnectingIp))
  {
    var socket := NormalizeIp(net, socketAddress);
    if socket.None? {
      return "unknown";
    }
    var hops := Hops(HeaderText(forwardedFor));
    var cf := NormalizeIp(net, FirstLine(cfConnectingIp));
    var current := socket.value;
    var i := 0;
    while true
      invariant 0 <= i <= |hops|
      invariant Walk(net, socket.value, Seen(net, hops), cf) == Walk(net, current, Seen(net, hops[i..]), cf)
      decreases |hops| - i
    {
      if net.cloudflare(current) {
        if cf.Some? {
          return cf.value;
        }
      } else if !net.ours(current) {
        return current;
      }
      if i >= |hops| {
        return current;
      }
      var next := NormalizeIp(net, Some(hops[i]));
      assert hops[i..][0] == hops[i] && hops[i..][1..] == hops[i + 1..];
      assert Seen(net, hops[i..]) == [next] + Seen(net, hops[i + 1..]);
      i := i + 1;
      if next.None? {
        return current;
      }
      current := next.value;
    }
  }

  function Resolved(net: Net, socketAddress: Option<string>, forwardedFor: Option<string>,
                    cfConnectingIp: Option<string>): string {
    var socket := NormalizeIp(net, socketAddress);
    if socket.None? then "unknown"
    else Walk(net, socket.value, Seen(net, Hops(forwardedFor)), NormalizeIp(net, cfConnectingIp))
  }

  // ---------- lemmas on headers ----------

  lemma TrimTwice(s: string)
    ensures Trim(Trim(s)) == Trim(s)
  {
    var t := Trim(s);
    if t != "" {
      assert t[0] == TrimLeft(s)[0];
      assert TrimLeft(t) == t && TrimRight(t) == t;
    }
  }

  lemma TrimSpace(s: string)
    ensures Trim(" " + s) == Trim(s)
  {
    assert (" " + s)[1..] == s;
    assert TrimLeft(" " + s) == TrimLeft(s);
  }

  lemma IndexAfter(a: string, b: string, c: char)
    requires c !in a
    ensures IndexOf(a + [c] + b, c) == |a|
  {
    var s := a + [c] + b;
    assert s[|a|] == c;
    assert forall k | 0 <= k < |a| :: s[k] == a[k];
    assert forall i | |a| < i <= |s| :: s[..i][|a|] == c;
  }

  lemma SplitFirst(a: string, b: string, sep: char)
    requires sep !in a
    ensures Split(a + [sep] + b, sep) == [a] + Split(b, sep)
  {
    IndexAfter(a, b, sep);
    var s := a + [sep] + b;
    assert s[..|a|] == a && s[|a| + 1..] == b;
  }

  lemma CutAt(a: string, i: nat, b: string, sep: char)
    requires i < |a| && a[i] == sep
    ensures a + [sep] + b == a[..i] + [sep] + (a[i + 1..] + [sep] + b)
  {
  }

  lemma {:induction false} SplitAt(a: string, b: string, sep: char)
    ensures Split(a + [sep] + b, sep) == Split(a, sep) + Split(b, sep)
    decreases |a|
  {
    var i := IndexOf(a, sep);
    if i == -1 {
      SplitFirst(a, b, sep);
    } else {
      var a0, a1 := a[..i], a[i + 1..];
      SplitAt(a1, b, sep);
      CutAt(a, i, b, sep);
      SplitFirst(a0, a1 + [sep] + b, sep);
      ConcatAssociates([a0], Split(a1, sep), Split(b, sep));
    }
  }

  lemma {:induction false} NonBlankConcat(a: seq<string>, b: seq<string>)
    ensures NonBlank(a + b) == NonBlank(a) + NonBlank(b)
  {
    if a == [] {
      assert a + b == b;
    } else {
      assert (a + b)[1..] == a[1..] + b;
      NonBlankConcat(a[1..], b);
    }
  }

  lemma {:induction false} ReverseSnoc(a: seq<string>, x: string)
    ensures Reverse(a + [x]) == [x] + Reverse(a)
  {
    if a != [] {
      assert (a + [x])[1..] == a[1..] + [x];
      ReverseSnoc(a[1..], x);
    } else {
      assert a + [x] == [x];
    }
  }

  // ---------- honest proxies ----------

  /** What a proxy that appends its peer sends on. */
  function Append(header: Option<string>, peer: string): Option<string> {
    Some(if header.None? then peer else header.value + ", " + peer)
  }

  /** The header after a row of such proxies: the first appends peers[0], and so on. */
  function AppendAll(header: Option<string>, peers: seq<string>): Option<string> {
    if peers == [] then header else Append(AppendAll(header, peers[..|peers| - 1]), peers[|peers| - 1])
  }

  /** A peer's address as a proxy writes it: one address, no comma. */
  predicate Shows(net: Net, t: string, address: string) {
    ',' !in t && t != "" && Address(net, Trim(t)) == Some(address)
  }

  /** An empty text is no address. */
  predicate Sane(net: Net) {
    !net.isIp("")
  }

  lemma ShownText(net: Net, t: string, address: string)
    requires Sane(net) && Shows(net, t, address)
    ensures Trim(t) != "" && NormalizeIp(net, Some(Trim(t))) == Some(address)
    ensures NormalizeIp(net, Some(t)) == Some(address)
  {
    TrimTwice(t);
    EmptyIsNoAddress(net);
  }

  lemma EmptyIsNoAddress(net: Net)
    requires Sane(net)
    ensures Address(net, "") == None
  {
    assert Bracketed("") == "" && Unmapped("") == "";
  }

  lemma CommaFree(t: string)
    requires ',' !in t
    ensures Split(t, ',') == [t] && Split(" " + t, ',') == [" " + t]
  {
    assert ',' !in " " + t;
  }

  lemma OneNonBlank(t: string)
    requires Trim(t) != ""
    ensures NonBlank([t]) == [Trim(t)]
  {
    assert [t][1..] == [];
    assert NonBlank([]) == [];
  }

  lemma HopsAppend(header: Option<string>, t: string)
    requires ',' !in t && Trim(t) != ""
    ensures Hops(Append(header, t)) == [Trim(t)] + Hops(header)
  {
    CommaFree(t);
    TrimSpace(t);
    if header.None? {
      OneNonBlank(t);
      EmptyHeader();
      ReverseSnoc([], Trim(t));
      assert [] + [Trim(t)] == [Trim(t)];
    } else {
      var h := header.value;
      assert h + ", " + t == h + [','] + (" " + t);
      SplitAt(h, " " + t, ',');
      NonBlankConcat(Split(h, ','), [" " + t]);
      OneNonBlank(" " + t);
      ReverseSnoc(NonBlank(Split(h, ',')), Trim(t));
    }
  }

  /** A proxy that adds a line of its own instead. */
  function AddLine(h: Header, peer: string): Header {
    match h
    case Absent => Line(peer)
    case Line(text) => Lines([text, peer])
    case Lines(texts) => Lines(texts + [peer])
  }

  /** It makes no difference whether a proxy appends to the line or adds one. */
  lemma LinesMakeNoDifference(h: Header, t: string)
    requires ',' !in t && Trim(t) != ""
    ensures Hops(HeaderText(AddLine(h, t))) == Hops(Append(HeaderText(h), t))
  {
    HopsAppend(HeaderText(h), t);
    match h
    case Absent =>
    case Line(text) =>
      assert [text, t][1..] == [t];
      assert Join([text, t], ",") == text + "," + t;
      HopsComma(text, t);
    case Lines(texts) =>
      if texts == [] {
        assert texts + [t] == [t];
        HopsComma("", t);
        EmptyLineHasNoHops();
        HopsOfOne(t);
      } else {
        JoinSnoc(texts, t);
        HopsComma(Join(texts, ","), t);
      }
  }

  lemma HopsOfOne(t: string)
    requires ',' !in t && Trim(t) != ""
    ensures Hops(Some(t)) == [Trim(t)]
  {
    CommaFree(t);
    OneNonBlank(t);
    ReverseSnoc([], Trim(t));
    assert [] + [Trim(t)] == [Trim(t)];
  }

  lemma EmptyLineHasNoHops()
    ensures Hops(Some("")) == []
  {
    EmptyHeader();
  }

  lemma HopsComma(text: string, t: string)
    requires ',' !in t && Trim(t) != ""
    ensures Hops(Some(text + "," + t)) == [Trim(t)] + Hops(Some(text))
  {
    CommaFree(t);
    SplitAt(text, t, ',');
    NonBlankConcat(Split(text, ','), [t]);
    OneNonBlank(t);
    ReverseSnoc(NonBlank(Split(text, ',')), Trim(t));
  }

  lemma {:induction false} JoinSnoc(texts: seq<string>, t: string)
    requires texts != []
    ensures Join(texts + [t], ",") == Join(texts, ",") + "," + t
  {
    if |texts| == 1 {
      assert (texts + [t])[1..] == [t];
    } else {
      JoinSnoc(texts[1..], t);
      assert (texts + [t])[1..] == texts[1..] + [t];
    }
  }

  lemma EmptyHeader()
    ensures Hops(None) == []
  {
    assert Split("", ',') == [""];
    assert Trim("") == "";
    assert [""][1..] == [];
    assert NonBlank([""]) == [];
  }

  lemma SeenAppend(net: Net, header: Option<string>, t: string, address: string)
    requires Sane(net) && Shows(net, t, address)
    ensures Seen(net, Hops(Append(header, t))) == [Some(address)] + Seen(net, Hops(header))
  {
    ShownText(net, t, address);
    HopsAppend(header, t);
    var hops := Hops(Append(header, t));
    assert hops[0] == Trim(t) && hops[1..] == Hops(header);
  }

  predicate AllShow(net: Net, texts: seq<string>, addresses: seq<string>)
    requires |texts| == |addresses|
  {
    texts == [] || (Shows(net, texts[|texts| - 1], addresses[|texts| - 1])
                    && AllShow(net, texts[..|texts| - 1], addresses[..|texts| - 1]))
  }

  /** The last address first. */
  function Nearest(addresses: seq<string>): seq<Option<string>> {
    if addresses == [] then [] else [Some(addresses[|addresses| - 1])] + Nearest(addresses[..|addresses| - 1])
  }

  lemma {:induction false} SeenPath(net: Net, header: Option<string>, texts: seq<string>, addresses: seq<string>)
    requires Sane(net) && |texts| == |addresses| && AllShow(net, texts, addresses)
    ensures Seen(net, Hops(AppendAll(header, texts))) == Nearest(addresses) + Seen(net, Hops(header))
    decreases |texts|
  {
    if texts != [] {
      var n := |texts| - 1;
      SeenPath(net, header, texts[..n], addresses[..n]);
      SeenAppend(net, AppendAll(header, texts[..n]), texts[n], addresses[n]);
      ConcatAssociates([Some(addresses[n])], Nearest(addresses[..n]), Seen(net, Hops(header)));
    }
  }

  /** Our own proxies, which are no Cloudflare edges. */
  predicate AllOurs(net: Net, addresses: seq<string>) {
    forall a | a in addresses :: net.ours(a) && !net.cloudflare(a)
  }

  /** The walk passes every proxy of ours and comes to the address the first one saw. */
  lemma {:induction false} WalkPastOurs(net: Net, first: string, ours: seq<string>, left: seq<Option<string>>,
                                        cf: Option<string>)
    requires AllOurs(net, ours)
    ensures var addresses := [first] + ours; var n := |ours|;
            Walk(net, addresses[n], Nearest(addresses[..n]) + left, cf) == Walk(net, first, left, cf)
    decreases |ours|
  {
    var addresses := [first] + ours;
    var n := |ours|;
    if n == 0 {
      assert addresses[..0] == [];
      assert Nearest([]) + left == left;
    } else {
      var fewer := ours[..n - 1];
      WalkPastOurs(net, first, fewer, left, cf);
      assert addresses[..n] == [first] + fewer;
      var seen := Nearest(addresses[..n]) + left;
      assert addresses[..n][n - 1] == addresses[n - 1] && addresses[..n][..n - 1] == addresses[..n - 1];
      assert ([first] + fewer)[..n - 1] == addresses[..n - 1];
      assert seen[0] == Some(addresses[n - 1]) && seen[1..] == Nearest(addresses[..n - 1]) + left;
      assert addresses[n] in ours;
    }
  }

  /**
   * The way to us: the texts the hops write (client first, our socket's peer
   * last) and the addresses they show; every hop after the first is ours.
   */
  predicate Path(net: Net, texts: seq<string>, addresses: seq<string>) {
    |texts| == |addresses| > 0 && AllShow(net, texts, addresses) && AllOurs(net, addresses[1..])
  }

  lemma PathWalk(net: Net, header: Option<string>, texts: seq<string>, addresses: seq<string>, cf: Option<string>)
    requires Sane(net) && Path(net, texts, addresses)
    ensures Resolved(net, Some(texts[|texts| - 1]), AppendAll(header, texts[..|texts| - 1]), cf)
         == Walk(net, addresses[0], Seen(net, Hops(header)), NormalizeIp(net, cf))
  {
    var n := |texts| - 1;
    ShownText(net, texts[n], addresses[n]);
    SeenPath(net, header, texts[..n], addresses[..n]);
    WalkToFirst(net, addresses, Seen(net, Hops(header)), NormalizeIp(net, cf));
  }

  lemma WalkToFirst(net: Net, addresses: seq<string>, left: seq<Option<string>>, cf: Option<string>)
    requires addresses != [] && AllOurs(net, addresses[1..])
    ensures var n := |addresses| - 1;
            Walk(net, addresses[n], Nearest(addresses[..n]) + left, cf) == Walk(net, addresses[0], left, cf)
  {
    assert [addresses[0]] + addresses[1..] == addresses;
    WalkPastOurs(net, addresses[0], addresses[1..], left, cf);
  }

  /**
   * Behind any number of our own proxies, each appending its peer, the answer
   * is the true client, whatever X-Forwarded-For and CF-Connecting-IP the
   * client wrote. The first element is the client, the last our socket's peer.
   */
  lemma HonestProxiesRevealTheClient(net: Net, written: Option<string>, texts: seq<string>, addresses: seq<string>,
                                     cf: Option<string>)
    requires Sane(net) && Path(net, texts, addresses)
    requires !net.ours(addresses[0]) && !net.cloudflare(addresses[0])
    ensures Resolved(net, Some(texts[|texts| - 1]), AppendAll(written, texts[..|texts| - 1]), cf) == addresses[0]
  {
    PathWalk(net, written, texts, addresses, cf);
  }

  /** Reached through a Cloudflare edge (the first element), the answer is the header the edge set. */
  lemma CloudflareEdgeNamesTheClient(net: Net, written: Option<string>, texts: seq<string>, addresses: seq<string>,
                                     cf: string, client: string)
    requires Sane(net) && Path(net, texts, addresses) && Shows(net, cf, client)
    requires net.cloudflare(addresses[0])
    ensures Resolved(net, Some(texts[|texts| - 1]), AppendAll(written, texts[..|texts| - 1]), Some(cf)) == client
  {
    ShownText(net, cf, client);
    PathWalk(net, written, texts, addresses, Some(cf));
  }

  predicate Untrusted(net: Net, hop: Option<string>) {
    hop.None? || (!net.ours(hop.value) && !net.cloudflare(hop.value))
  }

  /** Nothing to the left of the first hop that is not ours (or is garbage) has any influence. */
  lemma {:induction false} LeftOfAnUntrustedHopIsIgnored(net: Net, current: string, hops: seq<Option<string>>, k: nat,
                                                         left: seq<Option<string>>, cf: Option<string>)
    requires k < |hops| && Untrusted(net, hops[k])
    ensures Walk(net, current, hops, cf) == Walk(net, current, hops[..k + 1] + left, cf)
    decreases k
  {
    var other := hops[..k + 1] + left;
    assert other[0] == hops[0];
    if k > 0 && hops[0].Some? {
      assert other[1..] == hops[1..][..k] + left;
      LeftOfAnUntrustedHopIsIgnored(net, hops[0].value, hops[1..], k - 1, left, cf);
    }
  }
}
