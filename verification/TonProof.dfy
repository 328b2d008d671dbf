/** The signed message of a TON Connect proof (src/identity/ton-proof.ts). */
module TonProof {
  import opened Numerals
  import opened Text
  import opened Wrappers

  // ---------- fixed-width fields ----------

  function BigEndian(n: nat, width: nat): (bs: seq<byte>)
    ensures |bs| == width
  {
    if width == 0 then [] else BigEndian(n / 256, width - 1) + [n % 256]
  }

  function LittleEndian(n: nat, width: nat): (bs: seq<byte>)
    ensures |bs| == width
  {
    if width == 0 then [] else [n % 256] + LittleEndian(n / 256, width - 1)
  }

  function FromBig(bs: seq<byte>): nat {
    if bs == [] then 0 else FromBig(bs[..|bs| - 1]) * 256 + bs[|bs| - 1]
  }

  function FromLittle(bs: seq<byte>): nat {
    if bs == [] then 0 else bs[0] + 256 * FromLittle(bs[1..])
  }

  /** How many numbers a field of so many bytes holds. */
  function Capacity(width: nat): (c: nat)
    ensures c >= 1
  {
    if width == 0 then 1 else 256 * Capacity(width - 1)
  }

  /** A field of a number within its capacity reads back, and a field of bytes writes back. */
  lemma {:induction false} BigBack(n: nat, width: nat)
    requires n < Capacity(width)
    ensures FromBig(BigEndian(n, width)) == n
  {
    if width > 0 {
      BigBack(n / 256, width - 1);
      var bs := BigEndian(n, width);
      assert bs[..width - 1] == BigEndian(n / 256, width - 1);
    }
  }

  lemma {:induction false} BigForth(bs: seq<byte>)
    ensures FromBig(bs) < Capacity(|bs|) && BigEndian(FromBig(bs), |bs|) == bs
  {
    if bs != [] {
      var front, b := bs[..|bs| - 1], bs[|bs| - 1];
      BigForth(front);
      assert FromBig(bs) / 256 == FromBig(front) && FromBig(bs) % 256 == b;
      assert bs == front + [b];
    }
  }

  lemma {:induction false} LittleBack(n: nat, width: nat)
    requires n < Capacity(width)
    ensures FromLittle(LittleEndian(n, width)) == n
  {
    if width > 0 {
      LittleBack(n / 256, width - 1);
      var bs := LittleEndian(n, width);
      assert bs[1..] == LittleEndian(n / 256, width - 1);
    }
  }

  lemma {:induction false} LittleForth(bs: seq<byte>)
    ensures FromLittle(bs) < Capacity(|bs|) && LittleEndian(FromLittle(bs), |bs|) == bs
  {
    if bs != [] {
      LittleForth(bs[1..]);
      assert FromLittle(bs) / 256 == FromLittle(bs[1..]) && FromLittle(bs) % 256 == bs[0];
      assert bs == [bs[0]] + bs[1..];
    }
  }

  const TWO_31 := 0x8000_0000
  const TWO_32 := 0x1_0000_0000
  const TWO_64 := 0x1_0000_0000_0000_0000

  lemma Capacities()
    ensures Capacity(4) == TWO_32 && Capacity(8) == TWO_64
  {
    assert Capacity(1) == 256;
    assert Capacity(2) == 0x1_0000;
    assert Capacity(3) == 0x100_0000;
    assert Capacity(4) == TWO_32;
    assert Capacity(5) == 0x100_0000_0000;
    assert Capacity(6) == 0x1_0000_0000_0000;
    assert Capacity(7) == 0x100_0000_0000_0000;
  }

  /** Two's complement on 32 bits. */
  function Unsigned32(v: int): nat
    requires -TWO_31 <= v < TWO_31
  {
    if v < 0 then v + TWO_32 else v
  }

  function Signed32(n: nat): (v: int)
    requires n < TWO_32
    ensures -TWO_31 <= v < TWO_31 && Unsigned32(v) == n
  {
    if n < TWO_31 then n else n - TWO_32
  }

  // ---------- the message ----------

  /** What the message states; texts are their UTF-8 bytes. */
  datatype Parts = Parts(workchain: int, hash: seq<byte>, domain: seq<byte>, timestamp: int, payload: seq<byte>)

  /** The ASCII bytes of "ton-proof-item-v2/". */
  const PREFIX: seq<byte> := [116, 111, 110, 45, 112, 114, 111, 111, 102, 45, 105, 116, 101, 109, 45, 118, 50, 47]

  /** Every number fits its field; otherwise the buffer writes throw. */
  predicate InRange(p: Parts) {
    && -TWO_31 <= p.workchain < TWO_31
    && |p.domain| < TWO_32
    && 0 <= p.timestamp < TWO_64
  }

  function Message(p: Parts): Option<seq<byte>> {
    if !InRange(p) then None
    else Some(PREFIX + BigEndian(Unsigned32(p.workchain), 4) + p.hash
              + LittleEndian(|p.domain|, 4) + p.domain + LittleEndian(p.timestamp, 8) + p.payload)
  }

  /** `writeInt32BE`, which throws (false) out of range. */
  method WriteInt32BE(buffer: array<byte>, value: int) returns (ok: bool)
    requires buffer.Length == 4
    modifies buffer
    ensures ok <==> -TWO_31 <= value < TWO_31
    ensures ok ==> buffer[..] == BigEndian(Unsigned32(value), 4)
  {
    if value < -TWO_31 || value >= TWO_31 {
      return false;
    }
    var n := Unsigned32(value);
    var i := 4;
    assert buffer[4..] == [];
    while i > 0
      invariant 0 <= i <= 4
      invariant BigEndian(n, i) + buffer[i..] == BigEndian(Unsigned32(value), 4)
    {
      BigStep(n, i, buffer[i..]);
      i := i - 1;
      buffer[i] := n % 256;
      assert buffer[i..] == [n % 256] + buffer[i + 1..];
      n := n / 256;
    }
    assert buffer[0..] == buffer[..];
    return true;
  }

  lemma BigStep(n: nat, width: nat, tail: seq<byte>)
    requires width > 0
    ensures BigEndian(n, width) + tail == BigEndian(n / 256, width - 1) + ([n % 256] + tail)
  {
  }

  /** `writeUInt32LE` and `writeBigUInt64LE`, which throw (false) out of range. */
  method WriteUIntLE(buffer: array<byte>, value: int) returns (ok: bool)
    modifies buffer
    ensures ok <==> 0 <= value < Capacity(buffer.Length)
    ensures ok ==> buffer[..] == LittleEndian(value, buffer.Length)
  {
    if value < 0 || value >= Capacity(buffer.Length) {
      return false;
    }
    var n: nat := value;
    var i := 0;
    assert buffer[..0] == [];
    while i < buffer.Length
      invariant 0 <= i <= buffer.Length
      invariant buffer[..i] + LittleEndian(n, buffer.Length - i) == LittleEndian(value, buffer.Length)
    {
      LittleStep(n, buffer.Length - i, buffer[..i]);
      buffer[i] := n % 256;
      assert buffer[..i + 1] == buffer[..i] + [n % 256];
      n := n / 256;
      i := i + 1;
    }
    assert buffer[..i] == buffer[..];
    return true;
  }

  lemma LittleStep(n: nat, width: nat, front: seq<byte>)
    requires width > 0
    ensures front + LittleEndian(n, width) == (front + [n % 256]) + LittleEndian(n / 256, width - 1)
  {
  }

  /** `buildProofMessage`; None where it throws. */
  method BuildProofMessage(p: Parts) returns (r: Option<seq<byte>>)
    ensures r == Message(p)
  {
    Capacities();
    var workchain := new byte[4](_ => 0);
    var ok := WriteInt32BE(workchain, p.workchain);
    if !ok {
      return None;
    }
    var domainLength := new byte[4](_ => 0);
    ok := WriteUIntLE(domainLength, |p.domain|);
    if !ok {
      return None;
    }
    var timestamp := new byte[8](_ => 0);
    ok := WriteUIntLE(timestamp, p.timestamp);
    if !ok {
      return None;
    }
    r := Some(PREFIX + workchain[..] + p.hash + domainLength[..] + p.domain + timestamp[..] + p.payload);
  }

  // ---------- reading it back ----------

  /** The parts of a message, cut where the layout says. */
  function ReadMessage(m: seq<byte>): Option<Parts> {
    Capacities();
    if |m| < 58 || m[..18] != PREFIX then None
    else
      BigForth(m[18..22]);
      LittleForth(m[54..58]);
      var n := FromLittle(m[54..58]);
      if |m| < 66 + n then None
      else
        Some(Parts(Signed32(FromBig(m[18..22])), m[22..54], m[58..58 + n], FromLittle(m[58 + n..66 + n]), m[66 + n..]))
  }

  lemma Sections(a: seq<byte>, b: seq<byte>, c: seq<byte>, d: seq<byte>, e: seq<byte>, f: seq<byte>, g: seq<byte>)
    requires |a| == 18 && |b| == 4 && |c| == 32 && |d| == 4 && |f| == 8
    ensures var m, n := a + b + c + d + e + f + g, |e|;
            && |m| >= 66 + n && m[..18] == a && m[18..22] == b && m[22..54] == c && m[54..58] == d
            && m[58..58 + n] == e && m[58 + n..66 + n] == f && m[66 + n..] == g
  {
  }

  lemma Resections(m: seq<byte>, n: nat)
    requires |m| >= 66 + n
    ensures m == m[..18] + m[18..22] + m[22..54] + m[54..58] + m[58..58 + n] + m[58 + n..66 + n] + m[66 + n..]
  {
  }

  /** A message with a 32-byte account hash reads back as the parts it was built from. */
  lemma MessageReadsBack(p: Parts)
    requires |p.hash| == 32 && InRange(p)
    ensures ReadMessage(Message(p).value) == Some(p)
  {
    Capacities();
    var chain, length, time :=
      BigEndian(Unsigned32(p.workchain), 4), LittleEndian(|p.domain|, 4), LittleEndian(p.timestamp, 8);
    Sections(PREFIX, chain, p.hash, length, p.domain, time, p.payload);
    BigBack(Unsigned32(p.workchain), 4);
    LittleBack(|p.domain|, 4);
    LittleBack(p.timestamp, 8);
  }

  /** And every byte sequence that reads as parts is the message of those parts. */
  lemma ReadMessageBuildsBack(m: seq<byte>)
    requires ReadMessage(m).Some?
    ensures var p := ReadMessage(m).value; |p.hash| == 32 && Message(p) == Some(m)
  {
    Capacities();
    var p := ReadMessage(m).value;
    var n := |p.domain|;
    BigForth(m[18..22]);
    LittleForth(m[54..58]);
    LittleForth(m[58 + n..66 + n]);
    Resections(m, n);
  }

  /** Two in-range parts with the same message bytes are equal. */
  lemma MessageIsInjective(p: Parts, q: Parts)
    requires |p.hash| == 32 && |q.hash| == 32 && InRange(p) && InRange(q)
    ensures Message(p) == Message(q) <==> p == q
  {
    MessageReadsBack(p);
    MessageReadsBack(q);
  }

  // ---------- the raw address ----------

  /** How many decimal digits the text begins with. */
  function DigitCount(s: string): (n: nat)
    ensures n <= |s| && forall i | 0 <= i < n :: '0' <= s[i] <= '9'
    ensures n < |s| ==> !('0' <= s[n] <= '9')
  {
    if s != "" && '0' <= s[0] <= '9' then 1 + DigitCount(s[1..]) else 0
  }

  function DigitValues(s: string): (ds: seq<nat>)
    requires forall i | 0 <= i < |s| :: '0' <= s[i] <= '9'
    ensures |ds| == |s| && DigitsIn(ds, 10) && forall i | 0 <= i < |s| :: s[i] == '0' + ds[i] as char
  {
    seq(|s|, i requires 0 <= i < |s| => (s[i] - '0') as nat)
  }

  /** `Number.parseInt(s, 10)`, with None for NaN: white space, a sign, digits, and whatever follows is ignored. */
  function ParseInt(s: string): Option<int> {
    var t := TrimLeft(s);
    var negative := t != "" && t[0] == '-';
    var body := if t != "" && (t[0] == '-' || t[0] == '+') then t[1..] else t;
    match Magnitude(body)
    case None => None
    case Some(value) => Some(if negative then 0 - value else value)
  }

  /** The number a text begins with, if it begins with a digit. */
  function Magnitude(s: string): Option<int> {
    var n := DigitCount(s);
    if n == 0 then None else Some(FromDigits(DigitValues(s[..n]), 10))
  }

  /** The value of a character of [0-9a-fA-F]. */
  function HexValueOf(c: char): (r: Option<nat>)
    ensures r.Some? ==> r.value < 16
  {
    if '0' <= c <= '9' then Some((c - '0') as nat)
    else if 'a' <= c <= 'f' then Some((c - 'a') as nat + 10)
    else if 'A' <= c <= 'F' then Some((c - 'A') as nat + 10)
    else None
  }

  predicate IsHex(s: string) {
    forall i | 0 <= i < |s| :: HexValueOf(s[i]).Some?
  }

  function HexValues(s: string): (ds: seq<nat>)
    requires IsHex(s)
    ensures |ds| == |s| && DigitsIn(ds, 16) && forall i | 0 <= i < |s| :: HexValueOf(s[i]) == Some(ds[i])
  {
    seq(|s|, i requires 0 <= i < |s| => HexValueOf(s[i]).value)
  }

  /** Where a part ends: the next colon, or the end. */
  function PartEnd(s: string): (n: nat)
    ensures n <= |s| && forall i | 0 <= i < n :: s[i] != ':'
    ensures n < |s| ==> s[n] == ':'
  {
    if s == "" || s[0] == ':' then 0 else 1 + PartEnd(s[1..])
  }

  /** `parseRawAddress`: the workchain and the 32 bytes of the account. */
  function ParseRawAddress(address: string): (r: Option<(int, seq<byte>)>)
    ensures r.Some? ==> |r.value.1| == 32
  {
    var n := PartEnd(address);
    if n == |address| then None
    else
      var rest := address[n + 1..];
      var hashPart := rest[..PartEnd(rest)];
      match ParseInt(address[..n])
      case None => None
      case Some(workchain) =>
        if |hashPart| != 64 || !IsHex(hashPart) then None
        else
          FromHexValue(HexValues(hashPart));
          Some((workchain, FromHex(HexValues(hashPart))))
  }

  // ---------- an address as the wallet writes it ----------

  function DecimalChars(ds: seq<nat>): (s: string)
    requires DigitsIn(ds, 10)
    ensures |s| == |ds| && forall i | 0 <= i < |s| :: s[i] == '0' + ds[i] as char
  {
    seq(|ds|, i requires 0 <= i < |ds| => '0' + ds[i] as char)
  }

  function Decimal(w: int): string {
    if w < 0 then "-" + DecimalChars(ToDigits(-w, 10))
    else if w == 0 then "0"
    else DecimalChars(ToDigits(w, 10))
  }

  function HexChar(d: nat): char
    requires d < 16
  {
    if d < 10 then '0' + d as char else 'a' + (d - 10) as char
  }

  /** The account in lower-case hexadecimal. */
  function HexText(hash: seq<byte>): (s: string)
    ensures |s| == 2 * |hash|
  {
    seq(|HexOf(hash)|, i requires 0 <= i < |HexOf(hash)| => HexChar(HexOf(hash)[i]))
  }

  lemma {:induction false} AllDigits(s: string)
    requires forall i | 0 <= i < |s| :: '0' <= s[i] <= '9'
    ensures DigitCount(s) == |s|
  {
    if s != "" { AllDigits(s[1..]); }
  }

  lemma DigitsRead(ds: seq<nat>)
    requires DigitsIn(ds, 10)
    ensures DigitCount(DecimalChars(ds)) == |ds| && DigitValues(DecimalChars(ds)) == ds
  {
    var s := DecimalChars(ds);
    forall i | 0 <= i < |s| ensures '0' <= s[i] <= '9' {
      assert ds[i] < 10;
    }
    AllDigits(s);
  }

  lemma PositiveRead(n: nat)
    requires n > 0
    ensures var s := DecimalChars(ToDigits(n, 10)); s != "" && '0' <= s[0] <= '9' && Magnitude(s) == Some(n)
  {
    var ds := ToDigits(n, 10);
    var s := DecimalChars(ds);
    ValueOfDigits(n, 10);
    DigitsRead(ds);
    assert ds[0] < 10;
    assert s[..|s|] == s;
  }

  lemma ZeroRead()
    ensures Magnitude("0") == Some(0)
  {
    DigitsRead([0]);
    var s := DecimalChars([0]);
    assert s == "0" && s[..1] == s;
    assert [0][..0] == [];
    assert FromDigits([0], 10) == 0;
  }

  lemma UnsignedRead(s: string, value: int)
    requires s != "" && '0' <= s[0] <= '9' && Magnitude(s) == Some(value)
    ensures ParseInt(s) == Some(value)
  {
    assert TrimLeft(s) == s;
  }

  lemma MinusRead(s: string, value: int)
    requires Magnitude(s) == Some(value)
    ensures ParseInt("-" + s) == Some(0 - value)
  {
    var t := "-" + s;
    assert TrimLeft(t) == t;
    assert t[1..] == s;
  }

  lemma DecimalRead(w: int)
    ensures ParseInt(Decimal(w)) == Some(w)
  {
    if w == 0 {
      ZeroRead();
      UnsignedRead("0", 0);
    } else {
      var n := if w < 0 then -w else w;
      PositiveRead(n);
      var s := DecimalChars(ToDigits(n, 10));
      if w < 0 { MinusRead(s, n); } else { UnsignedRead(s, n); }
    }
  }

  lemma {:induction false} PartEndAt(s: string, rest: string)
    requires (forall i | 0 <= i < |s| :: s[i] != ':') && (rest == "" || rest[0] == ':')
    ensures PartEnd(s + rest) == |s|
  {
    if s == "" {
      assert s + rest == rest;
    } else {
      PartEndAt(s[1..], rest);
      assert (s + rest)[1..] == s[1..] + rest;
    }
  }

  lemma DecimalHasNoColon(w: int)
    ensures forall i | 0 <= i < |Decimal(w)| :: Decimal(w)[i] != ':'
  {
    if w != 0 {
      var ds := ToDigits(if w < 0 then -w else w, 10);
      forall i | 0 <= i < |ds| ensures DecimalChars(ds)[i] != ':' { assert ds[i] < 10; }
    }
  }

  lemma {:induction false} HexBytes(b: seq<byte>)
    ensures FromHex(HexOf(b)) == b
  {
    hide HexOf, FromHex;
    if b == [] {
      NoHex();
    } else {
      var front, last := b[..|b| - 1], b[|b| - 1];
      HexBytes(front);
      assert b == front + [last];
      HexOfSnoc(front, last);
      FromHexSnoc(HexOf(front), last);
    }
  }

  lemma NoHex()
    ensures HexOf([]) == [] && FromHex([]) == []
  {
  }

  lemma HexOfSnoc(front: seq<byte>, last: byte)
    ensures HexOf(front + [last]) == HexOf(front) + [last / 16, last % 16]
  {
    var b := front + [last];
    assert b[..|b| - 1] == front && b[|b| - 1] == last;
  }

  lemma FromHexSnoc(ds: seq<nat>, last: byte)
    requires |ds| % 2 == 0 && DigitsIn(ds, 16)
    ensures FromHex(ds + [last / 16, last % 16]) == FromHex(ds) + [last]
  {
    hide FromHex;
    Nibbles(last);
    FromHexPair(ds, last / 16, last % 16);
  }

  lemma Nibbles(b: byte)
    ensures b / 16 < 16 && b / 16 * 16 + b % 16 == b
  {
  }

  lemma FromHexPair(ds: seq<nat>, high: nat, low: nat)
    requires |ds| % 2 == 0 && DigitsIn(ds, 16) && high < 16 && low < 16
    ensures FromHex(ds + [high, low]) == FromHex(ds) + [high * 16 + low]
  {
    hide FromHex;
    var all := ds + [high, low];
    FromHexLast(all);
    assert all[..|all| - 2] == ds;
  }

  lemma FromHexLast(ds: seq<nat>)
    requires ds != [] && |ds| % 2 == 0 && DigitsIn(ds, 16)
    ensures FromHex(ds) == FromHex(ds[..|ds| - 2]) + [ds[|ds| - 2] * 16 + ds[|ds| - 1]]
  {
  }

  lemma {:induction false} BytesHex(ds: seq<nat>)
    requires |ds| % 2 == 0 && DigitsIn(ds, 16)
    ensures HexOf(FromHex(ds)) == ds
  {
    if ds != [] {
      var front, n := ds[..|ds| - 2], |ds|;
      BytesHex(front);
      var last := ds[n - 2] * 16 + ds[n - 1];
      var b := FromHex(ds);
      assert b[..|b| - 1] == FromHex(front) && b[|b| - 1] == last;
      assert last / 16 == ds[n - 2] && last % 16 == ds[n - 1];
      assert ds == front + [ds[n - 2], ds[n - 1]];
    }
  }

  lemma HexCharRead(d: nat, c: char)
    requires d < 16
    ensures HexValueOf(c) == Some(d) <==> LowerChar(c) == HexChar(d)
  {
  }

  /** A text spells the account exactly when it is its hexadecimal, in letters of either case. */
  lemma HexTextRead(s: string, hash: seq<byte>)
    ensures IsHex(s) && HexValues(s) == HexOf(hash) <==> Lower(s) == HexText(hash)
  {
    if IsHex(s) && HexValues(s) == HexOf(hash) {
      forall i | 0 <= i < |s| ensures Lower(s)[i] == HexText(hash)[i] {
        HexCharRead(HexOf(hash)[i], s[i]);
      }
    }
    if Lower(s) == HexText(hash) {
      forall i | 0 <= i < |s| ensures HexValueOf(s[i]) == Some(HexOf(hash)[i]) {
        assert Lower(s)[i] == HexText(hash)[i];
        HexCharRead(HexOf(hash)[i], s[i]);
      }
      assert HexValues(s) == HexOf(hash);
    }
  }

  /** An address written with its workchain in decimal parses to exactly the account its text spells. */
  lemma AddressReadsBack(w: int, text: string, hash: seq<byte>)
    requires forall i | 0 <= i < |text| :: text[i] != ':'
    ensures ParseRawAddress(Decimal(w) + ":" + text) == Some((w, hash))
       <==> |hash| == 32 && Lower(text) == HexText(hash)
  {
    var address := Decimal(w) + ":" + text;
    AddressParts(w, text);
    HexTextRead(text, hash);
    if |text| == 64 && IsHex(text) {
      BytesHex(HexValues(text));
      HexBytes(hash);
    }
  }

  lemma AddressParts(w: int, text: string)
    requires forall i | 0 <= i < |text| :: text[i] != ':'
    ensures ParseRawAddress(Decimal(w) + ":" + text)
         == if |text| != 64 || !IsHex(text) then None else Some((w, FromHex(HexValues(text))))
  {
    var address := Decimal(w) + ":" + text;
    DecimalRead(w);
    DecimalHasNoColon(w);
    PartEndAt(Decimal(w), ":" + text);
    assert address == Decimal(w) + (":" + text);
    var n := |Decimal(w)|;
    assert address[..n] == Decimal(w) && address[n + 1..] == text;
    PartEndAt(text, "");
    assert text + "" == text && text[..|text|] == text;
  }

  // ---------- the verification ----------

  datatype Failure =
    | MalformedAddress | MalformedStateInit | DomainMismatch | PayloadMismatch
    | Expired | AddressKeyMismatch | BadSignature

  datatype Verdict = Valid | Invalid(reason: Failure) | Thrown

  /** A decoded state-init: its hash, and the keys found at the offsets of the known wallets. */
  datatype StateInit = StateInit(hash: seq<byte>, candidates: seq<seq<byte>>)

  datatype Input = Input(
    address: string,
    publicKey: seq<byte>,
    stateInit: Option<StateInit>,
    timestamp: int,
    domain: seq<byte>,
    payload: seq<byte>,
    signature: seq<byte>,
    expectedDomain: seq<byte>,
    expectedPayload: seq<byte>,
    maxAgeSeconds: int)

  /** What Ed25519 signs: a hash of a hash of the message, taken as determining the message. */
  datatype Digest = Digest(message: seq<byte>)

  function BindKeyToAddress(input: Input, hash: seq<byte>): Option<Failure> {
    if input.stateInit.None? || |input.publicKey| != 32 then Some(MalformedStateInit)
    else if input.stateInit.value.hash != hash then Some(AddressKeyMismatch)
    else if input.publicKey !in input.stateInit.value.candidates then Some(AddressKeyMismatch)
    else None
  }

  function PartsOf(input: Input, parsed: (int, seq<byte>)): Parts {
    Parts(parsed.0, parsed.1, input.domain, input.timestamp, input.payload)
  }

  /** `verifyTonProof` at a second of the server's clock, for a signature check of Ed25519. */
  function VerifyTonProof(input: Input, now: int, signed: (Digest, seq<byte>, seq<byte>) -> bool): Verdict {
    match ParseRawAddress(input.address)
    case None => Invalid(MalformedAddress)
    case Some(parsed) =>
      if input.domain != input.expectedDomain then Invalid(DomainMismatch)
      else if input.payload != input.expectedPayload then Invalid(PayloadMismatch)
      else if now - input.timestamp > input.maxAgeSeconds || now - input.timestamp < -input.maxAgeSeconds then
        Invalid(Expired)
      else
        match BindKeyToAddress(input, parsed.1)
        case Some(reason) => Invalid(reason)
        case None =>
          if |input.signature| != 64 then Invalid(BadSignature)
          else
            match Message(PartsOf(input, parsed))
            case None => Thrown
            case Some(message) =>
              if signed(Digest(message), input.signature, input.publicKey) then Valid else Invalid(BadSignature)
  }

  /** The message a wallet signed, when it states these parts and nothing else. */
  ghost predicate SignedOnly(signed: (Digest, seq<byte>, seq<byte>) -> bool, key: seq<byte>, parts: Parts) {
    forall d, s :: signed(d, s, key) ==> Message(parts) == Some(d.message)
  }

  /**
   * When a key has signed one message only, every proof accepted for that key is about that message:
   * its account, its workchain, the domain and the payload the server expected, and a time within the
   * server's limit. So what was signed for one attempt, site or account is accepted for no other.
   */
  lemma AcceptedIsWhatWasSigned(
      input: Input, now: int, signed: (Digest, seq<byte>, seq<byte>) -> bool, parts: Parts)
    requires |parts.hash| == 32
    requires VerifyTonProof(input, now, signed) == Valid && SignedOnly(signed, input.publicKey, parts)
    ensures ParseRawAddress(input.address) == Some((parts.workchain, parts.hash))
    ensures input.stateInit.Some? && input.stateInit.value.hash == parts.hash
    ensures input.publicKey in input.stateInit.value.candidates
    ensures parts.domain == input.expectedDomain && parts.payload == input.expectedPayload
    ensures -input.maxAgeSeconds <= now - parts.timestamp <= input.maxAgeSeconds
  {
    var stated := PartsOf(input, ParseRawAddress(input.address).value);
    assert signed(Digest(Message(stated).value), input.signature, input.publicKey);
    MessageIsInjective(stated, parts);
  }
}
