/** The base58 helpers of did:key identifiers (src/identity/did.service.ts). */
module Base58 {
  import opened Numerals
  import opened Wrappers

  // ---------- numbers and bytes ----------

  /** `num.toString(16)` */
  function HexDigits(n: nat): (ds: seq<nat>)
    ensures DigitsIn(ds, 16) && ds != []
  {
    if n == 0 then [0] else ToDigits(n, 16)
  }

  /** `hex.padStart(hex.length + (hex.length % 2), '0')` */
  function PadEven(ds: seq<nat>): (r: seq<nat>)
    requires DigitsIn(ds, 16)
    ensures |r| % 2 == 0 && DigitsIn(r, 16)
  {
    if |ds| % 2 == 1 then [0] + ds else ds
  }

  /** The bytes of a number: none leading zero, but one zero byte for zero itself. */
  function BytesOf(n: nat): seq<byte> {
    FromHex(PadEven(HexDigits(n)))
  }

  lemma BytesOfValue(n: nat)
    ensures Nats(BytesOf(n)) == if n == 0 then [0] else ToDigits(n, 256)
  {
    var padded := PadEven(HexDigits(n));
    FromHexValue(padded);
    var b := Nats(BytesOf(n));
    if n == 0 {
      assert padded == [0, 0];
    } else {
      ValueOfDigits(n, 16);
      if |HexDigits(n)| % 2 == 1 {
        LeadingZero(padded, 16);
        assert padded[1..] == HexDigits(n);
      }
      assert FromDigits(b, 256) == n;
      DigitsOfValue(b, 256);
      assert b[0] == padded[0] * 16 + padded[1] != 0;
    }
  }

  // ---------- the alphabet ----------

  /** The character for a digit: digits and letters without 0, I, O and l. */
  function Symbol(d: nat): char
    requires d < 58
  {
    if d < 9 then '1' + d as char
    else if d < 17 then 'A' + (d - 9) as char
    else if d < 22 then 'J' + (d - 17) as char
    else if d < 33 then 'P' + (d - 22) as char
    else if d < 44 then 'a' + (d - 33) as char
    else 'm' + (d - 44) as char
  }

  /** `ALPHABET.indexOf(char)`, with None for -1. */
  function IndexOf(c: char): (r: Option<nat>)
    ensures r.Some? ==> r.value < 58
  {
    if '1' <= c <= '9' then Some((c - '1') as nat)
    else if 'A' <= c <= 'H' then Some((c - 'A') as nat + 9)
    else if 'J' <= c <= 'N' then Some((c - 'J') as nat + 17)
    else if 'P' <= c <= 'Z' then Some((c - 'P') as nat + 22)
    else if 'a' <= c <= 'k' then Some((c - 'a') as nat + 33)
    else if 'm' <= c <= 'z' then Some((c - 'm') as nat + 44)
    else None
  }

  lemma SymbolIndex(d: nat, c: char)
    requires d < 58
    ensures IndexOf(c) == Some(d) <==> c == Symbol(d)
  {
  }

  function Symbols(ds: seq<nat>): (s: string)
    requires DigitsIn(ds, 58)
    ensures |s| == |ds| && forall i | 0 <= i < |ds| :: s[i] == Symbol(ds[i])
  {
    seq(|ds|, i requires 0 <= i < |ds| => Symbol(ds[i]))
  }

  predicate InAlphabet(s: string) {
    forall c | c in s :: IndexOf(c).Some?
  }

  function Indices(s: string): (ds: seq<nat>)
    requires InAlphabet(s)
    ensures |ds| == |s| && DigitsIn(ds, 58) && forall i | 0 <= i < |s| :: IndexOf(s[i]) == Some(ds[i])
  {
    if s == "" then []
    else
      assert s[0] in s;
      var ds := [IndexOf(s[0]).value] + Indices(s[1..]);
      assert forall i | 1 <= i < |s| :: s[i] == s[1..][i - 1];
      ds
  }

  // ---------- the two helpers ----------

  function LeadingZeros(b: seq<byte>): nat {
    if b != [] && b[0] == 0 then 1 + LeadingZeros(b[1..]) else 0
  }

  function Ones(n: nat): string {
    if n == 0 then "" else Ones(n - 1) + ['1']
  }

  function SymbolsOf(n: nat): string {
    Symbols(ToDigits(n, 58))
  }

  /** `toBase58`; an empty buffer is no number, and throws (None). */
  function Encoded(b: seq<byte>): Option<string> {
    if b == [] then None
    else Some(Ones(LeadingZeros(b)) + SymbolsOf(FromDigits(HexOf(b), 16)))
  }

  method ToBase58(buffer: seq<byte>) returns (r: Option<string>)
    ensures r == Encoded(buffer)
  {
    if buffer == [] {
      return None;
    }
    var total := FromDigits(HexOf(buffer), 16);
    var num := total;
    var result := "";
    EmptySymbols(total);
    while num > 0
      invariant SymbolsOf(total) == SymbolsOf(num) + result
    {
      SymbolStep(num);
      var remainder := num % 58;
      num := num / 58;
      result := [Symbol(remainder)] + result;
    }
    assert SymbolsOf(0) + result == result;
    assert result == SymbolsOf(total);
    result := WithLeadingOnes(buffer, result);
    r := Some(result);
  }

  method WithLeadingOnes(buffer: seq<byte>, digits: string) returns (result: string)
    ensures result == Ones(LeadingZeros(buffer)) + digits
  {
    result := digits;
    var i := 0;
    assert buffer[0..] == buffer;
    assert Ones(0) + digits == digits;
    while i < |buffer| && buffer[i] == 0
      invariant 0 <= i <= |buffer|
      invariant i + LeadingZeros(buffer[i..]) == LeadingZeros(buffer)
      invariant result == Ones(i) + digits
    {
      assert buffer[i..][1..] == buffer[i + 1..];
      OnesFront(i);
      assert ['1'] + (Ones(i) + digits) == (['1'] + Ones(i)) + digits;
      result := ['1'] + result;
      i := i + 1;
    }
  }

  lemma EmptySymbols(n: nat)
    ensures SymbolsOf(n) == SymbolsOf(n) + ""
  {
  }

  lemma SymbolStep(n: nat)
    requires n > 0
    ensures SymbolsOf(n) == SymbolsOf(n / 58) + [Symbol(n % 58)]
  {
    DivSmaller(n, 58);
    SymbolsSnoc(ToDigits(n / 58, 58), n % 58);
  }

  lemma {:induction false} OnesFront(n: nat)
    ensures ['1'] + Ones(n) == Ones(n + 1)
  {
    if n > 0 { OnesFront(n - 1); }
  }

  lemma SymbolsSnoc(ds: seq<nat>, d: nat)
    requires DigitsIn(ds, 58) && d < 58
    ensures Symbols(ds + [d]) == Symbols(ds) + [Symbol(d)]
  {
  }

  /** `fromBase58`; None where it throws on a foreign character. */
  function Decoded(s: string): Option<seq<byte>> {
    if !InAlphabet(s) then None else Some(BytesOf(FromDigits(Indices(s), 58)))
  }

  method FromBase58(str: string) returns (r: Option<seq<byte>>)
    ensures r == Decoded(str)
  {
    var num: nat := 0;
    for i := 0 to |str|
      invariant InAlphabet(str[..i]) && num == FromDigits(Indices(str[..i]), 58)
    {
      var index := IndexOf(str[i]);
      if index.None? {
        assert str[i] in str;
        return None;
      }
      assert str[..i + 1] == str[..i] + [str[i]];
      IndicesSnoc(str[..i], str[i]);
      num := num * 58 + index.value;
    }
    assert str[..|str|] == str;
    r := Some(FromHex(PadEven(HexDigits(num))));
  }

  lemma {:induction false} IndicesSnoc(s: string, c: char)
    requires InAlphabet(s) && IndexOf(c).Some?
    ensures InAlphabet(s + [c]) && Indices(s + [c]) == Indices(s) + [IndexOf(c).value]
    ensures FromDigits(Indices(s + [c]), 58) == FromDigits(Indices(s), 58) * 58 + IndexOf(c).value
  {
    assert InAlphabet(s + [c]);
    var ds := Indices(s + [c]);
    forall i | 0 <= i < |s| ensures ds[i] == Indices(s)[i] {
      assert (s + [c])[i] == s[i];
    }
    assert (s + [c])[|s|] == c;
    assert ds == Indices(s) + [IndexOf(c).value];
    FromDigitsSnoc(Indices(s), IndexOf(c).value, 58);
  }

  // ---------- round trips ----------

  lemma {:induction false} IndicesOfOnes(n: nat)
    ensures InAlphabet(Ones(n)) && FromDigits(Indices(Ones(n)), 58) == 0
  {
    hide FromDigits, Indices, InAlphabet;
    if n == 0 {
      NothingRead();
    } else {
      IndicesOfOnes(n - 1);
      OneMoreOne(Ones(n - 1));
    }
  }

  lemma NothingRead()
    ensures InAlphabet("") && FromDigits(Indices(""), 58) == 0 && FromDigits([], 58) == 0
  {
  }

  lemma OneMoreOne(s: string)
    requires InAlphabet(s) && FromDigits(Indices(s), 58) == 0
    ensures InAlphabet(s + ['1']) && FromDigits(Indices(s + ['1']), 58) == 0
  {
    hide FromDigits, Indices, InAlphabet;
    IndicesSnoc(s, '1');
  }

  lemma SymbolRead(front: string, ds: seq<nat>, d: nat)
    requires InAlphabet(front) && d < 58 && DigitsIn(ds, 58)
    requires FromDigits(Indices(front), 58) == FromDigits(ds, 58)
    ensures InAlphabet(front + [Symbol(d)])
    ensures FromDigits(Indices(front + [Symbol(d)]), 58) == FromDigits(ds + [d], 58)
  {
    SymbolIndex(d, Symbol(d));
    IndicesSnoc(front, Symbol(d));
    FromDigitsSnoc(ds, d, 58);
  }

  lemma OnesThenSnoc(ones: string, ds: seq<nat>, d: nat)
    requires DigitsIn(ds, 58) && d < 58
    ensures ones + Symbols(ds + [d]) == (ones + Symbols(ds)) + [Symbol(d)]
  {
    SymbolsSnoc(ds, d);
  }

  lemma {:induction false} IndicesOfDigits(n: nat, ds: seq<nat>)
    requires DigitsIn(ds, 58)
    ensures InAlphabet(Ones(n) + Symbols(ds))
    ensures FromDigits(Indices(Ones(n) + Symbols(ds)), 58) == FromDigits(ds, 58)
  {
    hide FromDigits, Indices, InAlphabet, IndexOf;
    if ds == [] {
      IndicesOfOnes(n);
      NothingRead();
      assert Ones(n) + Symbols(ds) == Ones(n);
    } else {
      var front, d := ds[..|ds| - 1], ds[|ds| - 1];
      IndicesOfDigits(n, front);
      assert ds == front + [d];
      OnesThenSnoc(Ones(n), front, d);
      SymbolRead(Ones(n) + Symbols(front), front, d);
    }
  }

  /** Decoding an encoded buffer gives the bytes of the number the buffer stands for. */
  lemma DecodeValue(b: seq<byte>)
    requires b != []
    ensures Decoded(Encoded(b).value) == Some(BytesOf(FromDigits(Nats(b), 256)))
  {
    var v := FromDigits(HexOf(b), 16);
    HexValue(b);
    IndicesOfDigits(LeadingZeros(b), ToDigits(v, 58));
    ValueOfDigits(v, 58);
  }

  /** That is, the buffer without its leading zero bytes, or one zero byte when all of it is zero. */
  lemma DecodeOfEncode(b: seq<byte>)
    requires b != []
    ensures Encoded(b).Some? && Decoded(Encoded(b).value).Some?
    ensures Nats(Decoded(Encoded(b).value).value)
         == if StripZeros(Nats(b)) == [] then [0] else StripZeros(Nats(b))
  {
    DecodeValue(b);
    BytesOfValue(FromDigits(Nats(b), 256));
    DigitsOfValue(Nats(b), 256);
  }

  /** So exactly the buffers without a leading zero byte, and the single zero byte, come back as they were. */
  lemma RoundTripExactly(b: seq<byte>)
    requires b != []
    ensures Encoded(b).Some?
    ensures Decoded(Encoded(b).value) == Some(b) <==> b[0] != 0 || b == [0]
  {
    DecodeOfEncode(b);
    NatsInjective(Decoded(Encoded(b).value).value, b);
    StripShortens(Nats(b));
    if b[0] == 0 && |b| == 1 {
      assert Nats(b) == [0] && b == [0];
    }
  }

  lemma NatsInjective(a: seq<byte>, b: seq<byte>)
    ensures Nats(a) == Nats(b) <==> a == b
  {
    if Nats(a) == Nats(b) {
      assert |a| == |b|;
      forall i | 0 <= i < |a| ensures a[i] == b[i] { assert Nats(a)[i] == Nats(b)[i]; }
    }
  }

  lemma {:induction false} StripShortens(ds: seq<nat>)
    ensures |StripZeros(ds)| <= |ds|
    ensures ds != [] && ds[0] == 0 ==> |StripZeros(ds)| < |ds|
  {
    if ds != [] && ds[0] == 0 { StripShortens(ds[1..]); }
  }

  lemma SymbolsOfIndices(s: string)
    requires InAlphabet(s)
    ensures Symbols(Indices(s)) == s
  {
    forall i | 0 <= i < |s| ensures Symbols(Indices(s))[i] == s[i] { SymbolIndex(Indices(s)[i], s[i]); }
  }

  lemma EncodedByValue(b: seq<byte>, n: nat)
    requires b != [] && FromDigits(Nats(b), 256) == n
    ensures Encoded(b) == Some(Ones(LeadingZeros(b)) + SymbolsOf(n))
  {
    HexValue(b);
  }

  lemma EncodeOfZeroByte()
    ensures Encoded([0]) == Some("1")
  {
    assert Nats([0])[..0] == [];
    EncodedByValue([0], 0);
    var b: seq<byte> := [0];
    assert b[1..] == [];
    assert LeadingZeros(b[1..]) == 0;
    assert LeadingZeros(b) == 1;
    assert Ones(0) == "";
    assert Ones(1) == "1";
    assert SymbolsOf(0) == "";
    assert "1" + SymbolsOf(0) == "1";
  }

  lemma EncodedWithoutZeros(b: seq<byte>, n: nat)
    requires b != [] && b[0] != 0 && FromDigits(Nats(b), 256) == n
    ensures Encoded(b) == Some(SymbolsOf(n))
  {
    EncodedByValue(b, n);
    assert Ones(LeadingZeros(b)) == "";
    assert "" + SymbolsOf(n) == SymbolsOf(n);
  }

  /** Encoding the bytes of a number writes that number, and "1" for zero. */
  lemma EncodeOfBytes(n: nat)
    ensures BytesOf(n) != []
    ensures Encoded(BytesOf(n)) == Some(if n == 0 then "1" else SymbolsOf(n))
  {
    var b := BytesOf(n);
    BytesOfValue(n);
    assert Nats(b) != [];
    if n == 0 {
      NatsInjective(b, [0]);
      assert Nats([0]) == [0];
      EncodeOfZeroByte();
    } else {
      ValueOfDigits(n, 256);
      assert Nats(b)[0] == b[0] != 0;
      EncodedWithoutZeros(b, n);
    }
  }

  /** Encoding what a base58 text decodes to gives the text without its leading ones, and "1" for none left. */
  lemma EncodeOfDecode(s: string)
    requires InAlphabet(s)
    ensures Decoded(s).Some?
    ensures Encoded(Decoded(s).value) == Some(if StripOnes(s) == "" then "1" else StripOnes(s))
  {
    DigitsOfValue(Indices(s), 58);
    EncodeOfBytes(FromDigits(Indices(s), 58));
    StrippedIndices(s);
    SymbolsOfIndices(StripOnes(s));
  }

  /** So exactly the texts that do not begin with '1', and "1" itself, come back as they were. */
  lemma TextRoundTripExactly(s: string)
    requires InAlphabet(s)
    ensures Decoded(s).Some?
    ensures Encoded(Decoded(s).value) == Some(s) <==> s == "1" || (s != "" && s[0] != '1')
  {
    EncodeOfDecode(s);
    StripOnesShortens(s);
  }

  function StripOnes(s: string): string {
    if s != "" && s[0] == '1' then StripOnes(s[1..]) else s
  }

  lemma {:induction false} StripOnesShortens(s: string)
    ensures |StripOnes(s)| <= |s|
    ensures s != "" && s[0] == '1' ==> |StripOnes(s)| < |s|
  {
    if s != "" && s[0] == '1' { StripOnesShortens(s[1..]); }
  }

  lemma {:induction false} StrippedIndices(s: string)
    requires InAlphabet(s)
    ensures InAlphabet(StripOnes(s)) && Indices(StripOnes(s)) == StripZeros(Indices(s))
  {
    if s != "" {
      SymbolIndex(0, s[0]);
      assert Indices(s)[1..] == Indices(s[1..]);
      if s[0] == '1' { StrippedIndices(s[1..]); }
    }
  }
}
