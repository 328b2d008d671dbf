/** Numbers as digit lists, and bytes as pairs of hexadecimal digits. */
module Numerals {
  type byte = x: int | 0 <= x < 256

  // ---------- positional notation ----------

  predicate DigitsIn(ds: seq<nat>, base: nat) {
    forall i | 0 <= i < |ds| :: ds[i] < base
  }

  /** The number a digit list stands for, most significant digit first. */
  function FromDigits(ds: seq<nat>, base: nat): nat {
    if ds == [] then 0 else FromDigits(ds[..|ds| - 1], base) * base + ds[|ds| - 1]
  }

  /** Its digits without leading zeros; none for zero. */
  function ToDigits(n: nat, base: nat): (ds: seq<nat>)
    requires base >= 2
    ensures DigitsIn(ds, base)
    ensures ds != [] ==> ds[0] != 0
    ensures ds == [] <==> n == 0
  {
    if n == 0 then []
    else
      DivSmaller(n, base);
      var front := ToDigits(n / base, base);
      assert front == [] ==> n < base && n % base == n by { if n / base == 0 { QuotientZero(n, base); } }
      front + [n % base]
  }

  lemma DivSmaller(n: nat, base: nat)
    requires n > 0 && base >= 2
    ensures 0 <= n / base < n && 0 <= n % base < base
  {
  }

  /** The bases in use: decimal, hexadecimal, base58 and bytes. */
  predicate Radix(base: nat) {
    base == 10 || base == 16 || base == 58 || base == 256
  }

  lemma DivMod(n: nat, base: nat)
    requires Radix(base)
    ensures n == n / base * base + n % base
  {
    if base == 10 {
      assert n == n / 10 * 10 + n % 10;
    } else if base == 16 {
      assert n == n / 16 * 16 + n % 16;
    } else if base == 58 {
      assert n == n / 58 * 58 + n % 58;
    } else {
      assert n == n / 256 * 256 + n % 256;
    }
  }

  lemma QuotientZero(n: nat, base: nat)
    requires base >= 2 && n / base == 0
    ensures n < base && n % base == n
  {
  }

  lemma {:induction false} ValueOfDigits(n: nat, base: nat)
    requires Radix(base)
    ensures FromDigits(ToDigits(n, base), base) == n
  {
    if n > 0 {
      DivSmaller(n, base);
      ValueOfDigits(n / base, base);
      var ds := ToDigits(n, base);
      assert ds[..|ds| - 1] == ToDigits(n / base, base);
      DivMod(n, base);
    }
  }

  lemma SplitDigit(q: nat, d: nat, base: nat)
    requires Radix(base) && d < base
    ensures (q * base + d) / base == q && (q * base + d) % base == d
  {
    if base == 10 {
      assert (q * 10 + d) / 10 == q && (q * 10 + d) % 10 == d;
    } else if base == 16 {
      assert (q * 16 + d) / 16 == q && (q * 16 + d) % 16 == d;
    } else if base == 58 {
      assert (q * 58 + d) / 58 == q && (q * 58 + d) % 58 == d;
    } else {
      assert (q * 256 + d) / 256 == q && (q * 256 + d) % 256 == d;
    }
  }

  function StripZeros(ds: seq<nat>): seq<nat> {
    if ds != [] && ds[0] == 0 then StripZeros(ds[1..]) else ds
  }

  lemma {:induction false} LeadingZero(ds: seq<nat>, base: nat)
    requires ds != [] && ds[0] == 0
    ensures FromDigits(ds, base) == FromDigits(ds[1..], base)
  {
    if |ds| > 1 {
      var n := |ds| - 1;
      LeadingZero(ds[..n], base);
      assert ds[..n][1..] == ds[1..][..n - 1];
    } else {
      assert ds[..0] == [] && ds[1..] == [];
    }
  }

  lemma {:induction false} PositiveValue(ds: seq<nat>, base: nat)
    requires base >= 2 && ds != [] && ds[0] != 0
    ensures FromDigits(ds, base) > 0
  {
    var n := |ds| - 1;
    if n > 0 {
      PositiveValue(ds[..n], base);
      Product(FromDigits(ds[..n], base), base);
    }
  }

  lemma Product(a: nat, base: nat)
    requires a > 0 && base > 0
    ensures a * base > 0
  {
  }

  /** The digits of a list's value are the list without its leading zeros. */
  lemma {:induction false} DigitsOfValue(ds: seq<nat>, base: nat)
    requires Radix(base) && DigitsIn(ds, base)
    ensures ToDigits(FromDigits(ds, base), base) == StripZeros(ds)
    decreases |ds|
  {
    if ds != [] {
      if ds[0] == 0 {
        LeadingZero(ds, base);
        DigitsOfValue(ds[1..], base);
      } else {
        var n := |ds| - 1;
        var front := ds[..n];
        DigitsOfValue(front, base);
        SplitDigit(FromDigits(front, base), ds[n], base);
        assert ds == front + [ds[n]];
        PositiveValue(ds, base);
        if n == 0 { assert front == []; } else { assert front[0] != 0; }
      }
    }
  }

  lemma FromDigitsSnoc(ds: seq<nat>, d: nat, base: nat)
    ensures FromDigits(ds + [d], base) == FromDigits(ds, base) * base + d
  {
    assert (ds + [d])[..|ds|] == ds;
  }

  // ---------- hexadecimal ----------

  /** `buffer.toString('hex')`, as digits. */
  function HexOf(b: seq<byte>): (ds: seq<nat>)
    ensures |ds| == 2 * |b| && DigitsIn(ds, 16)
  {
    if b == [] then [] else HexOf(b[..|b| - 1]) + [b[|b| - 1] / 16, b[|b| - 1] % 16]
  }

  /** `Buffer.from(hex, 'hex')` on an even number of digits. */
  function FromHex(ds: seq<nat>): seq<byte>
    requires |ds| % 2 == 0 && DigitsIn(ds, 16)
  {
    if ds == [] then [] else FromHex(ds[..|ds| - 2]) + [ds[|ds| - 2] * 16 + ds[|ds| - 1]]
  }

  function Nats(b: seq<byte>): (r: seq<nat>)
    ensures |r| == |b| && DigitsIn(r, 256) && forall i | 0 <= i < |b| :: r[i] == b[i]
  {
    seq(|b|, i requires 0 <= i < |b| => b[i])
  }

  lemma {:induction false} HexValue(b: seq<byte>)
    ensures FromDigits(HexOf(b), 16) == FromDigits(Nats(b), 256)
  {
    if b != [] {
      var n := |b| - 1;
      HexValue(b[..n]);
      var ds := HexOf(b);
      assert Nats(b)[..n] == Nats(b[..n]);
      assert ds[..|ds| - 1][..|ds| - 2] == HexOf(b[..n]);
      assert ds[..|ds| - 1][|ds| - 2] == b[n] / 16 && ds[|ds| - 1] == b[n] % 16;
      assert FromDigits(ds, 16) == (FromDigits(HexOf(b[..n]), 16) * 16 + b[n] / 16) * 16 + b[n] % 16;
    }
  }

  lemma {:induction false} FromHexValue(ds: seq<nat>)
    requires |ds| % 2 == 0 && DigitsIn(ds, 16)
    ensures FromDigits(Nats(FromHex(ds)), 256) == FromDigits(ds, 16)
    ensures |FromHex(ds)| == |ds| / 2
    ensures |ds| >= 2 ==> FromHex(ds)[0] == ds[0] * 16 + ds[1]
  {
    if ds != [] {
      var n := |ds|;
      FromHexValue(ds[..n - 2]);
      var b := FromHex(ds);
      assert Nats(b)[..|b| - 1] == Nats(FromHex(ds[..n - 2]));
      assert ds[..n - 1][..n - 2] == ds[..n - 2];
      if n == 2 { assert ds[..0] == []; }
    }
  }
}
