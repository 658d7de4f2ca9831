/** Text formatting the client relies on: `%d` for integers and the
    conversion of a response body (bytes) to a string. */
module Format {

  newtype byte = x: int | 0 <= x < 256

  predicate IsDigit(c: char) {
    '0' <= c <= '9'
  }

  predicate AllDigits(s: string) {
    forall i :: 0 <= i < |s| ==> IsDigit(s[i])
  }

  function DigitChar(d: nat): (c: char)
    requires d < 10
    ensures IsDigit(c) && c as int - '0' as int == d
  {
    ('0' as int + d) as char
  }

  /** Decimal digits of `n`, most significant first, without leading zeros. */
  function NatToString(n: nat): (s: string)
    ensures |s| > 0 && AllDigits(s)
    ensures n >= 10 ==> s[0] != '0'
    decreases n
  {
    if n < 10 then [DigitChar(n)] else NatToString(n / 10) + [DigitChar(n % 10)]
  }

  /** Go's `%d` verb: a minus sign for negative values, then the digits. */
  function IntToString(i: int): (s: string)
    ensures |s| > 0
    ensures s[0] == '-' <==> i < 0
    ensures i >= 0 ==> AllDigits(s)
  {
    if i < 0 then "-" + NatToString(-i) else NatToString(i)
  }

  /** Reads a string of decimal digits back as a number. */
  function ParseNat(s: string): nat
    requires AllDigits(s)
    decreases |s|
  {
    if s == [] then 0 else ParseNat(s[..|s| - 1]) * 10 + (s[|s| - 1] as int - '0' as int)
  }

  /** The decimal rendering loses nothing: it reads back as the same number. */
  lemma {:induction false} ParseNatToString(n: nat)
    ensures ParseNat(NatToString(n)) == n
    decreases n
  {
    var s := NatToString(n);
    if n >= 10 {
      ParseNatToString(n / 10);
      assert s[..|s| - 1] == NatToString(n / 10);
    } else {
      assert s[..|s| - 1] == [];
    }
  }

  /** Distinct integers render differently under `%d`. */
  lemma IntToStringInjective(a: int, b: int)
    requires IntToString(a) == IntToString(b)
    ensures a == b
  {
    if a >= 0 && b >= 0 {
      ParseNatToString(a);
      ParseNatToString(b);
    } else if a < 0 && b < 0 {
      assert NatToString(-a) == IntToString(a)[1..];
      assert NatToString(-b) == IntToString(b)[1..];
      ParseNatToString(-a);
      ParseNatToString(-b);
    }
  }

  /** Where two equal concatenations overlap, the second part of the one
      agrees with the first part of the other. */
  lemma OverlapAgrees(x: string, p: string, y: string, q: string, i: nat)
    requires x + p == y + q && |x| <= i < |y|
    ensures p[i - |x|] == y[i]
  {
    assert (x + p)[i] == p[i - |x|];
    assert (y + q)[i] == y[i];
  }

  /** A run of digits followed by a non-digit can be read off the text, so
      two such texts that are equal start with the same digits. */
  lemma {:induction false} DigitsBeforeSeparator(x: string, p: string, y: string, q: string)
    requires AllDigits(x) && AllDigits(y)
    requires p != [] && q != [] && !IsDigit(p[0]) && !IsDigit(q[0])
    requires x + p == y + q
    ensures x == y
  {
    if |x| < |y| {
      OverlapAgrees(x, p, y, q, |x|);
      assert false;
    } else if |y| < |x| {
      OverlapAgrees(y, q, x, p, |y|);
      assert false;
    } else {
      assert x == (x + p)[..|x|];
      assert y == (y + q)[..|y|];
    }
  }

  /** A number written with `%d` between a fixed prefix and a separator that
      starts with a non-digit can be read back from the text, whatever
      follows the separator. */
  lemma NumberAfterPrefixDetermined(prefix: string, a: nat, b: nat, sep: string, p: string, q: string)
    requires sep != [] && !IsDigit(sep[0])
    requires prefix + IntToString(a) + sep + p == prefix + IntToString(b) + sep + q
    ensures a == b
  {
    var x, y := IntToString(a), IntToString(b);
    var t := prefix + x + sep + p;
    assert t == prefix + (x + (sep + p));
    assert t == prefix + (y + (sep + q));
    assert x + (sep + p) == t[|prefix|..] == y + (sep + q);
    DigitsBeforeSeparator(x, sep + p, y, sep + q);
    IntToStringInjective(a, b);
  }

  /** Go's `string(b)` for a byte slice: one character per byte, same code. */
  function BytesToString(b: seq<byte>): (s: string)
    ensures |s| == |b|
    ensures forall i :: 0 <= i < |b| ==> s[i] as int == b[i] as int
  {
    seq(|b|, i requires 0 <= i < |b| => (b[i] as int) as char)
  }
}
