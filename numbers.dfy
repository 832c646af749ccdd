/** The .NET integer parsers `int.TryParse` and `ushort.TryParse` with the
  * default `NumberStyles.Integer`: optional white space around the number,
  * one optional leading sign, at least one decimal digit, and a range check
  * against the target type. Also decimal formatting of naturals, and C#'s
  * integer division, which truncates toward zero. */
module Numbers {
  import opened Wrappers
  import opened Strings

  const Int32Min: int := -0x8000_0000
  const Int32Max: int := 0x7FFF_FFFF
  const UInt16Max: int := 0xFFFF

  predicate AllDigits(s: string) {
    forall i :: 0 <= i < |s| ==> IsDigit(s[i])
  }

  /** The value of a digit string, most significant digit first. */
  function DigitsValue(s: string): (n: nat)
    requires AllDigits(s)
  {
    if s == [] then 0
    else DigitsValue(s[..|s| - 1]) * 10 + (s[|s| - 1] as int - '0' as int)
  }

  /** Parses the text of an integer of any size, or fails. */
  function ParseInteger(s: string): (r: Option<int>)
    ensures r.Some? ==> |s| > 0
  {
    var t := Trim(s);
    if |t| == 0 then None
    else if t[0] == '-' || t[0] == '+' then
      var ds := t[1..];
      if |ds| > 0 && AllDigits(ds) then
        var v: int := DigitsValue(ds);
        Some(if t[0] == '-' then -v else v)
      else None
    else if AllDigits(t) then
      Some(DigitsValue(t))
    else None
  }

  /** `int.TryParse`: `None` is the `false` return. */
  function TryParseInt32(s: string): (r: Option<int>)
    ensures r.Some? ==> Int32Min <= r.value <= Int32Max
    ensures r.Some? ==> ParseInteger(s) == r
  {
    match ParseInteger(s)
    case Some(v) => if Int32Min <= v <= Int32Max then Some(v) else None
    case None => None
  }

  /** `ushort.TryParse`: `None` is the `false` return. */
  function TryParseUInt16(s: string): (r: Option<int>)
    ensures r.Some? ==> 0 <= r.value <= UInt16Max
    ensures r.Some? ==> ParseInteger(s) == r
  {
    match ParseInteger(s)
    case Some(v) => if 0 <= v <= UInt16Max then Some(v) else None
    case None => None
  }

  function DigitChar(d: nat): (c: char)
    requires d < 10
    ensures IsDigit(c) && c as int - '0' as int == d
  {
    ('0' as int + d) as char
  }

  /** Text `ushort.TryParse` accepts, `int.TryParse` accepts with the same
    * value. */
  lemma UInt16ParseIsInt32Parse(s: string)
    requires TryParseUInt16(s).Some?
    ensures TryParseInt32(s) == TryParseUInt16(s)
  {
  }

  /** Decimal text of a natural number, as `ToString()` writes it. */
  function NatToString(n: nat): (s: string)
    ensures |s| >= 1 && AllDigits(s)
  {
    if n < 10 then [DigitChar(n)] else NatToString(n / 10) + [DigitChar(n % 10)]
  }

  lemma {:induction false} DigitsOfNatToString(n: nat)
    ensures DigitsValue(NatToString(n)) == n
  {
    if n >= 10 {
      var s := NatToString(n);
      assert s[..|s| - 1] == NatToString(n / 10);
      DigitsOfNatToString(n / 10);
    }
  }

  /** Parsing the text of a natural gives the natural back. */
  lemma ParseNatToString(n: nat)
    ensures ParseInteger(NatToString(n)) == Some(n)
  {
    var s := NatToString(n);
    assert TrimStart(s) == s;
    assert TrimEnd(s) == s;
    DigitsOfNatToString(n);
  }

  /** Formatting a port number and parsing it back with `ushort.TryParse`
    * gives the port. */
  lemma UInt16RoundTrip(n: nat)
    requires n <= UInt16Max
    ensures TryParseUInt16(NatToString(n)) == Some(n)
  {
    ParseNatToString(n);
  }

  /** Decimal text of any integer, as `int.ToString()` writes it. */
  function IntToString(n: int): (s: string)
    ensures |s| >= 1
    ensures n >= 0 ==> s == NatToString(n)
    ensures n < 0 ==> s[0] == '-' && AllDigits(s[1..])
    ensures forall i :: 0 <= i < |s| ==> s[i] == '-' || IsDigit(s[i])
  {
    if n < 0 then "-" + NatToString(-n) else NatToString(n)
  }

  /** Formatting an `int` and parsing it back with `int.TryParse` gives the
    * number. */
  lemma Int32RoundTrip(n: int)
    requires Int32Min <= n <= Int32Max
    ensures TryParseInt32(IntToString(n)) == Some(n)
  {
    ParseIntToString(n);
  }

  lemma ParseIntToString(n: int)
    ensures ParseInteger(IntToString(n)) == Some(n)
  {
    if n >= 0 {
      ParseNatToString(n);
    } else {
      var s := IntToString(n);
      assert TrimStart(s) == s;
      assert TrimEnd(s) == s;
      assert s[1..] == NatToString(-n);
      DigitsOfNatToString(-n);
    }
  }

  /** C#'s `/` on `int`, which truncates toward zero. */
  function TruncDiv(a: int, b: int): (q: int)
    requires b != 0
    ensures b > 0 && a >= 0 ==> q == a / b
    ensures (a >= 0) == (b > 0) ==> q >= 0
    ensures (if q < 0 then -q else q) * (if b < 0 then -b else b) <= (if a < 0 then -a else a)
  {
    var qa := (if a < 0 then -a else a) / (if b < 0 then -b else b);
    if (a < 0) == (b < 0) then qa else -qa
  }

  /** A nonzero multiple of `n` is at least `n` away from zero. */
  lemma MulAwayFromZero(k: int, n: int)
    requires n > 0
    ensures k >= 1 ==> k * n >= n
    ensures k <= -1 ==> k * n <= -n
  {
    if k >= 1 {
      assert k * n == n + (k - 1) * n;
      assert (k - 1) * n >= 0;
    } else if k <= -1 {
      assert k * n == -n + (k + 1) * n;
      assert (k + 1) * n <= 0;
    }
  }

  /** Euclidean division is unique. */
  lemma ModUnique(a: int, n: int, q: int, r: int)
    requires n > 0 && 0 <= r < n && a == q * n + r
    ensures a % n == r
  {
    var q2, r2 := a / n, a % n;
    assert (q - q2) * n == r2 - r;
    MulAwayFromZero(q - q2, n);
  }

  /** Advancing a wrapped counter by one is wrapping the advanced count. */
  lemma ModSucc(a: nat, n: nat)
    requires n > 0
    ensures (a % n + 1) % n == (a + 1) % n
  {
    var q, r := a / n, a % n;
    assert a + 1 == q * n + (r + 1);
    if r + 1 < n {
      ModUnique(r + 1, n, 0, r + 1);
      ModUnique(a + 1, n, q, r + 1);
    } else {
      assert (q + 1) * n == q * n + n;
      ModUnique(n, n, 1, 0);
      ModUnique(a + 1, n, q + 1, 0);
    }
  }
}
