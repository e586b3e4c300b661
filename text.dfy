/** The string operations the client performs through Python built-ins:
    `str(int)`, `bytes.hex()`, `str.rstrip("/")` and `":".join(...)`. */
module Text {

  type byte = bv8

  predicate IsDigit(c: char) {
    '0' <= c <= '9'
  }

  predicate IsLowerHexChar(c: char) {
    '0' <= c <= '9' || 'a' <= c <= 'f'
  }

  /** Every character is one of `0-9a-f`, as `hexdigest()` and `hex()` produce. */
  predicate IsLowerHex(s: string) {
    forall i :: 0 <= i < |s| ==> IsLowerHexChar(s[i])
  }

  // ---------------------------------------------------------------------
  // str(n) for integers

  function DigitChar(d: nat): (c: char)
    requires d < 10
    ensures IsDigit(c) && (c as int) - ('0' as int) == d
  {
    "0123456789"[d]
  }

  /** Python `str(n)` for a non-negative integer: shortest decimal numeral. */
  function Decimal(n: nat): (s: string)
    ensures |s| >= 1
    ensures forall i :: 0 <= i < |s| ==> IsDigit(s[i])
    ensures |s| > 1 ==> s[0] != '0'
    decreases n
  {
    if n < 10 then [DigitChar(n)] else Decimal(n / 10) + [DigitChar(n % 10)]
  }

  /** Reads a string of decimal digits back as a number (reference inverse). */
  function ParseDecimal(s: string): nat
    decreases |s|
  {
    if s == [] then 0
    else
      var c := s[|s| - 1];
      var d := if IsDigit(c) then (c as int) - ('0' as int) else 0;
      10 * ParseDecimal(s[..|s| - 1]) + d
  }

  lemma {:induction false} ParseDecimalOfDecimal(n: nat)
    ensures ParseDecimal(Decimal(n)) == n
    decreases n
  {
    var s := Decimal(n);
    if n >= 10 {
      ParseDecimalOfDecimal(n / 10);
      assert s[..|s| - 1] == Decimal(n / 10);
    }
  }

  /** Distinct timestamps render as distinct numerals. */
  lemma DecimalInjective(m: nat, n: nat)
    requires Decimal(m) == Decimal(n)
    ensures m == n
  {
    ParseDecimalOfDecimal(m);
    ParseDecimalOfDecimal(n);
  }

  /** Python `str(i)` for any integer. */
  function IntText(i: int): (s: string)
    ensures |s| >= 1 && ':' !in s
    ensures i >= 0 ==> s == Decimal(i)
    ensures i < 0 ==> s == "-" + Decimal(-i)
  {
    if i < 0 then "-" + Decimal(-i) else Decimal(i)
  }

  /** Reference inverse of `IntText`. */
  function ParseInt(s: string): int {
    if |s| > 0 && s[0] == '-' then -(ParseDecimal(s[1..]) as int) else ParseDecimal(s)
  }

  lemma ParseIntOfIntText(i: int)
    ensures ParseInt(IntText(i)) == i
  {
    if i < 0 {
      ParseIntOfNegative(-i);
    } else {
      ParseDecimalOfDecimal(i);
      assert IsDigit(Decimal(i)[0]);
    }
  }

  lemma ParseIntOfNegative(n: nat)
    requires n > 0
    ensures ParseInt("-" + Decimal(n)) == -(n as int)
  {
    var d := Decimal(n);
    var s := "-" + d;
    assert s[0] == '-' && s[1..] == d;
    ParseDecimalOfDecimal(n);
  }

  // ---------------------------------------------------------------------
  // bytes.hex()

  function HexDigitChar(d: nat): (c: char)
    requires d < 16
    ensures IsLowerHexChar(c)
  {
    "0123456789abcdef"[d]
  }

  /** Python `bytes.hex()`: two lowercase hex digits per byte, high nibble first. */
  function HexOfBytes(bs: seq<byte>): (s: string)
    ensures |s| == 2 * |bs|
    ensures IsLowerHex(s)
    ensures forall k :: 0 <= k < |bs| ==>
      s[2 * k] == HexDigitChar(bs[k] as int / 16) && s[2 * k + 1] == HexDigitChar(bs[k] as int % 16)
  {
    if bs == [] then ""
    else [HexDigitChar(bs[0] as int / 16), HexDigitChar(bs[0] as int % 16)] + HexOfBytes(bs[1..])
  }

  // ---------------------------------------------------------------------
  // str.rstrip("/")

  /** Python `s.rstrip("/")`: drops every trailing `/`. */
  function StripTrailingSlashes(s: string): (r: string)
    ensures r <= s
    ensures r == [] || r[|r| - 1] != '/'
    ensures forall i :: |r| <= i < |s| ==> s[i] == '/'
    decreases |s|
  {
    if |s| > 0 && s[|s| - 1] == '/' then StripTrailingSlashes(s[..|s| - 1]) else s
  }

  /** Stripping is idempotent: a stripped URL is left as it is. */
  lemma StripTrailingSlashesIdempotent(s: string)
    ensures StripTrailingSlashes(StripTrailingSlashes(s)) == StripTrailingSlashes(s)
  {
  }

  /** The three properties of `StripTrailingSlashes` pin its result down:
      any prefix of `s` that does not end in `/` and is followed only by `/`
      is the stripped string. */
  lemma StripTrailingSlashesUnique(s: string, r: string)
    requires r <= s
    requires r == [] || r[|r| - 1] != '/'
    requires forall i :: |r| <= i < |s| ==> s[i] == '/'
    ensures StripTrailingSlashes(s) == r
  {
  }

  // ---------------------------------------------------------------------
  // sep.join(parts)

  /** Python `sep.join(parts)`. */
  function Join(sep: string, parts: seq<string>): string
    decreases |parts|
  {
    if parts == [] then ""
    else if |parts| == 1 then parts[0]
    else parts[0] + sep + Join(sep, parts[1..])
  }

  /** Joining five fields with `:` writes them out in order, separated by `:`. */
  lemma JoinFive(a: string, b: string, c: string, d: string, e: string)
    ensures Join(":", [a, b, c, d, e]) == a + ":" + b + ":" + c + ":" + d + ":" + e
  {
    assert Join(":", [e]) == e;
    assert [d, e][1..] == [e];
    assert Join(":", [d, e]) == d + ":" + e;
    assert [c, d, e][1..] == [d, e];
    assert Join(":", [c, d, e]) == c + ":" + d + ":" + e;
    assert [b, c, d, e][1..] == [c, d, e];
    assert Join(":", [b, c, d, e]) == b + ":" + c + ":" + d + ":" + e;
    assert [a, b, c, d, e][1..] == [b, c, d, e];
  }

  /** When the last field contains no separator, a joined string determines
      that field and the text before the last separator. */
  lemma SplitAtLastColon(x: string, y: string, x': string, y': string)
    requires ':' !in y && ':' !in y'
    requires x + ":" + y == x' + ":" + y'
    ensures x == x' && y == y'
  {
    var s := x + ":" + y;
    // the last `:` of s sits just before y, and just before y'
    assert s[|s| - |y| - 1] == ':' && s[|s| - |y'| - 1] == ':';
    assert forall j :: |s| - |y| <= j < |s| ==> s[j] == y[j - (|s| - |y|)] != ':';
    assert forall j :: |s| - |y'| <= j < |s| ==> s[j] == y'[j - (|s| - |y'|)] != ':';
    assert y == s[|s| - |y|..] == y';
    assert x == s[..|x|] == x';
  }
}
