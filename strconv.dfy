/** The Go `strconv`/`fmt` conversions the bot uses: `%q` quoting, `%d`
    formatting (`strconv.Itoa`) and `strconv.Atoi`. */
module Strconv {
  import opened Outcomes

  const HexDigits: string := "0123456789abcdef"

  /** How `strconv.Quote` writes one character inside the quotes. */
  function QuoteChar(c: char): string
  {
    var n := c as int;
    if c == '"' then "\\\""
    else if c == '\\' then "\\\\"
    else if n == 0x07 then "\\a"
    else if n == 0x08 then "\\b"
    else if n == 0x0C then "\\f"
    else if c == '\n' then "\\n"
    else if c == '\r' then "\\r"
    else if c == '\t' then "\\t"
    else if n == 0x0B then "\\v"
    else if n < 0x20 || n == 0x7F then "\\x" + [HexDigits[n / 16], HexDigits[n % 16]]
    else [c]
  }

  function QuoteBody(s: string): string
  {
    if |s| == 0 then "" else QuoteChar(s[0]) + QuoteBody(s[1..])
  }

  /** Go's `%q` of a string (`strconv.Quote`). */
  function Quote(s: string): string
  {
    "\"" + QuoteBody(s) + "\""
  }

  /** A printable ASCII character that `%q` writes unchanged. */
  predicate IsPlain(c: char)
  {
    0x20 <= c as int <= 0x7E && c != '"' && c != '\\'
  }

  /** Printable ASCII text without quotes or backslashes is quoted verbatim. */
  lemma {:induction false} QuotePlain(s: string)
    requires forall i :: 0 <= i < |s| ==> IsPlain(s[i])
    ensures Quote(s) == "\"" + s + "\""
  {
    QuoteBodyPlain(s);
  }

  lemma {:induction false} QuoteBodyPlain(s: string)
    requires forall i :: 0 <= i < |s| ==> IsPlain(s[i])
    ensures QuoteBody(s) == s
  {
    if |s| > 0 {
      QuoteBodyPlain(s[1..]);
      assert s == [s[0]] + s[1..];
    }
  }

  function DigitChar(d: nat): char
    requires d < 10
  {
    "0123456789"[d]
  }

  predicate IsDigit(c: char)
  {
    '0' <= c <= '9'
  }

  /** Decimal digits of `n` without sign or leading zeros (`strconv.Itoa` for n >= 0). */
  function NatToString(n: nat): (s: string)
    ensures |s| > 0 && AllDigits(s)
  {
    if n < 10 then [DigitChar(n)] else NatToString(n / 10) + [DigitChar(n % 10)]
  }

  /** `strconv.Itoa(n)`, also what `%d` prints. */
  function IntToString(n: int): (s: string)
    ensures n < 0 ==> |s| > 1 && s[0] == '-' && s[1..] == NatToString(-n)
    ensures n >= 0 ==> s == NatToString(n)
  {
    if n < 0 then "-" + NatToString(-n) else NatToString(n)
  }

  predicate AllDigits(s: string)
  {
    forall i :: 0 <= i < |s| ==> IsDigit(s[i])
  }

  function DigitValue(c: char): nat
    requires IsDigit(c)
  {
    c as int - '0' as int
  }

  /** The value of a string of decimal digits, most significant first. */
  function DigitsValue(ds: string): nat
    requires AllDigits(ds)
  {
    if |ds| == 0 then 0
    else DigitsValue(ds[..|ds| - 1]) * 10 + DigitValue(ds[|ds| - 1])
  }

  lemma {:induction false} DigitsValueOfNat(n: nat)
    ensures DigitsValue(NatToString(n)) == n
  {
    var s := NatToString(n);
    if n >= 10 {
      DigitsValueOfNat(n / 10);
      assert s[..|s| - 1] == NatToString(n / 10);
    }
  }

  const MinInt64: int := -0x8000_0000_0000_0000
  const MaxInt64: int := 0x7FFF_FFFF_FFFF_FFFF

  /** `strconv.Atoi` on a 64-bit platform: an optional sign, then one or more
      decimal digits, and a value that fits in 64 bits. */
  function Atoi(s: string): (r: Result<int>)
    ensures r.Ok? ==> MinInt64 <= r.value <= MaxInt64
    ensures |s| == 0 ==> r.Err?
  {
    var neg := |s| > 0 && s[0] == '-';
    var digits := if |s| > 0 && (s[0] == '+' || s[0] == '-') then s[1..] else s;
    if |digits| == 0 || !AllDigits(digits) then
      Err("strconv.Atoi: parsing " + Quote(s) + ": invalid syntax")
    else
      var v: int := if neg then -(DigitsValue(digits) as int) else DigitsValue(digits);
      if v < MinInt64 || v > MaxInt64 then
        Err("strconv.Atoi: parsing " + Quote(s) + ": value out of range")
      else Ok(v)
  }

  /** `Atoi` reads back what `Itoa` writes, for every 64-bit integer. */
  lemma AtoiItoa(n: int)
    requires MinInt64 <= n <= MaxInt64
    ensures Atoi(IntToString(n)) == Ok(n)
  {
    if n < 0 {
      NegativeRoundTrip(-n);
    } else {
      UnsignedRoundTrip(n);
    }
  }

  lemma UnsignedRoundTrip(m: nat)
    requires m <= MaxInt64
    ensures Atoi(IntToString(m)) == Ok(m)
  {
    DigitsValueOfNat(m);
    AtoiUnsigned(NatToString(m));
  }

  lemma NegativeRoundTrip(m: nat)
    requires 0 < m <= -MinInt64
    ensures Atoi(IntToString(-(m as int))) == Ok(-(m as int))
  {
    DigitsValueOfNat(m);
    AtoiNegative(IntToString(-(m as int)));
  }

  /** A digit string without sign reads as its value, when that fits. */
  lemma AtoiUnsigned(ds: string)
    requires |ds| > 0 && AllDigits(ds) && DigitsValue(ds) <= MaxInt64
    ensures Atoi(ds) == Ok(DigitsValue(ds) as int)
  {
    assert IsDigit(ds[0]);
    assert ds[0] != '+' && ds[0] != '-';
    var v := DigitsValue(ds) as int;
    assert Atoi(ds) == if v < MinInt64 || v > MaxInt64 then Err("strconv.Atoi: parsing " + Quote(ds) + ": value out of range") else Ok(v);
  }

  /** A minus sign and a digit string read as the negated value, when that fits. */
  lemma AtoiNegative(s: string)
    requires |s| > 1 && s[0] == '-' && AllDigits(s[1..]) && -(DigitsValue(s[1..]) as int) >= MinInt64
    ensures Atoi(s) == Ok(-(DigitsValue(s[1..]) as int))
  {
  }
}
