/**
 * Decimal integers as text: how Go's `%d` and JavaScript's template
 * interpolation print an integer, and how Go's `strconv.Atoi` (64-bit `int`)
 * and JavaScript's `parseInt(s, 10)` read one back.
 */
module Numbers {
  import opened Wrappers
  import opened Text

  const Int64Min: int := -0x8000_0000_0000_0000
  const Int64Max: int := 0x7FFF_FFFF_FFFF_FFFF

  predicate IsDigit(c: char) {
    '0' <= c <= '9'
  }

  predicate AllDigits(s: string) {
    forall i :: 0 <= i < |s| ==> IsDigit(s[i])
  }

  function DigitChar(d: nat): (c: char)
    requires d < 10
    ensures IsDigit(c)
  {
    ('0' as int + d) as char
  }

  /** The value of a string of decimal digits (leading zeros allowed). */
  function DigitsValue(s: string): nat
    requires AllDigits(s)
  {
    if s == [] then 0 else DigitsValue(s[..|s| - 1]) * 10 + (s[|s| - 1] as int - '0' as int)
  }

  /** Decimal digits of a natural number, without leading zeros. */
  function NatToDecimal(n: nat): (s: string)
    ensures |s| >= 1 && AllDigits(s)
    ensures |s| > 1 ==> s[0] != '0'
  {
    if n < 10 then [DigitChar(n)] else NatToDecimal(n / 10) + [DigitChar(n % 10)]
  }

  /** `fmt.Sprintf("%d", n)` and `${n}` for an integer: an optional minus sign, then the digits. */
  function IntToDecimal(n: int): (s: string)
    ensures |s| >= 1 && (AllDigits(s) || (s[0] == '-' && AllDigits(s[1..])))
    ensures '\n' !in s && '"' !in s
  {
    if n < 0 then "-" + NatToDecimal(-n) else NatToDecimal(n)
  }

  /** Reading the printed digits back gives the number. */
  lemma {:induction false} DigitsValueOfDecimal(n: nat)
    ensures DigitsValue(NatToDecimal(n)) == n
  {
    if n >= 10 {
      DigitsValueOfDecimal(n / 10);
      var s := NatToDecimal(n);
      assert s[..|s| - 1] == NatToDecimal(n / 10);
    }
  }

  /**
   * Go's `strconv.Atoi` on a 64-bit platform: an optional sign and at least one
   * decimal digit, nothing else, in the range of a 64-bit `int`. `None` is the
   * error result (syntax error or value out of range).
   */
  function Atoi(s: string): (r: Option<int>)
    ensures r.Some? ==> Int64Min <= r.value <= Int64Max
    ensures r.Some? ==> |s| > 0 && '_' !in s && !IsJsSpace(s[0])
  {
    if |s| == 0 then None
    else
      var body := if s[0] == '-' || s[0] == '+' then s[1..] else s;
      if |body| == 0 || !AllDigits(body) then None
      else
        var m: int := DigitsValue(body);
        var v := if s[0] == '-' then -m else m;
        if Int64Min <= v <= Int64Max then Some(v) else None
  }

  /** The longest prefix of `s` made of decimal digits. */
  function LeadingDigits(s: string): (d: string)
    ensures d <= s && AllDigits(d)
    ensures |d| == |s| || !IsDigit(s[|d|])
  {
    if |s| > 0 && IsDigit(s[0]) then [s[0]] + LeadingDigits(s[1..]) else []
  }

  /**
   * JavaScript's `parseInt(s, 10)`: skip leading white space, take an optional
   * sign, then the longest run of decimal digits; `None` is `NaN` (no digits).
   * `-0` is the integer 0 here, which prints the same.
   */
  function ParseInt(s: string): (r: Option<int>)
  {
    ParseTrimmed(TrimStart(s))
  }

  /** `parseInt` after the leading white space is gone. */
  function ParseTrimmed(t: string): (r: Option<int>)
  {
    var u := if |t| > 0 && (t[0] == '-' || t[0] == '+') then t[1..] else t;
    var z := LeadingDigits(u);
    if |z| == 0 then None
    else
      var v: int := DigitsValue(z);
      Some(if |t| > 0 && t[0] == '-' then -v else v)
  }

  /** Go reads back what it prints, for every 64-bit integer. */
  lemma {:induction false} AtoiOfDecimal(n: int)
    requires Int64Min <= n <= Int64Max
    ensures Atoi(IntToDecimal(n)) == Some(n)
  {
    if n < 0 {
      DigitsValueOfDecimal(-n);
      AtoiNegative(NatToDecimal(-n));
    } else {
      DigitsValueOfDecimal(n);
      AtoiUnsigned(NatToDecimal(n));
    }
  }

  /** Unsigned digits in range are read as their value. */
  lemma {:induction false} AtoiUnsigned(d: string)
    requires |d| > 0 && AllDigits(d) && DigitsValue(d) <= Int64Max
    ensures Atoi(d) == Some(DigitsValue(d))
  {
    assert IsDigit(d[0]);
  }

  /** A minus sign in front of digits in range gives the negated value. */
  lemma {:induction false} AtoiNegative(d: string)
    requires |d| > 0 && AllDigits(d) && DigitsValue(d) <= -Int64Min
    ensures Atoi("-" + d) == Some(-(DigitsValue(d) as int))
  {
    var s := "-" + d;
    assert s[0] == '-' && s[1..] == d;
  }

  /** JavaScript's `parseInt` reads back every printed integer. */
  lemma {:induction false} ParseIntOfDecimal(n: int)
    ensures ParseInt(IntToDecimal(n)) == Some(n)
  {
    var s := IntToDecimal(n);
    var d := NatToDecimal(if n < 0 then -n else n);
    DigitsValueOfDecimal(if n < 0 then -n else n);
    AllDigitsLeading(d);
    assert !IsJsSpace(s[0]);
    assert TrimStart(s) == s;
    if n < 0 {
      assert s == "-" + d && s[1..] == d;
    } else {
      assert s == d;
    }
  }

  /** A string of digits is its own longest digit prefix. */
  lemma {:induction false} AllDigitsLeading(s: string)
    requires AllDigits(s)
    ensures LeadingDigits(s) == s
  {
    if |s| > 0 {
      AllDigitsLeading(s[1..]);
    }
  }

  /**
   * On a plain run of digits that fits in 64 bits the two parsers agree; they
   * part ways on leading white space and on trailing non-digits.
   */
  lemma {:induction false} AtoiAgreesWithParseInt(s: string)
    requires |s| > 0 && AllDigits(s) && DigitsValue(s) <= Int64Max
    ensures Atoi(s) == ParseInt(s) == Some(DigitsValue(s))
  {
    assert !IsJsSpace(s[0]);
    assert TrimStart(s) == s;
    AllDigitsLeading(s);
  }

  /** A digit followed by a non-digit: JavaScript reads the one digit, Go reports an error. */
  lemma {:induction false} DigitThenNonDigit(s: string)
    requires |s| >= 2 && IsDigit(s[0]) && !IsDigit(s[1])
    ensures Atoi(s) == None
    ensures ParseInt(s) == Some(s[0] as int - '0' as int)
  {
    assert !IsJsSpace(s[0]);
    assert TrimStart(s) == s;
    assert LeadingDigits(s) == [s[0]] + LeadingDigits(s[1..]);
    assert LeadingDigits(s[1..]) == [];
    var d := [s[0]];
    assert d[..0] == [];
    assert DigitsValue(d) == s[0] as int - '0' as int;
  }

  /** JavaScript's `parseInt` skips a leading white-space character. */
  lemma {:induction false} ParseIntSkipsSpace(s: string)
    requires |s| > 0 && IsJsSpace(s[0])
    ensures ParseInt(s) == ParseInt(s[1..])
  {
    assert TrimStart(s) == TrimStart(s[1..]);
  }
}
