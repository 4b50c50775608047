/** The general helpers of `smallwm/utils.py` that the configuration code
    uses: the layer bound for class actions and `positive_int`. */
module Utils {
  import opened Wrappers
  import opened Text

  /** The highest layer a class action may request (user windows use
      1..109, dialogs 110..119). */
  const MAX_LAYER: int := 119

  /** The value of a digit or letter as a digit in bases up to 36; any
      other character gets 36, which is a digit of no base. */
  function DigitValue(c: char): (v: nat)
    ensures v <= 36
  {
    if '0' <= c <= '9' then c as int - '0' as int
    else if 'a' <= c <= 'z' then c as int - 'a' as int + 10
    else if 'A' <= c <= 'Z' then c as int - 'A' as int + 10
    else 36
  }

  /** Digits of `base` separated by single underscores, as Python accepts
      them in an integer literal (`digit ("_"? digit)*`), and their value;
      None when `s` does not have that shape. */
  function ParseDigits(s: string, base: nat): Option<nat>
  {
    if |s| == 0 || DigitValue(s[|s| - 1]) >= base then None
    else if |s| == 1 then Some(DigitValue(s[0]))
    else
      var front := if s[|s| - 2] == '_' then s[..|s| - 2] else s[..|s| - 1];
      match ParseDigits(front, base)
      case None => None
      case Some(v) => Some(v * base + DigitValue(s[|s| - 1]))
  }

  /** Digits after a `0x`, `0o` or `0b` prefix: Python allows one
      underscore straight after the prefix. */
  function ParsePrefixed(s: string, base: nat): Option<nat>
  {
    if |s| > 0 && s[0] == '_' then ParseDigits(s[1..], base) else ParseDigits(s, base)
  }

  /** Python's default `sys.get_int_max_str_digits()` (3.11 and later):
      `int()` refuses a decimal literal with more digits than this. */
  const INT_MAX_STR_DIGITS: nat := 4300

  /** The number of digits in a literal, its underscores not counted. */
  function DigitCount(s: string): nat
  {
    if |s| == 0 then 0
    else DigitCount(s[..|s| - 1]) + (if s[|s| - 1] == '_' then 0 else 1)
  }

  /** A literal without underscores has as many digits as characters. */
  lemma {:induction false} DigitCountPlain(s: string)
    requires forall i :: 0 <= i < |s| ==> s[i] != '_'
    ensures DigitCount(s) == |s|
  {
    if |s| > 0 {
      DigitCountPlain(s[..|s| - 1]);
    }
  }

  /** An unsigned literal as `int(text, 0)` reads it: the base comes from
      the prefix, and an unprefixed literal that starts with `0` may hold
      only zeros.  Only an unprefixed literal, whose base 10 is not a
      power of two, is subject to the digit limit. */
  function ParseLiteral(s: string): Option<nat>
  {
    if |s| >= 2 && s[0] == '0' && (s[1] == 'x' || s[1] == 'X') then ParsePrefixed(s[2..], 16)
    else if |s| >= 2 && s[0] == '0' && (s[1] == 'o' || s[1] == 'O') then ParsePrefixed(s[2..], 8)
    else if |s| >= 2 && s[0] == '0' && (s[1] == 'b' || s[1] == 'B') then ParsePrefixed(s[2..], 2)
    else if DigitCount(s) > INT_MAX_STR_DIGITS then None
    else if |s| >= 1 && s[0] == '0' then
      if ParseDigits(s, 10) == Some(0) then Some(0) else None
    else ParseDigits(s, 10)
  }

  /** The ASCII information separators U+001C..U+001F.  `str.isspace()`
      counts them as spaces, but `int()` skips only the C-locale spaces
      and the non-ASCII spaces, so `int()` stops at one of these and
      refuses the text. */
  predicate IsInfoSeparator(c: char) {
    '\U{1C}' <= c <= '\U{1F}'
  }

  /** The text holds no information separator. */
  predicate NoInfoSeparator(s: string) {
    forall c :: c in s ==> !IsInfoSeparator(c)
  }

  /** Python's `int(text, 0)`: surrounding spaces, an optional sign, then
      a literal; None where Python raises ValueError.  Without information
      separators, the spaces `int()` skips are those `strip()` drops. */
  function ParseInt(text: string): Option<int>
  {
    var t := Strip(text);
    if !NoInfoSeparator(text) then None
    else if |t| > 0 && (t[0] == '-' || t[0] == '+') then
      match ParseLiteral(t[1..])
      case None => None
      case Some(v) =>
        var signed: int := if t[0] == '-' then -(v as int) else v;
        Some(signed)
    else
      match ParseLiteral(t)
      case None => None
      case Some(v) => Some(v)
  }

  /** `positive_int(text)`: the integer `text` denotes, when it denotes one
      above zero; ValueError otherwise. */
  function PositiveInt(text: string): (r: Result<int>)
    ensures r.Ok? ==> r.value > 0
    ensures r.Err? ==> r.error == ValueError
    ensures r.Ok? <==> ParseInt(text).Some? && ParseInt(text).value > 0
    ensures r.Ok? ==> ParseInt(text) == Some(r.value)
  {
    match ParseInt(text)
    case None => Err(ValueError)
    case Some(v) => if v <= 0 then Err(ValueError) else Ok(v)
  }

  // ---------------------------------------------------------------------
  // Printing a number, the partner of parsing it.

  /** The digit character of `d` in bases up to 16 (lower-case letters). */
  function DigitChar(d: nat): (c: char)
    requires d < 16
    ensures DigitValue(c) == d
  {
    if d < 10 then ('0' as int + d) as char else ('a' as int + d - 10) as char
  }

  /** Division by a base of at least two shrinks a number that is not
      below it, and the quotient and remainder rebuild it. */
  lemma DivMod(n: nat, base: nat)
    requires 2 <= base <= n
    ensures 0 < n / base < n && n % base < base
    ensures (n / base) * base + n % base == n
  {
  }

  /** `n` written in `base` without leading zeros or underscores. */
  function DigitString(n: nat, base: nat): (s: string)
    requires 2 <= base <= 16
    ensures |s| >= 1
    ensures forall i :: 0 <= i < |s| ==> DigitValue(s[i]) < base && s[i] != '_'
    ensures n > 0 ==> s[0] != '0'
    decreases n
  {
    if n < base then [DigitChar(n)]
    else
      DivMod(n, base);
      DigitString(n / base, base) + [DigitChar(n % base)]
  }

  /** Reading back a number written in any base gives the number. */
  lemma {:induction false} ParseDigitString(n: nat, base: nat)
    requires 2 <= base <= 16
    ensures ParseDigits(DigitString(n, base), base) == Some(n)
    decreases n
  {
    var s := DigitString(n, base);
    if n >= base {
      DivMod(n, base);
      var q, d := n / base, n % base;
      var front := DigitString(q, base);
      ParseDigitString(q, base);
      assert s == front + [DigitChar(d)];
      assert s[..|s| - 1] == front;
      assert s[|s| - 2] == front[|front| - 1] != '_';
    }
  }

  /** No space starts or ends a written number, no sign starts it, and
      it holds no information separator. */
  lemma DigitStringUnspaced(n: nat, base: nat)
    requires 2 <= base <= 16
    ensures var s := DigitString(n, base);
      && !IsSpace(s[0]) && !IsSpace(s[|s| - 1]) && s[0] != '-' && s[0] != '+'
      && NoInfoSeparator(s)
  {
    var s := DigitString(n, base);
    assert DigitValue(s[0]) < base && DigitValue(s[|s| - 1]) < base;
  }

  /** An unsigned literal with no surrounding space is read as its value. */
  lemma PositiveIntOfLiteral(s: string, n: nat)
    requires n > 0 && ParseLiteral(s) == Some(n)
    requires Strip(s) == s && |s| > 0 && s[0] != '-' && s[0] != '+'
    requires NoInfoSeparator(s)
    ensures PositiveInt(s) == Ok(n)
  {
  }

  /** `positive_int` reads back every positive number written in decimal
      within Python's digit limit. */
  lemma PositiveIntDecimal(n: nat)
    requires n > 0 && |DigitString(n, 10)| <= INT_MAX_STR_DIGITS
    ensures PositiveInt(DigitString(n, 10)) == Ok(n)
  {
    var s := DigitString(n, 10);
    DigitStringUnspaced(n, 10);
    StripUnspaced(s);
    ParseDigitString(n, 10);
    DigitCountPlain(s);
    assert ParseLiteral(s) == Some(n);
    PositiveIntOfLiteral(s, n);
  }

  /** A number is never written with more digits than one above itself,
      so every small number is within the digit limit. */
  lemma {:induction false} DigitStringLength(n: nat, base: nat)
    requires 2 <= base <= 16
    ensures |DigitString(n, base)| <= n + 1
    decreases n
  {
    if n >= base {
      DivMod(n, base);
      DigitStringLength(n / base, base);
    }
  }

  /** A decimal literal with more digits than Python's limit is refused,
      whatever its value. */
  lemma PositiveIntRefusesLongDecimal(s: string)
    requires |s| > 0 && '1' <= s[0] <= '9'
    requires forall i :: 0 <= i < |s| ==> '0' <= s[i] <= '9' || s[i] == '_'
    requires DigitCount(s) > INT_MAX_STR_DIGITS
    ensures PositiveInt(s) == Err(ValueError)
    ensures PositiveInt("-" + s) == Err(ValueError)
  {
    assert ParseLiteral(s) == None;
    assert NoInfoSeparator(s) by {
      forall c | c in s ensures !IsInfoSeparator(c) {
        var i :| 0 <= i < |s| && s[i] == c;
      }
    }
    StripUnspaced(s);
    assert ParseInt(s) == None;
    var t := "-" + s;
    assert t[1..] == s && t[|t| - 1] == s[|s| - 1];
    assert NoInfoSeparator(t) by {
      forall c | c in t ensures !IsInfoSeparator(c) {
        var i :| 0 <= i < |t| && t[i] == c;
        if i > 0 { assert t[i] == s[i - 1]; }
      }
    }
    StripUnspaced(t);
    assert ParseInt(t) == None;
  }

  /** 4301 ones, one digit over the limit, are refused. */
  lemma PositiveIntRefusesTooManyDigits()
    ensures PositiveInt(seq(4301, _ => '1')) == Err(ValueError)
  {
    var s: string := seq(4301, _ => '1');
    DigitCountPlain(s);
    PositiveIntRefusesLongDecimal(s);
  }

  /** A number written in hexadecimal after `0x` is read back as a literal. */
  lemma HexLiteral(n: nat)
    ensures ParseLiteral("0x" + DigitString(n, 16)) == Some(n)
  {
    var d := DigitString(n, 16);
    var s := "0x" + d;
    assert s[..2] == "0x" && s[2..] == d;
    assert d[0] != '_';
    ParseDigitString(n, 16);
  }

  /** A hexadecimal number after `0x` has no space around it, no sign
      and no information separator. */
  lemma HexTextPlain(n: nat)
    ensures var s := "0x" + DigitString(n, 16);
      && Strip(s) == s && |s| > 0 && s[0] == '0' && NoInfoSeparator(s)
  {
    var d := DigitString(n, 16);
    var s := "0x" + d;
    DigitStringUnspaced(n, 16);
    assert s[|s| - 1] == d[|d| - 1];
    NoInfoSeparatorJoin("0x", d);
    StripUnspaced(s);
  }

  /** `positive_int` reads back every positive number written in hexadecimal
      after `0x`, the form the configuration tests use. */
  lemma PositiveIntHex(n: nat)
    requires n > 0
    ensures PositiveInt("0x" + DigitString(n, 16)) == Ok(n)
  {
    HexLiteral(n);
    HexTextPlain(n);
    PositiveIntOfLiteral("0x" + DigitString(n, 16), n);
  }

  /** A hexadecimal prefix and a text without an information separator
      join into one. */
  lemma NoInfoSeparatorJoin(a: string, b: string)
    requires a == "0x" && NoInfoSeparator(b)
    ensures NoInfoSeparator(a + b)
  {
    assert a == ['0', 'x'];
    forall c | c in a + b
      ensures !IsInfoSeparator(c)
    {
      var i :| 0 <= i < |a + b| && (a + b)[i] == c;
      if i < |a| { assert a[i] == c; } else { assert b[i - |a|] == c; }
    }
  }

  /** An information separator before or after a number makes it
      invalid, although `strip()` would drop it; so does one after the
      `layer:` of a class action. */
  lemma PositiveIntRefusesInfoSeparators()
    ensures PositiveInt("\U{1C}12") == Err(ValueError)
    ensures PositiveInt("12\U{1F}") == Err(ValueError)
    ensures PositiveInt("\U{1C}5") == Err(ValueError)
  {
    assert !NoInfoSeparator("\U{1C}12") by {
      assert "\U{1C}12"[0] in "\U{1C}12";
    }
    assert !NoInfoSeparator("12\U{1F}") by {
      assert "12\U{1F}"[2] in "12\U{1F}";
    }
    assert !NoInfoSeparator("\U{1C}5") by {
      assert "\U{1C}5"[0] in "\U{1C}5";
    }
  }

  /** Zero and negative numbers are refused, whatever base they are written in. */
  lemma PositiveIntRefusesNonPositive(text: string)
    requires ParseInt(text).Some? && ParseInt(text).value <= 0
    ensures PositiveInt(text) == Err(ValueError)
  {
  }

  /** `12` is twelve in base 10 and eighteen in base 16. */
  lemma DigitsTwelve()
    ensures ParseDigits("12", 10) == Some(12)
    ensures ParseDigits("12", 16) == Some(18)
    ensures DigitCount("12") == 2
  {
    assert "12"[..1] == "1";
  }

  /** The configuration tests read `12` as twelve. */
  lemma PositiveIntTwelve()
    ensures PositiveInt("12") == Ok(12)
  {
    assert ParseLiteral("12") == Some(12) by {
      DigitsTwelve();
    }
    assert ParseInt("12") == Some(12) by {
      StripUnspaced("12");
    }
  }

  /** The configuration tests read `0x12` as eighteen. */
  lemma PositiveIntHexTwelve()
    ensures PositiveInt("0x12") == Ok(18)
  {
    assert ParseLiteral("0x12") == Some(18) by {
      DigitsTwelve();
      assert "0x12"[2..] == "12";
    }
    assert ParseInt("0x12") == Some(18) by {
      StripUnspaced("0x12");
    }
  }

  /** Zero itself is refused, and so is the configuration tests' `-12`. */
  lemma PositiveIntRefusesZeroAndNegative()
    ensures PositiveInt("0") == Err(ValueError)
    ensures PositiveInt("-12") == Err(ValueError)
  {
    assert ParseInt("0") == Some(0) by {
      assert ParseLiteral("0") == Some(0);
      StripUnspaced("0");
    }
    assert ParseInt("-12") == Some(-12) by {
      assert ParseLiteral("12") == Some(12) by {
        DigitsTwelve();
      }
      assert "-12"[1..] == "12";
      StripUnspaced("-12");
    }
  }

  /** The configuration tests refuse the decimal fraction `1.27`. */
  lemma PositiveIntRefusesFraction()
    ensures PositiveInt("1.27") == Err(ValueError)
  {
    assert ParseDigits("1.27", 10) == None by {
      assert ParseDigits("1.2", 10) == None by {
        assert "1.2"[..2] == "1.";
        assert ParseDigits("1.", 10) == None;
      }
      assert "1.27"[..3] == "1.2";
    }
    assert ParseInt("1.27") == None by {
      assert ParseLiteral("1.27") == None;
      StripUnspaced("1.27");
    }
  }

  /** The configuration tests refuse the exponent form `1e2`. */
  lemma PositiveIntRefusesExponent()
    ensures PositiveInt("1e2") == Err(ValueError)
  {
    assert ParseDigits("1e2", 10) == None by {
      assert "1e2"[..2] == "1e";
      assert ParseDigits("1e", 10) == None;
    }
    assert ParseInt("1e2") == None by {
      assert ParseLiteral("1e2") == None;
      StripUnspaced("1e2");
    }
  }

  /** The configuration tests refuse words such as `not-a-number`. */
  lemma PositiveIntRefusesWords()
    ensures PositiveInt("not-a-number") == Err(ValueError)
  {
    assert ParseInt("not-a-number") == None by {
      assert ParseLiteral("not-a-number") == None;
      StripUnspaced("not-a-number");
    }
  }
}
