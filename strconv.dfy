/** Go's `strconv.Atoi` and `strconv.Itoa` on a platform whose `int` has 64 bits. */
module Strconv {

  import opened Strings

  const MaxInt64: int := 0x7fff_ffff_ffff_ffff
  const MinInt64: int := -0x8000_0000_0000_0000
  const MaxUint64: int := 0xffff_ffff_ffff_ffff

  /** `MaxUint64 / 10 + 1`: from this value on, one more decimal digit overflows. */
  const Cutoff: int := MaxUint64 / 10 + 1

  predicate InInt64(n: int) { MinInt64 <= n <= MaxInt64 }

  /** What `strconv.ParseUint(s, 10, 64)` reports: a value, a syntax error or a range error. */
  datatype Parsed = Value(n: nat) | SyntaxError | RangeError

  function DigitValue(c: char): (d: nat)
    requires IsDigit(c)
    ensures d < 10
  {
    c as int - '0' as int
  }

  /** One turn of ParseUint's loop: reject a non-digit, then stop at the first overflow. */
  function Step(p: Parsed, c: char): Parsed
  {
    match p
    case Value(v) =>
      if !IsDigit(c) then SyntaxError
      else if v >= Cutoff then RangeError
      else if v * 10 + DigitValue(c) > MaxUint64 then RangeError
      else Value(v * 10 + DigitValue(c))
    case _ => p
  }

  /**
   * The digit loop of ParseUint, read from the right: the verdict on a prefix is final,
   * so the leftmost failure decides, as in the left-to-right loop.
   */
  function Scan(s: string): (p: Parsed)
    ensures p.Value? ==> p.n <= MaxUint64 && AllDigits(s)
    ensures AllDigits(s) ==> !p.SyntaxError?
  {
    if s == [] then Value(0) else Step(Scan(s[..|s| - 1]), s[|s| - 1])
  }

  /** `strconv.ParseUint(s, 10, 64)`. */
  function ParseUint(s: string): (r: Parsed)
    ensures r.Value? ==> |s| > 0 && AllDigits(s) && r.n <= MaxUint64
    ensures r.SyntaxError? ==> s == [] || !AllDigits(s)
    ensures s == [] ==> r.SyntaxError?
    ensures |s| > 0 && AllDigits(s) ==> !r.SyntaxError?
  {
    if s == [] then SyntaxError else Scan(s)
  }

  /** The text `Atoi` hands to `ParseUint`: `s` without one leading `+` or `-`. */
  function Unsigned(s: string): (d: string)
    ensures |d| <= |s|
  {
    if |s| > 0 && (s[0] == '+' || s[0] == '-') then s[1..] else s
  }

  /**
   * `strconv.Atoi(s)` with its error discarded, as the plugin uses it: 0 on a syntax
   * error, the value clamped to the 64-bit range on a range error, and the value otherwise.
   */
  function Atoi(s: string): (n: int)
    ensures InInt64(n)
  {
    if s == [] then 0
    else
      var neg := s[0] == '-';
      var digits := Unsigned(s);
      match ParseUint(digits)
      case SyntaxError => 0
      case RangeError => if neg then MinInt64 else MaxInt64
      case Value(un) =>
        if !neg && un > MaxInt64 then MaxInt64
        else if neg && un > -MinInt64 then MinInt64
        else if neg then -(un as int)
        else un
  }

  function DigitChar(d: nat): (c: char)
    requires d < 10
    ensures IsDigit(c) && DigitValue(c) == d
  {
    ('0' as int + d) as char
  }

  /** The canonical decimal digits of `n`: no sign and no leading zero. */
  function Decimal(n: nat): (s: string)
    ensures |s| >= 1 && AllDigits(s)
    ensures |s| > 1 ==> s[0] != '0'
    ensures n > 0 ==> s[0] != '0'
    ensures n == 0 ==> s == "0"
  {
    if n < 10 then [DigitChar(n)] else Decimal(n / 10) + [DigitChar(n % 10)]
  }

  /** `strconv.Itoa`. */
  function Itoa(n: int): (s: string)
    ensures |s| >= 1
    ensures n >= 0 ==> AllDigits(s)
    ensures n < 0 ==> s[0] == '-' && AllDigits(s[1..])
    ensures n > 0 ==> s[0] != '0'
    ensures n < 0 ==> |s| >= 2 && s[1] != '0'
    ensures n == 0 ==> s == "0"
  {
    if n < 0 then "-" + Decimal(-n) else Decimal(n)
  }

  /** Decimal text of a value in range scans back to that value: no overflow is met on the way. */
  lemma {:induction false} ScanDecimal(n: nat)
    requires n <= MaxUint64
    ensures Scan(Decimal(n)) == Value(n)
  {
    var s := Decimal(n);
    if n < 10 {
      assert s[..|s| - 1] == [];
    } else {
      assert s[..|s| - 1] == Decimal(n / 10);
      ScanDecimal(n / 10);
    }
  }

  /** `Atoi` inverts `Itoa` on the whole 64-bit range. */
  lemma AtoiItoa(n: int)
    requires InInt64(n)
    ensures Atoi(Itoa(n)) == n
  {
    if n < 0 {
      var digits := Decimal(-n);
      ScanDecimal(-n);
      assert ("-" + digits)[0] == '-';
      assert ("-" + digits)[1..] == digits;
      assert ParseUint(digits) == Value(-n);
    } else {
      ScanDecimal(n);
      assert IsDigit(Decimal(n)[0]);
      assert ParseUint(Decimal(n)) == Value(n);
    }
  }

  /** Text that does not start with a digit gives no value, whatever follows. */
  lemma {:induction false} ScanNonDigitStart(s: string)
    requires |s| > 0 && !IsDigit(s[0])
    ensures Scan(s) == SyntaxError
    decreases |s|
  {
    if |s| > 1 {
      assert s[..|s| - 1][0] == s[0];
      ScanNonDigitStart(s[..|s| - 1]);
    }
  }

  /** Text with no digit after an optional sign is a syntax error, so `Atoi` gives 0. */
  lemma AtoiWithoutDigits(s: string)
    requires forall i :: 0 <= i < |s| ==> !IsDigit(s[i])
    ensures Atoi(s) == 0
  {
    if |s| > 0 {
      var digits := Unsigned(s);
      if |digits| > 0 {
        assert digits[0] in s;
        ScanNonDigitStart(digits);
      }
    }
  }

  function Pow10(k: nat): (p: nat)
    ensures p >= 1
  {
    if k == 0 then 1 else 10 * Pow10(k - 1)
  }

  lemma DigitBound(d: nat, p: nat, rest: nat)
    requires d < 10 && rest < p
    ensures d * p + rest < 10 * p
  {
    assert d * p <= 9 * p;
  }

  /** The value of a digit string read positionally: the leading digit weighs `10^(|s|-1)`. */
  function DecimalValue(s: string): (v: nat)
    requires AllDigits(s)
    ensures v < Pow10(|s|)
  {
    if s == [] then 0
    else
      var d := DigitValue(s[0]);
      var rest := DecimalValue(s[1..]);
      DigitBound(d, Pow10(|s| - 1), rest);
      d * Pow10(|s| - 1) + rest
  }

  lemma ShiftDigit(d: int, p: int, rest: int, e: int)
    ensures d * (10 * p) + (10 * rest + e) == 10 * (d * p + rest) + e
  {
  }

  /** Appending a digit multiplies the value by ten and adds the digit. */
  lemma {:induction false} DecimalValueSnoc(s: string, c: char)
    requires AllDigits(s) && IsDigit(c)
    ensures AllDigits(s + [c]) && DecimalValue(s + [c]) == 10 * DecimalValue(s) + DigitValue(c)
    decreases |s|
  {
    var t := s + [c];
    if s == [] {
      assert t[1..] == [];
    } else {
      assert t[0] == s[0] && t[1..] == s[1..] + [c];
      DecimalValueSnoc(s[1..], c);
      var d, p, rest := DigitValue(s[0]), Pow10(|s| - 1), DecimalValue(s[1..]);
      assert Pow10(|t| - 1) == 10 * p;
      assert DecimalValue(t) == d * Pow10(|t| - 1) + DecimalValue(t[1..]);
      assert DecimalValue(s) == d * p + rest;
      ShiftDigit(d, p, rest, DigitValue(c));
    }
  }

  /** Clamping to the 64-bit range, as `Atoi` does on a range error. */
  function Clamp(n: int): (r: int)
    ensures InInt64(r)
    ensures InInt64(n) ==> r == n
    ensures n > MaxInt64 ==> r == MaxInt64
    ensures n < MinInt64 ==> r == MinInt64
  {
    if n > MaxInt64 then MaxInt64 else if n < MinInt64 then MinInt64 else n
  }

  /** On digits only, the scan gives the decimal value, or a range error beyond 64 bits. */
  lemma {:induction false} ScanAllDigits(s: string)
    requires AllDigits(s)
    ensures Scan(s) == if DecimalValue(s) <= MaxUint64 then Value(DecimalValue(s)) else RangeError
    decreases |s|
  {
    if s != [] {
      var p, c := s[..|s| - 1], s[|s| - 1];
      assert s == p + [c];
      DecimalValueSnoc(p, c);
      ScanAllDigits(p);
      var v := DecimalValue(p);
      if v <= MaxUint64 && v >= Cutoff {
        assert 10 * v >= 10 * Cutoff;
      }
    }
  }

  /** Once a prefix fails, the scan of the whole text reports that failure. */
  lemma {:induction false} ScanFinal(s: string, j: nat)
    requires j <= |s| && !Scan(s[..j]).Value?
    ensures Scan(s) == Scan(s[..j])
    decreases |s|
  {
    if j == |s| {
      assert s[..j] == s;
    } else {
      var p := s[..|s| - 1];
      assert p[..j] == s[..j];
      ScanFinal(p, j);
    }
  }

  /**
   * Digits after an optional sign give their value with that sign, clamped to the 64-bit
   * range; leading zeros and a `+` change nothing.
   */
  lemma AtoiDigits(s: string)
    requires |Unsigned(s)| > 0 && AllDigits(Unsigned(s))
    ensures var v: int := DecimalValue(Unsigned(s));
      Atoi(s) == Clamp(if s[0] == '-' then -v else v)
  {
    ScanAllDigits(Unsigned(s));
  }

  /**
   * Text whose first non-digit after the sign comes before the digits overflow is a syntax
   * error, so `Atoi` gives 0.
   */
  lemma AtoiInvalid(s: string, i: nat)
    requires i < |Unsigned(s)| && !IsDigit(Unsigned(s)[i])
    requires AllDigits(Unsigned(s)[..i]) && DecimalValue(Unsigned(s)[..i]) <= MaxUint64
    ensures Atoi(s) == 0
  {
    var d := Unsigned(s);
    ScanAllDigits(d[..i]);
    assert d[..i + 1][..i] == d[..i];
    ScanFinal(d, i + 1);
  }

  /**
   * Digits that overflow before the first non-digit is reached are a range error, so
   * `Atoi` clamps whatever follows them.
   */
  lemma AtoiPrefixOverflow(s: string, i: nat)
    requires i <= |Unsigned(s)| && AllDigits(Unsigned(s)[..i]) && DecimalValue(Unsigned(s)[..i]) > MaxUint64
    ensures Atoi(s) == if s[0] == '-' then MinInt64 else MaxInt64
  {
    var d := Unsigned(s);
    ScanAllDigits(d[..i]);
    ScanFinal(d, i);
  }

  function FirstNonDigit(s: string): (i: nat)
    ensures i <= |s| && AllDigits(s[..i])
    ensures i < |s| ==> !IsDigit(s[i])
  {
    if s == [] || !IsDigit(s[0]) then 0
    else
      var i := 1 + FirstNonDigit(s[1..]);
      assert s[..i] == [s[0]] + s[1..][..i - 1];
      i
  }

  lemma {:induction false} Pow10Monotone(j: nat, k: nat)
    requires j <= k
    ensures Pow10(j) <= Pow10(k)
    decreases k
  {
    if j < k {
      Pow10Monotone(j, k - 1);
    }
  }

  /** Up to twenty characters after the sign, not all digits: `Atoi` gives 0. */
  lemma AtoiShortInvalid(s: string)
    requires |Unsigned(s)| <= 20 && !AllDigits(Unsigned(s))
    ensures Atoi(s) == 0
  {
    var d := Unsigned(s);
    var i := FirstNonDigit(d);
    Pow10Monotone(i, 19);
    assert Pow10(19) == 10_000_000_000_000_000_000 by {
      assert Pow10(4) == 10_000;
      assert Pow10(8) == 100_000_000;
      assert Pow10(12) == 1_000_000_000_000;
      assert Pow10(16) == 10_000_000_000_000_000;
    }
    AtoiInvalid(s, i);
  }

  /** A port followed by more text, as in `host:8080/api`, gives 0. */
  lemma AtoiTrailingText()
    ensures Atoi("80x") == 0 && Atoi("8080/api") == 0
  {
    assert Unsigned("80x")[2] == 'x';
    AtoiShortInvalid("80x");
    assert Unsigned("8080/api")[4] == '/';
    AtoiShortInvalid("8080/api");
  }

  /** Leading zeros and a sign do not change the value read. */
  lemma AtoiLeadingZeroAndSign()
    ensures Atoi("080") == 80 && Atoi("+80") == 80 && Atoi("-80") == -80
  {
    assert DecimalValue("0") == 0;
    assert DecimalValue("80") == 80 by {
      assert "80"[1..] == "0";
    }
    assert DecimalValue("080") == 80 by {
      assert "080"[1..] == "80";
    }
    assert Unsigned("080") == "080";
    AtoiDigits("080");
    assert Unsigned("+80") == "80";
    AtoiDigits("+80");
    assert Unsigned("-80") == "80";
    AtoiDigits("-80");
  }

  /** All-digit text beyond the 64-bit range is clamped to its end, keeping the sign. */
  lemma AtoiOverflow(s: string)
    requires |Unsigned(s)| > 0 && AllDigits(Unsigned(s)) && DecimalValue(Unsigned(s)) > MaxInt64
    ensures Atoi(s) == if s[0] == '-' then MinInt64 else MaxInt64
  {
    AtoiDigits(s);
  }

  /** Twenty nines pass the parser's digit check but overflow: the port is clamped. */
  lemma AtoiTwentyNines(s: string)
    requires s == seq(20, i => '9')
    ensures Atoi(s) == MaxInt64
  {
    assert Unsigned(s) == s;
    assert DecimalValue(s) >= 9 * Pow10(19);
    assert Pow10(19) == 10_000_000_000_000_000_000 by {
      assert Pow10(4) == 10_000;
      assert Pow10(8) == 100_000_000;
      assert Pow10(12) == 1_000_000_000_000;
      assert Pow10(16) == 10_000_000_000_000_000;
    }
    AtoiOverflow(s);
  }

  /** Twenty nines and then a letter: the overflow is met before the letter. */
  lemma AtoiOverflowBeforeText(s: string)
    requires s == seq(20, i => '9') + "x"
    ensures Atoi(s) == MaxInt64
  {
    var nines := seq(20, i => '9');
    assert Unsigned(s)[..20] == nines;
    assert DecimalValue(nines) >= 9 * Pow10(19);
    assert Pow10(19) == 10_000_000_000_000_000_000 by {
      assert Pow10(4) == 10_000;
      assert Pow10(8) == 100_000_000;
      assert Pow10(12) == 1_000_000_000_000;
      assert Pow10(16) == 10_000_000_000_000_000;
    }
    AtoiPrefixOverflow(s, 20);
  }
}
