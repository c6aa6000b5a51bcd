// strconv.Atoi and strconv.Itoa (and the `%d` verb, which prints the same
// text) on a 64-bit platform, where Go's `int` is 64 bits wide.
module GoStrconv {
  import opened Outcomes

  const MinInt: int := -0x8000_0000_0000_0000
  const MaxInt: int := 0x7fff_ffff_ffff_ffff

  predicate InIntRange(n: int) { MinInt <= n <= MaxInt }

  predicate IsDigit(c: char) { '0' <= c <= '9' }

  predicate AllDigits(s: string) { forall j :: 0 <= j < |s| ==> IsDigit(s[j]) }

  function DigitValue(c: char): (d: nat)
    requires IsDigit(c)
    ensures d < 10
  {
    c as int - '0' as int
  }

  function DigitChar(d: nat): (c: char)
    requires d < 10
    ensures IsDigit(c) && DigitValue(c) == d
  {
    ('0' as int + d) as char
  }

  /** The number a string of decimal digits denotes. */
  function DigitsValue(s: string): nat
    requires AllDigits(s)
  {
    if |s| == 0 then 0 else 10 * DigitsValue(s[..|s| - 1]) + DigitValue(s[|s| - 1])
  }

  /** The shortest decimal digits of a natural number. */
  function Digits(n: nat): (s: string)
    ensures |s| > 0 && AllDigits(s)
  {
    if n < 10 then [DigitChar(n)] else Digits(n / 10) + [DigitChar(n % 10)]
  }

  lemma {:induction false} DigitsValueOfDigits(n: nat)
    ensures DigitsValue(Digits(n)) == n
  {
    if n >= 10 {
      var s := Digits(n);
      assert s[..|s| - 1] == Digits(n / 10);
      DigitsValueOfDigits(n / 10);
    }
  }

  /** strconv.Itoa / fmt's %d. */
  function Itoa(n: int): (s: string)
    ensures |s| > 0
  {
    if n < 0 then "-" + Digits(-n) else Digits(n)
  }

  const MaxUint64: int := 0xffff_ffff_ffff_ffff

  /** The text after an optional leading sign. */
  function Body(s: string): string {
    if |s| > 0 && (s[0] == '-' || s[0] == '+') then s[1..] else s
  }

  predicate Negative(s: string) { |s| > 0 && s[0] == '-' }

  /** How ParseUint's digit loop ends. */
  datatype Scan = Value(n: nat) | Syntax | Range

  /** ParseUint's loop in base 10 for 64 bits, from the value n of the
      digits read so far: a non-digit is a syntax error and a digit that
      takes the value past 2^64-1 a range error, whichever comes first. */
  function ScanDigits(s: string, n: nat): (r: Scan)
    requires n <= MaxUint64
    ensures r.Value? ==> r.n <= MaxUint64
    decreases |s|
  {
    if |s| == 0 then Value(n)
    else if !IsDigit(s[0]) then Syntax
    else if 10 * n + DigitValue(s[0]) > MaxUint64 then Range
    else ScanDigits(s[1..], 10 * n + DigitValue(s[0]))
  }

  /** strconv.ParseUint(s, 10, 64): the empty text is a syntax error. */
  function ParseUint(s: string): (r: Scan)
    ensures |s| == 0 ==> r == Syntax
  {
    if |s| == 0 then Syntax else ScanDigits(s, 0)
  }

  /** What strconv.ParseInt(s, 10, 0) returns: the number, a syntax error
      (beside 0), or a range error beside the bound on the side of the
      sign. */
  datatype NumResult = Parsed(value: int) | SyntaxErr | RangeErr(bound: int)

  /** strconv.ParseInt(s, 10, 0) on a 64-bit platform: the sign is taken
      off, ParseUint reads the rest, and a magnitude beyond 2^63-1 (2^63 for
      a minus) is a range error too. */
  function ParseInt(s: string): (r: NumResult)
    ensures r.Parsed? ==> InIntRange(r.value)
    ensures r.RangeErr? ==> r.bound == if Negative(s) then MinInt else MaxInt
  {
    if |s| == 0 then SyntaxErr
    else match ParseUint(Body(s))
      case Syntax => SyntaxErr
      case Range => RangeErr(if Negative(s) then MinInt else MaxInt)
      case Value(un) =>
        if !Negative(s) && un > MaxInt then RangeErr(MaxInt)
        else if Negative(s) && un > -MinInt then RangeErr(MinInt)
        else Parsed(if Negative(s) then 0 - un else un)
  }

  /** strconv.Atoi on a 64-bit platform: ParseInt(s, 10, 0), whose answer
      the fast path for texts shorter than 19 bytes repeats. None is the
      error. */
  function Atoi(s: string): (r: Option<int>)
    ensures r.Some? ==> InIntRange(r.value)
    ensures r.Some? ==> |s| > 0
  {
    if ParseInt(s).Parsed? then Some(ParseInt(s).value) else None
  }

  /** The number strconv.Atoi returns beside its error, for a caller that
      ignores the error: 0 on a syntax error, the bound on the side of the
      sign on a range error. */
  function AtoiValue(s: string): (v: int)
    ensures InIntRange(v)
    ensures Atoi(s).Some? ==> v == Atoi(s).value
  {
    match ParseInt(s)
    case Parsed(n) => n
    case SyntaxErr => 0
    case RangeErr(bound) => bound
  }

  /** The case strconv.Atoi reports as ErrRange. */
  predicate OutOfRange(s: string) {
    ParseInt(s).RangeErr?
  }

  // ---------------------------------------------------------------------
  // What the scan computes

  /** The value of digits read from left to right, starting from n. */
  function Acc(n: nat, t: string): nat
    requires AllDigits(t)
    decreases |t|
  {
    if |t| == 0 then n
    else
      assert forall j :: 0 <= j < |t[1..]| ==> t[1..][j] == t[j + 1];
      Acc(10 * n + DigitValue(t[0]), t[1..])
  }

  lemma {:induction false} AccGrows(n: nat, t: string)
    requires AllDigits(t)
    ensures Acc(n, t) >= n
    decreases |t|
  {
    if |t| > 0 {
      assert forall j :: 0 <= j < |t[1..]| ==> t[1..][j] == t[j + 1];
      AccGrows(10 * n + DigitValue(t[0]), t[1..]);
    }
  }

  lemma {:induction false} AccSnoc(n: nat, t: string, c: char)
    requires AllDigits(t) && IsDigit(c)
    ensures AllDigits(t + [c])
    ensures Acc(n, t + [c]) == 10 * Acc(n, t) + DigitValue(c)
    decreases |t|
  {
    if |t| > 0 {
      assert forall j :: 0 <= j < |t[1..]| ==> t[1..][j] == t[j + 1];
      assert (t + [c])[1..] == t[1..] + [c];
      AccSnoc(10 * n + DigitValue(t[0]), t[1..], c);
    }
  }

  /** Reading from the left gives the value DigitsValue reads from the
      right. */
  lemma {:induction false} AccIsDigitsValue(t: string)
    requires AllDigits(t)
    ensures Acc(0, t) == DigitsValue(t)
    decreases |t|
  {
    if |t| > 0 {
      var init := t[..|t| - 1];
      assert t == init + [t[|t| - 1]];
      AccIsDigitsValue(init);
      AccSnoc(0, init, t[|t| - 1]);
    }
  }

  /** On digits alone the scan is a range error exactly when their value
      leaves the 64-bit unsigned range. */
  lemma {:induction false} ScanAllDigits(t: string, n: nat)
    requires n <= MaxUint64 && AllDigits(t)
    ensures ScanDigits(t, n) == if Acc(n, t) <= MaxUint64 then Value(Acc(n, t)) else Range
    decreases |t|
  {
    if |t| > 0 {
      assert forall j :: 0 <= j < |t[1..]| ==> t[1..][j] == t[j + 1];
      var m := 10 * n + DigitValue(t[0]);
      AccGrows(m, t[1..]);
      if m <= MaxUint64 {
        ScanAllDigits(t[1..], m);
      }
    }
  }

  /** Digits followed by a non-digit: the scan meets the non-digit, a syntax
      error, unless the digits before it already left the range. */
  lemma {:induction false} ScanStops(t: string, n: nat, j: nat)
    requires n <= MaxUint64 && j < |t| && AllDigits(t[..j]) && !IsDigit(t[j])
    ensures ScanDigits(t, n) == if Acc(n, t[..j]) <= MaxUint64 then Syntax else Range
    decreases j
  {
    if j > 0 {
      assert t[..j][0] == t[0];
      assert t[1..][..j - 1] == t[..j][1..];
      var m := 10 * n + DigitValue(t[0]);
      AccGrows(m, t[1..][..j - 1]);
      if m <= MaxUint64 {
        ScanStops(t[1..], m, j - 1);
      }
    }
  }

  /** The length of the run of digits a text starts with. */
  function DigitRun(t: string): (k: nat)
    ensures k <= |t| && AllDigits(t[..k])
    ensures k < |t| ==> !IsDigit(t[k])
    decreases |t|
  {
    if |t| == 0 || !IsDigit(t[0]) then 0
    else
      var k := 1 + DigitRun(t[1..]);
      assert forall i :: 1 <= i < k ==> t[..k][i] == t[1..][..k - 1][i - 1];
      k
  }

  // ---------------------------------------------------------------------
  // ParseInt against the digits it is given

  /** Well-formed text: the value of the digits, with the sign, if it fits
      in 64 bits, and otherwise a range error. */
  lemma ParseIntDigits(s: string)
    requires |Body(s)| > 0 && AllDigits(Body(s))
    ensures var v := if Negative(s) then 0 - DigitsValue(Body(s)) else DigitsValue(Body(s));
            ParseInt(s) == if InIntRange(v) then Parsed(v) else RangeErr(if Negative(s) then MinInt else MaxInt)
  {
    ScanAllDigits(Body(s), 0);
    AccIsDigitsValue(Body(s));
  }

  /** Text whose first non-digit after the sign is at j: a range error if
      the digits before it already exceed 2^64-1, else a syntax error, so
      that what follows the overflow is never looked at. */
  lemma ParseIntStops(s: string, j: nat)
    requires j < |Body(s)| && AllDigits(Body(s)[..j]) && !IsDigit(Body(s)[j])
    ensures ParseInt(s) == if DigitsValue(Body(s)[..j]) > MaxUint64
                           then RangeErr(if Negative(s) then MinInt else MaxInt)
                           else SyntaxErr
  {
    ScanStops(Body(s), 0, j);
    AccIsDigitsValue(Body(s)[..j]);
  }

  /** A sign with nothing after it, or nothing at all, is a syntax error. */
  lemma ParseIntEmpty(s: string)
    requires |Body(s)| == 0
    ensures ParseInt(s) == SyntaxErr
  {
  }

  /** More than 2^64-1 in digits, then any non-digit: strconv.Atoi reports
      "value out of range" and returns the bound, as ParseUint gives up on
      the digit that overflows before it reaches the non-digit. */
  lemma OverflowBeforeJunk(n: nat, c: char, rest: string)
    requires n > MaxUint64 && !IsDigit(c)
    ensures ParseInt(Digits(n) + [c] + rest) == RangeErr(MaxInt)
    ensures ParseInt("-" + Digits(n) + [c] + rest) == RangeErr(MinInt)
    ensures OutOfRange(Digits(n) + [c] + rest) && AtoiValue(Digits(n) + [c] + rest) == MaxInt
    ensures OutOfRange("-" + Digits(n) + [c] + rest) && AtoiValue("-" + Digits(n) + [c] + rest) == MinInt
  {
    var d := Digits(n);
    DigitsValueOfDigits(n);
    var s := d + [c] + rest;
    assert IsDigit(d[0]) && s[0] == d[0];
    assert Body(s) == s && s[..|d|] == d && s[|d|] == c;
    ParseIntStops(s, |d|);
    var t := "-" + s;
    assert Body(t) == s && Negative(t);
    assert t == "-" + Digits(n) + [c] + rest;
    ParseIntStops(t, |d|);
  }

  /** Printing a 64-bit integer and parsing the text back gives the integer. */
  lemma AtoiItoa(n: int)
    requires InIntRange(n)
    ensures Atoi(Itoa(n)) == Some(n)
  {
    var m: nat := if n < 0 then -n else n;
    var d := Digits(m);
    DigitsValueOfDigits(m);
    assert IsDigit(d[0]);
    if n < 0 {
      assert Body("-" + d) == d;
      ParseIntDigits("-" + d);
    } else {
      assert Body(d) == d;
      ParseIntDigits(d);
    }
  }

  /** Text with a non-digit after the optional sign never parses. */
  lemma AtoiRejects(s: string, j: int)
    requires 0 < j < |s| && !IsDigit(s[j])
    ensures Atoi(s) == None
  {
    var b := Body(s);
    var k := DigitRun(b);
    if s[0] == '-' || s[0] == '+' {
      assert b[j - 1] == s[j];
      assert k <= j - 1;
    } else {
      assert k <= j;
    }
    ParseIntStops(s, k);
  }

  function Pow10(k: nat): (p: nat)
    ensures p > 0
  {
    if k == 0 then 1 else 10 * Pow10(k - 1)
  }

  /** 10^19, which is below 2^64-1. */
  lemma Pow10Nineteen()
    ensures Pow10(19) == 10_000_000_000_000_000_000
  {
    assert Pow10(1) == 10;
    assert Pow10(2) == 100;
    assert Pow10(3) == 1000;
    assert Pow10(4) == 10000;
    assert Pow10(5) == 100000;
    assert Pow10(6) == 1000000;
    assert Pow10(7) == 10000000;
    assert Pow10(8) == 100000000;
    assert Pow10(9) == 1000000000;
    assert Pow10(10) == 10000000000;
    assert Pow10(11) == 100000000000;
    assert Pow10(12) == 1000000000000;
    assert Pow10(13) == 10000000000000;
    assert Pow10(14) == 100000000000000;
    assert Pow10(15) == 1000000000000000;
    assert Pow10(16) == 10000000000000000;
    assert Pow10(17) == 100000000000000000;
    assert Pow10(18) == 1000000000000000000;
    assert Pow10(19) == 10000000000000000000;
  }

  lemma {:induction false} DigitsValueBelow(t: string)
    requires AllDigits(t)
    ensures DigitsValue(t) < Pow10(|t|)
    decreases |t|
  {
    if |t| > 0 {
      DigitsValueBelow(t[..|t| - 1]);
    }
  }

  lemma {:induction false} Pow10Grows(k: nat, m: nat)
    requires k <= m
    ensures Pow10(k) <= Pow10(m)
    decreases m
  {
    if k < m {
      Pow10Grows(k, m - 1);
    }
  }

  /** A non-digit within the first 20 characters is met before 19 digits
      can overflow: a syntax error, so a caller that ignores the error
      reads 0. Every text shorter than 19 bytes, the range of Go's fast
      path, is of this kind. */
  lemma AtoiValueRejects(s: string, j: int)
    requires 0 < j < |s| && j < 20 && !IsDigit(s[j])
    ensures ParseInt(s) == SyntaxErr && Atoi(s) == None && AtoiValue(s) == 0
  {
    var b := Body(s);
    var k := DigitRun(b);
    if s[0] == '-' || s[0] == '+' {
      assert b[j - 1] == s[j];
      assert k <= j - 1;
    } else {
      assert k <= j;
    }
    DigitsValueBelow(b[..k]);
    Pow10Grows(k, 19);
    Pow10Nineteen();
    ParseIntStops(s, k);
  }

  /** The lower-case hex digit of a value below 16. */
  function HexDigit(d: nat): char
    requires d < 16
  {
    if d < 10 then DigitChar(d) else ('a' as int + d - 10) as char
  }

  /** One character as strconv.Quote writes it: the quote and the backslash
      escaped, the C escapes for the ASCII controls that have one, \x and two
      hex digits for the other ASCII controls; anything else as it is. */
  function QuoteChar(c: char): string {
    if c == '"' then "\\\""
    else if c == '\\' then "\\\\"
    else if c == '\U{7}' then "\\a"
    else if c == '\U{8}' then "\\b"
    else if c == '\U{C}' then "\\f"
    else if c == '\n' then "\\n"
    else if c == '\r' then "\\r"
    else if c == '\t' then "\\t"
    else if c == '\U{B}' then "\\v"
    else if c as int < 0x20 || c as int == 0x7f then "\\x" + [HexDigit(c as int / 16), HexDigit(c as int % 16)]
    else [c]
  }

  function QuoteBody(s: string): string {
    if |s| == 0 then "" else QuoteChar(s[0]) + QuoteBody(s[1..])
  }

  /** strconv.Quote: the text between double quotes, escaped. */
  function Quote(s: string): (q: string)
    ensures |q| >= 2 && q[0] == '"' && q[|q| - 1] == '"'
  {
    "\"" + QuoteBody(s) + "\""
  }

  /** A printable character other than the quote and the backslash stands
      for itself. */
  predicate Plain(c: char) {
    c != '"' && c != '\\' && c as int >= 0x20 && c as int != 0x7f
  }

  /** Text of plain characters is quoted as it is. */
  lemma {:induction false} QuotePlain(s: string)
    requires forall j :: 0 <= j < |s| ==> Plain(s[j])
    ensures Quote(s) == "\"" + s + "\""
    decreases |s|
  {
    QuoteBodyPlain(s);
  }

  lemma {:induction false} QuoteBodyPlain(s: string)
    requires forall j :: 0 <= j < |s| ==> Plain(s[j])
    ensures QuoteBody(s) == s
    decreases |s|
  {
    if |s| > 0 {
      assert forall j :: 0 <= j < |s[1..]| ==> s[1..][j] == s[j + 1];
      QuoteBodyPlain(s[1..]);
      assert s == [s[0]] + s[1..];
    }
  }

  /** The text of the error strconv.Atoi returns: "strconv.Atoi: parsing",
      the quoted input, and "value out of range" for digits outside the
      64-bit range or "invalid syntax" for anything else. */
  function AtoiError(s: string): string {
    "strconv.Atoi: parsing " + Quote(s) + ": " + (if OutOfRange(s) then "value out of range" else "invalid syntax")
  }

  /** A number beyond the 64-bit range is reported as out of range. */
  lemma AtoiRange(n: nat)
    requires n > MaxInt
    ensures Atoi(Digits(n)) == None
    ensures Quote(Digits(n)) == "\"" + Digits(n) + "\""
    ensures AtoiError(Digits(n)) == "strconv.Atoi: parsing " + Quote(Digits(n)) + ": " + "value out of range"
  {
    var d := Digits(n);
    DigitsValueOfDigits(n);
    assert IsDigit(d[0]);
    assert DigitsValue(d) == n;
    assert Body(d) == d;
    ParseIntDigits(d);
    assert OutOfRange(d);
    assert forall j :: 0 <= j < |d| ==> Plain(d[j]) by {
      assert forall j :: 0 <= j < |d| ==> IsDigit(d[j]);
    }
    QuotePlain(d);
  }

  /** The empty string never parses. */
  lemma AtoiEmpty()
    ensures Atoi("") == None
  {
  }
}
