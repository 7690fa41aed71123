/**
 * The two uses of Go's `fmt` package that carry logic: `Sprintf("%d", n)` and
 * `Scanln`, which the interactive prompts use to read one value per line.
 */
module GoFmt {
  import opened Wrappers
  import opened GoStrings

  const MinInt64: int := -0x8000_0000_0000_0000
  const MaxInt64: int := 0x7FFF_FFFF_FFFF_FFFF

  predicate IsDigit(c: char) {
    '0' <= c <= '9'
  }

  predicate AllDigits(s: string) {
    forall k :: 0 <= k < |s| ==> IsDigit(s[k])
  }

  function DigitChar(d: nat): (c: char)
    requires d < 10
    ensures IsDigit(c)
  {
    ('0' as int + d) as char
  }

  function DigitValue(c: char): (d: nat)
    requires IsDigit(c)
    ensures d < 10
  {
    (c as int - '0' as int) as nat
  }

  lemma DigitRoundTrip(d: nat)
    requires d < 10
    ensures DigitValue(DigitChar(d)) == d
  {
  }

  /** Decimal digits of a natural number, most significant first, without leading zeros. */
  function Digits(n: nat): (s: string)
    ensures s != [] && AllDigits(s)
    ensures s[0] == '0' <==> n == 0
    decreases n
  {
    if n < 10 then [DigitChar(n)] else Digits(n / 10) + [DigitChar(n % 10)]
  }

  /** Value of a non-empty string of decimal digits. */
  function DigitsValue(s: string): nat
    requires s != [] && AllDigits(s)
    decreases |s|
  {
    if |s| == 1 then DigitValue(s[0])
    else DigitsValue(s[..|s| - 1]) * 10 + DigitValue(s[|s| - 1])
  }

  /** fmt.Sprintf("%d", n): a minus sign for negative numbers, then the decimal digits. */
  function FormatInt(n: int): string {
    if n < 0 then "-" + Digits(-n) else Digits(n)
  }

  lemma {:induction false} DigitsRoundTrip(n: nat)
    ensures DigitsValue(Digits(n)) == n
    decreases n
  {
    if n >= 10 {
      DigitsRoundTrip(n / 10);
      var s := Digits(n);
      assert s[..|s| - 1] == Digits(n / 10);
      DigitRoundTrip(n % 10);
    } else {
      DigitRoundTrip(n);
    }
  }

  /** Length of the leading run of non-space characters. */
  function FieldLength(s: string): (n: nat)
    ensures n <= |s|
    ensures forall k :: 0 <= k < n ==> !IsSpace(s[k])
    ensures n < |s| ==> IsSpace(s[n])
    decreases |s|
  {
    if s != [] && !IsSpace(s[0]) then 1 + FieldLength(s[1..]) else 0
  }

  /**
   * The token Scanln stores into a string operand from one input line: white space is
   * skipped, then the run of non-space characters is read. A blank line is an error
   * and leaves the operand unchanged (`None`).
   */
  function ScanToken(line: string): (r: Option<string>)
    ensures r.Some? ==> r.value != [] && forall k :: 0 <= k < |r.value| ==> !IsSpace(r.value[k])
  {
    var rest := line[LeadingSpace(line)..];
    var token := rest[..FieldLength(rest)];
    if token == [] then None else Some(token)
  }

  /** A non-empty line without white space is read back exactly. */
  lemma ScanTokenOfToken(t: string)
    requires t != [] && forall k :: 0 <= k < |t| ==> !IsSpace(t[k])
    ensures ScanToken(t) == Some(t)
  {
    assert LeadingSpace(t) == 0;
    assert t[0..] == t;
    FieldLengthAll(t);
    assert t[..FieldLength(t)] == t;
  }

  lemma {:induction false} FieldLengthAll(t: string)
    requires forall k :: 0 <= k < |t| ==> !IsSpace(t[k])
    ensures FieldLength(t) == |t|
    decreases |t|
  {
    if t != [] {
      FieldLengthAll(t[1..]);
    }
  }

  // ---------------------------------------------------------------------------
  // Scanln into an `int`: the `%v` verb's integer syntax, then strconv.ParseInt(tok, 0, 64)

  /** strconv's digit value: '0'-'9' are 0-9 and the letters of either case 10-35; 36 stands for any other character. */
  function DigitOf(c: char): (d: nat)
    ensures d <= 36
    ensures IsDigit(c) ==> d == DigitValue(c)
  {
    if '0' <= c <= '9' then c as int - '0' as int
    else if 'a' <= c <= 'z' then c as int - 'a' as int + 10
    else if 'A' <= c <= 'Z' then c as int - 'A' as int + 10
    else 36
  }

  predicate IsSign(c: char) {
    c == '+' || c == '-'
  }

  /** The characters the scanner accepts into a number in `base`: its digits and `_`. */
  predicate InDigitSet(c: char, base: nat) {
    c == '_' || DigitOf(c) < base
  }

  /** The base a `0` followed by `c` announces: 2, 8 or 16 for `b`, `o` or `x` of either case, otherwise 0. */
  function PrefixBase(c: char): nat {
    if c == 'b' || c == 'B' then 2
    else if c == 'o' || c == 'O' then 8
    else if c == 'x' || c == 'X' then 16
    else 0
  }

  /** Length of the leading run of characters in the digit set of `base`. */
  function DigitRun(s: string, base: nat): (n: nat)
    ensures n <= |s|
    ensures forall k :: 0 <= k < n ==> InDigitSet(s[k], base)
    ensures n < |s| ==> !InDigitSet(s[n], base)
    decreases |s|
  {
    if s != [] && InDigitSet(s[0], base) then 1 + DigitRun(s[1..], base) else 0
  }

  /**
   * The token the scanner takes for an `int` operand under the `%v` verb, from the
   * text after the skipped white space: an optional sign; then either a `0`, an
   * optional `b`, `o` or `x` of either case, and the run of binary, octal or
   * hexadecimal digits and `_` (a `0` without a letter opens an octal run), or a
   * non-empty run of decimal digits and `_`. The token ends at the first character
   * outside that set. `None` is the scanner's "expected integer".
   */
  function ScanIntToken(s: string): (r: Option<string>)
    ensures r.Some? ==> r.value != [] && r.value <= s
  {
    var sign := if s != [] && IsSign(s[0]) then 1 else 0;
    var body := s[sign..];
    if body != [] && body[0] == '0' then
      var (prefix, base) := if |body| >= 2 && PrefixBase(body[1]) != 0 then (2, PrefixBase(body[1])) else (1, 8);
      Some(s[..sign + prefix + DigitRun(body[prefix..], base)])
    else
      var n := DigitRun(body, 10);
      if n == 0 then None else Some(s[..sign + n])
  }

  /** The value of the digits of `s` in `base`, each `_` skipped; `None` when a character is no digit below `base`. */
  function DigitsIn(s: string, base: nat): (r: Option<nat>)
    decreases |s|
  {
    if s == [] then Some(0)
    else
      match DigitsIn(s[..|s| - 1], base)
      case None => None
      case Some(v) =>
        var c := s[|s| - 1];
        if c == '_' then Some(v)
        else if DigitOf(c) < base then Some(v * base + DigitOf(c))
        else None
  }

  /**
   * strconv.ParseUint(s, 0, 64) without its range check: `0b`, `0o` or `0x` of either
   * case with at least one character after it gives base 2, 8 or 16; any other
   * leading `0` gives base 8 and is dropped; otherwise the base is 10.
   */
  function ParseUnsigned(s: string): Option<nat> {
    if s == [] then None
    else
      var (skip, base) :=
        if s[0] != '0' then (0, 10)
        else if |s| >= 3 && PrefixBase(s[1]) != 0 then (2, PrefixBase(s[1]))
        else (1, 8);
      DigitsIn(s[skip..], base)
  }

  /** What strconv's underscoreOK saw last: the start, a digit or base prefix, an underscore, anything else. */
  datatype Saw = Start | Digit | Underscore | Other

  /** underscoreOK's scan of the number proper; `None` is a misplaced underscore. */
  function UnderscoreScan(s: string, hex: bool, saw: Saw): Option<Saw>
    decreases |s|
  {
    if s == [] then Some(saw)
    else if IsDigit(s[0]) || (hex && 10 <= DigitOf(s[0]) < 16) then UnderscoreScan(s[1..], hex, Digit)
    else if s[0] == '_' then (if saw != Digit then None else UnderscoreScan(s[1..], hex, Underscore))
    else if saw == Underscore then None
    else UnderscoreScan(s[1..], hex, Other)
  }

  /** strconv's underscoreOK: each `_` follows a digit or the base prefix and is followed by a digit. */
  predicate UnderscoreOK(s: string) {
    var t := if s != [] && IsSign(s[0]) then s[1..] else s;
    var prefixed := |t| >= 2 && t[0] == '0' && PrefixBase(t[1]) != 0;
    var hex := prefixed && PrefixBase(t[1]) == 16;
    var end := UnderscoreScan(t[if prefixed then 2 else 0..], hex, if prefixed then Digit else Start);
    end.Some? && end.value != Underscore
  }

  /**
   * strconv.ParseInt(s, 0, 64): an optional sign, then ParseUint's syntax with base
   * prefixes and underscores. A malformed string, a misplaced underscore or a value
   * outside the 64-bit range is an error (`None`).
   */
  function ParseInt(s: string): (r: Option<int>)
    ensures r.Some? ==> MinInt64 <= r.value <= MaxInt64
  {
    if s == [] then None
    else
      var u := if IsSign(s[0]) then s[1..] else s;
      match ParseUnsigned(u)
      case None => None
      case Some(v) =>
        var m: int := v;
        var n := if s[0] == '-' then -m else m;
        if UnderscoreOK(u) && MinInt64 <= n <= MaxInt64 then Some(n) else None
  }

  /**
   * The `int` Scanln stores from one input line: white space is skipped, the token is
   * taken as ScanIntToken describes and converted by ParseInt. The value is stored
   * even when other characters follow the token (Scanln then reports "expected
   * newline"). `None` (a blank line, no digits, a malformed or out-of-range token)
   * leaves the operand unchanged.
   */
  function ScanInt(line: string): (r: Option<int>)
    ensures r.Some? ==> MinInt64 <= r.value <= MaxInt64
  {
    match ScanIntToken(line[LeadingSpace(line)..])
    case None => None
    case Some(tok) => ParseInt(tok)
  }

  lemma {:induction false} DigitsInDecimal(s: string)
    requires s != [] && AllDigits(s)
    ensures DigitsIn(s, 10) == Some(DigitsValue(s))
    decreases |s|
  {
    if |s| > 1 {
      DigitsInDecimal(s[..|s| - 1]);
    } else {
      assert s[..0] == [];
    }
  }

  lemma {:induction false} DigitRunAll(s: string, base: nat)
    requires forall k :: 0 <= k < |s| ==> InDigitSet(s[k], base)
    ensures DigitRun(s, base) == |s|
    decreases |s|
  {
    if s != [] {
      DigitRunAll(s[1..], base);
    }
  }

  lemma {:induction false} UnderscoreScanWithout(s: string, hex: bool, saw: Saw)
    requires saw != Underscore && forall k :: 0 <= k < |s| ==> s[k] != '_'
    ensures UnderscoreScan(s, hex, saw).Some? && UnderscoreScan(s, hex, saw).value != Underscore
    decreases |s|
  {
    if s != [] {
      var next := if IsDigit(s[0]) || (hex && 10 <= DigitOf(s[0]) < 16) then Digit else Other;
      UnderscoreScanWithout(s[1..], hex, next);
    }
  }

  /** Decimal digits without a leading zero are read in base 10 by ParseUnsigned. */
  lemma ParseUnsignedDecimal(d: string)
    requires d != [] && AllDigits(d) && d[0] != '0'
    ensures ParseUnsigned(d) == Some(DigitsValue(d)) && UnderscoreOK(d)
  {
    DigitsInDecimal(d);
    UnderscoreScanWithout(d, false, Start);
    assert d[0..] == d;
  }

  /** ParseInt reads back what `%d` printed. */
  lemma ParseFormatRoundTrip(n: int)
    requires MinInt64 <= n <= MaxInt64
    ensures ParseInt(FormatInt(n)) == Some(n)
  {
    var s := FormatInt(n);
    if n == 0 {
      assert s == "0";
      assert ParseUnsigned(s) == Some(0);
      assert UnderscoreScan(s, false, Start) == Some(Digit);
      assert s[0..] == s;
    } else if n > 0 {
      DigitsRoundTrip(n);
      ParseUnsignedDecimal(s);
    } else {
      var d := Digits(-n);
      DigitsRoundTrip(-n);
      assert s == ['-'] + d && s[1..] == d;
      ParseUnsignedDecimal(d);
    }
  }

  /** The scanner takes the whole line when it is what `%d` printed. */
  lemma ScanIntTokenOfFormat(n: int)
    ensures ScanIntToken(FormatInt(n)) == Some(FormatInt(n))
  {
    if n == 0 {
      ScanIntTokenOfZero();
    } else if n > 0 {
      ScanIntTokenOfDigits(Digits(n));
    } else {
      var d := Digits(-n);
      assert FormatInt(n) == ['-'] + d;
      ScanIntTokenOfNegative(d);
    }
  }

  lemma ScanIntTokenOfZero()
    ensures ScanIntToken("0") == Some("0")
  {
    var s := "0";
    assert s[0..] == s && s[1..] == [];
    assert DigitRun([], 8) == 0;
    assert s[..1] == s;
  }

  lemma ScanIntTokenOfDigits(d: string)
    requires d != [] && AllDigits(d) && d[0] != '0'
    ensures ScanIntToken(d) == Some(d)
  {
    assert !IsSign(d[0]) && d[0..] == d;
    DigitRunAll(d, 10);
    assert d[..|d|] == d;
  }

  lemma ScanIntTokenOfNegative(d: string)
    requires d != [] && AllDigits(d) && d[0] != '0'
    ensures ScanIntToken(['-'] + d) == Some(['-'] + d)
  {
    var s := ['-'] + d;
    assert IsSign(s[0]) && s[1..] == d;
    DigitRunAll(d, 10);
    assert s[..1 + |d|] == s;
  }

  /** A line holding what `%d` printed is scanned back as the same number. */
  lemma ScanFormatRoundTrip(n: int)
    requires MinInt64 <= n <= MaxInt64
    ensures ScanInt(FormatInt(n)) == Some(n)
  {
    var s := FormatInt(n);
    assert !IsSpace(s[0]);
    assert s[LeadingSpace(s)..] == s;
    ScanIntTokenOfFormat(n);
    ParseFormatRoundTrip(n);
  }

  /** ScanInt in three parts: the token taken from a line without leading white space, its digits, and its underscores. */
  lemma ScanIntOf(line: string, tok: string, v: nat)
    requires line != [] && !IsSpace(line[0]) && ScanIntToken(line) == Some(tok)
    requires tok != [] && !IsSign(tok[0]) && ParseUnsigned(tok) == Some(v) && UnderscoreOK(tok)
    requires v <= MaxInt64
    ensures ScanInt(line) == Some(v)
  {
    assert line[LeadingSpace(line)..] == line;
  }

  /** A leading 0 means octal: "010" is stored as 8. */
  lemma ScanIntOctal()
    ensures ScanInt("010") == Some(8)
  {
    OctalToken();
    OctalValue();
    OctalUnderscores();
    ScanIntOf("010", "010", 8);
  }

  lemma OctalToken()
    ensures ScanIntToken("010") == Some("010")
  {
    var line := "010";
    assert line[0..] == line && line[1..] == "10";
    assert DigitRun("0", 8) == 1 by { assert "0"[1..] == ""; }
    assert DigitRun("10", 8) == 2 by { assert "10"[1..] == "0"; }
    assert line[..3] == line;
  }

  lemma OctalValue()
    ensures ParseUnsigned("010") == Some(8)
  {
    assert "010"[1..] == "10";
    assert DigitsIn("1", 8) == Some(1) by { assert "1"[..0] == ""; }
    assert DigitsIn("10", 8) == Some(8) by { assert "10"[..1] == "1"; }
  }

  lemma OctalUnderscores()
    ensures UnderscoreOK("010")
  {
    var t := "010";
    assert !(t[1] in "bBoOxX") && t[0..] == t;
    UnderscoreScanWithout(t, false, Start);
  }

  /** A digit that is not octal ends the token after a leading 0: "09" is stored as 0. */
  lemma ScanIntNotOctal()
    ensures ScanInt("09") == Some(0)
  {
    var line := "09";
    assert line[0..] == line && line[1..] == "9";
    assert DigitRun("9", 8) == 0;
    assert ScanIntToken(line) == Some("0") by { assert line[..1] == "0"; }
    assert "0"[1..] == "";
    assert ParseUnsigned("0") == Some(0);
    assert "0"[0..] == "0";
    UnderscoreScanWithout("0", false, Start);
    ScanIntOf(line, "0", 0);
  }

  /** `0x` means hexadecimal: "0x10" is stored as 16. */
  lemma ScanIntHex()
    ensures ScanInt("0x10") == Some(16)
  {
    HexToken();
    HexValue();
    HexUnderscores();
    ScanIntOf("0x10", "0x10", 16);
  }

  lemma HexToken()
    ensures ScanIntToken("0x10") == Some("0x10")
  {
    var line := "0x10";
    assert line[0..] == line && line[2..] == "10";
    assert DigitRun("0", 16) == 1 by { assert "0"[1..] == ""; }
    assert DigitRun("10", 16) == 2 by { assert "10"[1..] == "0"; }
    assert line[..4] == line;
  }

  lemma HexValue()
    ensures ParseUnsigned("0x10") == Some(16)
  {
    assert "0x10"[2..] == "10";
    assert DigitsIn("1", 16) == Some(1) by { assert "1"[..0] == ""; }
    assert DigitsIn("10", 16) == Some(16) by { assert "10"[..1] == "1"; }
  }

  lemma HexUnderscores()
    ensures UnderscoreOK("0x10")
  {
    var t := "0x10";
    assert t[1] in "bBoOxX" && t[2..] == "10";
    UnderscoreScanWithout("10", true, Digit);
  }

  /** `_` may separate digits: "1_000" is stored as 1000. */
  lemma ScanIntUnderscore()
    ensures ScanInt("1_000") == Some(1000)
  {
    UnderscoreToken();
    UnderscoreValue();
    UnderscorePlaced();
    ScanIntOf("1_000", "1_000", 1000);
  }

  lemma UnderscoreToken()
    ensures ScanIntToken("1_000") == Some("1_000")
  {
    var line := "1_000";
    assert line[0..] == line;
    DigitRunAll(line, 10);
    assert line[..5] == line;
  }

  lemma UnderscoreValue()
    ensures ParseUnsigned("1_000") == Some(1000)
  {
    assert DigitsIn("1", 10) == Some(1) by { assert "1"[..0] == ""; }
    assert DigitsIn("1_", 10) == Some(1) by { assert "1_"[..1] == "1"; }
    assert DigitsIn("1_0", 10) == Some(10) by { assert "1_0"[..2] == "1_"; }
    assert DigitsIn("1_00", 10) == Some(100) by { assert "1_00"[..3] == "1_0"; }
    assert "1_000"[..4] == "1_00";
  }

  lemma UnderscorePlaced()
    ensures UnderscoreOK("1_000")
  {
    var t := "1_000";
    assert t[0..] == t && t[1..] == "_000" && "_000"[1..] == "000" && "000"[1..] == "00";
    UnderscoreScanWithout("00", false, Digit);
    assert UnderscoreScan("000", false, Underscore) == UnderscoreScan("00", false, Digit);
  }

  /** The number before other characters is stored: "12abc" gives 12. */
  lemma ScanIntPrefix()
    ensures ScanInt("12abc") == Some(12)
  {
    var line := "12abc";
    assert line[0..] == line;
    assert DigitRun("abc", 10) == 0;
    assert DigitRun("2abc", 10) == 1 by { assert "2abc"[1..] == "abc"; }
    assert DigitRun(line, 10) == 2 by { assert line[1..] == "2abc"; }
    assert ScanIntToken(line) == Some("12") by { assert line[..2] == "12"; }
    assert "12" == ['1', '2'];
    ParseUnsignedDecimal("12");
    DigitsInDecimal("12");
    assert DigitsValue("12") == 12 by { assert "12"[..1] == "1"; }
    ScanIntOf(line, "12", 12);
  }

  /** Two underscores in a row are a syntax error, and the operand is left unchanged. */
  lemma ScanIntDoubleUnderscore()
    ensures ScanInt("1__0") == None
  {
    var line := "1__0";
    assert line[0..] == line;
    DigitRunAll(line, 10);
    assert ScanIntToken(line) == Some(line) by { assert line[..4] == line; }
    assert line[1..] == "__0" && "__0"[1..] == "_0";
    assert UnderscoreScan("__0", false, Digit) == None;
    assert !UnderscoreOK(line);
    assert line[LeadingSpace(line)..] == line;
  }
}
