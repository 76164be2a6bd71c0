/** The few JavaScript string and number conversions the application relies on:
    `String(n)` for integers, `parseInt`, `Number(s)` on integer spellings,
    `startsWith`, `includes`, `indexOf` and `replace` with a string pattern.
    Strings are sequences of UTF-16-free Unicode characters. */
module JsText {
  import opened Wrappers

  // ---------------------------------------------------------------- digits

  /** The value of `c` as a digit in base 2, 8, 10 or 16 (JavaScript accepts
      both cases of a-f). */
  function RadixDigit(c: char, radix: nat): Option<nat> {
    if '0' <= c <= '9' && c as int - '0' as int < radix then Some(c as int - '0' as int)
    else if radix == 16 && 'a' <= c <= 'f' then Some(c as int - 'a' as int + 10)
    else if radix == 16 && 'A' <= c <= 'F' then Some(c as int - 'A' as int + 10)
    else None
  }

  predicate IsRadixDigit(c: char, radix: nat) {
    RadixDigit(c, radix).Some?
  }

  predicate AllDigits(s: string, radix: nat) {
    forall i :: 0 <= i < |s| ==> IsRadixDigit(s[i], radix)
  }

  /** The value of a digit string, most significant digit first. */
  function DigitsValue(ds: string, radix: nat): nat
    requires AllDigits(ds, radix)
  {
    if ds == [] then 0
    else DigitsValue(ds[..|ds| - 1], radix) * radix + RadixDigit(ds[|ds| - 1], radix).value
  }

  /** The longest prefix of `s` made of digits of the radix. */
  function DigitRun(s: string, radix: nat): (r: string)
    ensures r <= s && AllDigits(r, radix)
    ensures |r| < |s| ==> !IsRadixDigit(s[|r|], radix)
  {
    if s == [] || !IsRadixDigit(s[0], radix) then []
    else [s[0]] + DigitRun(s[1..], radix)
  }

  function DigitChar(d: nat): (c: char)
    requires d < 10
    ensures RadixDigit(c, 10) == Some(d)
  {
    (d + '0' as int) as char
  }

  /** Decimal digits of a natural number, without leading zeros. */
  function NatToDigits(n: nat): (r: string)
    ensures |r| > 0 && AllDigits(r, 10)
    ensures r[0] == '0' ==> n == 0 && |r| == 1
  {
    if n < 10 then [DigitChar(n)] else NatToDigits(n / 10) + [DigitChar(n % 10)]
  }

  lemma {:induction false} NatToDigitsValue(n: nat)
    ensures DigitsValue(NatToDigits(n), 10) == n
  {
    if n >= 10 {
      var ds := NatToDigits(n);
      assert ds[..|ds| - 1] == NatToDigits(n / 10);
      NatToDigitsValue(n / 10);
    }
  }

  /** `String(n)` for an integer-valued JavaScript number. */
  function IntToString(n: int): (r: string)
    ensures |r| > 0
    ensures n >= 0 ==> AllDigits(r, 10)
  {
    if n < 0 then "-" + NatToDigits(-n) else NatToDigits(n)
  }

  // -------------------------------------------------------------- white space

  /** WhiteSpace and LineTerminator code points of the ECMAScript grammar
      (what `parseInt` and `Number` skip). */
  predicate IsJsSpace(c: char) {
    var x := c as int;
    x == 0x09 || x == 0x0A || x == 0x0B || x == 0x0C || x == 0x0D || x == 0x20 ||
    x == 0xA0 || x == 0x1680 || (0x2000 <= x <= 0x200A) || x == 0x2028 || x == 0x2029 ||
    x == 0x202F || x == 0x205F || x == 0x3000 || x == 0xFEFF
  }

  function TrimStart(s: string): (r: string)
    ensures r <= s || (|r| <= |s| && r == s[|s| - |r|..])
    ensures r == [] || !IsJsSpace(r[0])
  {
    if s != [] && IsJsSpace(s[0]) then TrimStart(s[1..]) else s
  }

  function TrimEnd(s: string): (r: string)
    ensures r <= s
    ensures r == [] || !IsJsSpace(r[|r| - 1])
  {
    if s != [] && IsJsSpace(s[|s| - 1]) then TrimEnd(s[..|s| - 1]) else s
  }

  // ----------------------------------------------------------------- parseInt

  /** `parseInt(s)` with no radix: skip leading space, read one sign, take a
      `0x`/`0X` prefix as base 16, then the longest run of digits; `None` is NaN. */
  function ParseInt(s: string): Option<int> {
    var t := TrimStart(s);
    var negative := t != [] && t[0] == '-';
    var u := if t != [] && (t[0] == '-' || t[0] == '+') then t[1..] else t;
    var hex := |u| >= 2 && u[0] == '0' && (u[1] == 'x' || u[1] == 'X');
    var radix := if hex then 16 else 10;
    var ds := DigitRun(if hex then u[2..] else u, radix);
    if ds == [] then None
    else
      var v: int := DigitsValue(ds, radix);
      Some(if negative then -v else v)
  }

  /** `parseInt(String(n)) === n` for every integer-valued number. */
  lemma {:induction false} ParseIntOfString(n: int)
    ensures ParseInt(IntToString(n)) == Some(n)
  {
    var s := IntToString(n);
    var m: nat := if n < 0 then -n else n;
    var u := Unsigned(n);
    NatToDigitsValue(m);
    DigitRunOfDigits(u, 10);
    assert TrimStart(s) == s;
    assert !(|u| >= 2 && u[0] == '0');
  }

  /** What follows the sign in `String(n)`: the digits of |n|. */
  lemma Unsigned(n: int) returns (u: string)
    ensures var s := IntToString(n);
            s != [] && !IsJsSpace(s[0]) && !IsJsSpace(s[|s| - 1]) &&
            (s[0] == '-' <==> n < 0) && s[0] != '+' &&
            u == (if n < 0 then s[1..] else s) &&
            u == NatToDigits(if n < 0 then -n else n)
  {
    var m: nat := if n < 0 then -n else n;
    var ds := NatToDigits(m);
    var s := IntToString(n);
    if n < 0 {
      assert s[1..] == ds;
    }
    assert s[|s| - 1] == ds[|ds| - 1];
    u := ds;
  }

  lemma {:induction false} DigitRunOfDigits(ds: string, radix: nat)
    requires AllDigits(ds, radix)
    ensures DigitRun(ds, radix) == ds
  {
    if ds != [] {
      DigitRunOfDigits(ds[1..], radix);
    }
  }

  // ------------------------------------------------------------- Number(s)

  /** The first position in `s` of a character of `cs`, or `|s|` when there is none. */
  function FindAny(s: string, cs: set<char>): (r: nat)
    ensures r <= |s|
    ensures forall i :: 0 <= i < r ==> s[i] !in cs
    ensures r < |s| ==> s[r] in cs
  {
    if s == [] || s[0] in cs then 0 else 1 + FindAny(s[1..], cs)
  }

  function Pow10(e: nat): (r: nat)
    ensures r > 0
  {
    if e == 0 then 1 else 10 * Pow10(e - 1)
  }

  /** `m * 10^e` when that is an integer. */
  function ScaledInteger(m: nat, e: int): (r: Option<int>)
    ensures e >= 0 ==> r == Some(m * Pow10(e))
    ensures e < 0 ==> (r.Some? <==> m % Pow10(-e) == 0)
    ensures e < 0 && r.Some? ==> r.value * Pow10(-e) == m
  {
    if e >= 0 then Some(m * Pow10(e))
    else if m % Pow10(-e) == 0 then Some(m / Pow10(-e))
    else None
  }

  /** The base of a literal starting `0b`, `0o` or `0x` (either case) with
      something after the prefix. */
  function PrefixRadix(t: string): Option<nat> {
    if |t| > 2 && t[0] == '0' then
      if t[1] == 'b' || t[1] == 'B' then Some(2)
      else if t[1] == 'o' || t[1] == 'O' then Some(8)
      else if t[1] == 'x' || t[1] == 'X' then Some(16)
      else None
    else None
  }

  /** An optional sign followed by at least one decimal digit and nothing else. */
  function SignedDecimal(t: string): Option<int> {
    var u := if t != [] && (t[0] == '-' || t[0] == '+') then t[1..] else t;
    if u != [] && AllDigits(u, 10) then
      var v: int := DigitsValue(u, 10);
      Some(if t[0] == '-' then -v else v)
    else None
  }

  /** An unsigned decimal literal: a mantissa, then optionally `e` or `E`
      and a signed integer exponent; its value when that is an integer.
      `Infinity` and every malformed text are not integers. */
  function UnsignedDecimal(body: string): Option<int> {
    var p := FindAny(body, {'e', 'E'});
    if p == |body| then Mantissa(body, 0)
    else match SignedDecimal(body[p + 1..])
      case None => None
      case Some(exponent) => Mantissa(body[..p], exponent)
  }

  /** Whole digits, an optional `.` and fraction digits, at least one digit in
      all, scaled by `10^exponent`; its value when that is an integer. */
  function Mantissa(mantissa: string, exponent: int): Option<int> {
    var q := FindAny(mantissa, {'.'});
    var whole := mantissa[..q];
    var fraction := if q < |mantissa| then mantissa[q + 1..] else [];
    if AllDigits(whole, 10) && AllDigits(fraction, 10) && |whole| + |fraction| > 0 then
      ScaledInteger(DigitsValue(whole, 10) * Pow10(|fraction|) + DigitsValue(fraction, 10), exponent - |fraction|)
    else None
  }

  /** The abstract equality `n == s` between a number and a string converts
      the string with `Number(s)`: surrounding space is dropped, the empty
      text is 0, a `0b`/`0o`/`0x` literal is read in its base, and otherwise a
      signed decimal with optional fraction and exponent is read. The result
      is the integer `Number(s)` denotes; `None` stands for every other
      outcome (NaN, Infinity, a value with a fractional part), none of which
      equals an integer. */
  function StringToInteger(s: string): (r: Option<int>)
    ensures TrimEnd(TrimStart(s)) == [] ==> r == Some(0)
  {
    var t := TrimEnd(TrimStart(s));
    if t == [] then Some(0)
    else match PrefixRadix(t)
      case Some(radix) => if AllDigits(t[2..], radix) then Some(DigitsValue(t[2..], radix)) else None
      case None =>
        var body := if t[0] == '-' || t[0] == '+' then t[1..] else t;
        match UnsignedDecimal(body)
        case None => None
        case Some(v) => Some(if t[0] == '-' then -v else v)
  }

  lemma Untrimmed(s: string)
    requires s != [] && !IsJsSpace(s[0]) && !IsJsSpace(s[|s| - 1])
    ensures TrimEnd(TrimStart(s)) == s
  {
  }

  lemma {:induction false} FindNone(s: string, cs: set<char>)
    requires forall i :: 0 <= i < |s| ==> s[i] !in cs
    ensures FindAny(s, cs) == |s|
  {
    if s != [] {
      FindNone(s[1..], cs);
    }
  }

  /** A run of decimal digits is read as its value. */
  lemma UnsignedDigits(ds: string)
    requires ds != [] && AllDigits(ds, 10)
    ensures UnsignedDecimal(ds) == Some(DigitsValue(ds, 10))
  {
    forall i | 0 <= i < |ds| ensures ds[i] !in {'e', 'E'} && ds[i] != '.' {
      assert IsRadixDigit(ds[i], 10);
    }
    FindNone(ds, {'e', 'E'});
    FindNone(ds, {'.'});
    assert ds[..|ds|] == ds;
  }

  lemma {:induction false} StringToIntegerOfString(n: int)
    ensures StringToInteger(IntToString(n)) == Some(n)
  {
    var s := IntToString(n);
    var m: nat := if n < 0 then -n else n;
    var u := Unsigned(n);
    NatToDigitsValue(m);
    Untrimmed(s);
    assert PrefixRadix(s).None?;
    UnsignedDigits(u);
  }

  /** The first character of `cs` is at `k` when `s[k]` is one and no earlier character is. */
  lemma FindAt(s: string, cs: set<char>, k: nat)
    requires k < |s| && s[k] in cs
    requires forall i :: 0 <= i < k ==> s[i] !in cs
    ensures FindAny(s, cs) == k
  {
  }

  /** `1000 == "1e3"`: an exponent scales the digits. */
  lemma ExponentSpelling()
    ensures StringToInteger("1e3") == Some(1000)
  {
    var t := "1e3";
    Untrimmed(t);
    assert FindAny(t, {'e', 'E'}) == 1;
    assert t[2..] == "3" && SignedDecimal("3") == Some(3);
    assert t[..1] == "1" && FindAny("1", {'.'}) == 1 && "1"[..1] == "1";
    assert Mantissa("1", 3) == Some(1000);
  }

  /** `1000 == "1000.0"`: a zero fraction leaves an integer. */
  lemma FractionSpelling()
    ensures StringToInteger("1000.0") == Some(1000)
  {
    var t := "1000.0";
    Untrimmed(t);
    assert PrefixRadix(t).None?;
    assert UnsignedDecimal(t) == Mantissa(t, 0) by {
      FindNone(t, {'e', 'E'});
    }
    MantissaOfThousand();
  }

  lemma MantissaOfThousand()
    ensures Mantissa("1000.0", 0) == Some(1000)
  {
    var t := "1000.0";
    assert FindAny(t, {'.'}) == 4 by {
      FindAt(t, {'.'}, 4);
    }
    assert t[..4] == "1000" && t[5..] == "0";
    DigitsOfThousand();
    assert DigitsValue("0", 10) == 0 by { assert "0"[..0] == ""; }
    assert Pow10(1) == 10;
  }

  lemma DigitsOfThousand()
    ensures DigitsValue("1000", 10) == 1000
  {
    assert DigitsValue("1", 10) == 1 by { assert "1"[..0] == ""; }
    assert DigitsValue("10", 10) == 10 by { assert "10"[..1] == "1"; }
    assert DigitsValue("100", 10) == 100 by { assert "100"[..2] == "10"; }
    assert "1000"[..3] == "100";
  }

  /** `12.5` is not an integer, so `n == "12.5"` holds for no integer `n`. */
  lemma FractionalSpelling()
    ensures StringToInteger("12.5") == None
  {
    var t := "12.5";
    Untrimmed(t);
    assert PrefixRadix(t).None?;
    assert UnsignedDecimal(t) == Mantissa(t, 0) by {
      FindNone(t, {'e', 'E'});
    }
    MantissaOfTwelveAndAHalf();
  }

  lemma MantissaOfTwelveAndAHalf()
    ensures Mantissa("12.5", 0) == None
  {
    var t := "12.5";
    assert FindAny(t, {'.'}) == 2 by {
      FindAt(t, {'.'}, 2);
    }
    assert t[..2] == "12" && t[3..] == "5";
    assert DigitsValue("12", 10) == 12 by {
      assert DigitsValue("1", 10) == 1 by { assert "1"[..0] == ""; }
      assert "12"[..1] == "1";
    }
    assert DigitsValue("5", 10) == 5 by { assert "5"[..0] == ""; }
    assert Pow10(1) == 10;
  }

  /** `1000 == "0x3E8"`: the `0x` prefix reads the rest in base 16. */
  lemma HexSpelling()
    ensures StringToInteger("0x3E8") == Some(1000)
  {
    Untrimmed("0x3E8");
    assert PrefixRadix("0x3E8") == Some(16);
    assert "0x3E8"[2..] == "3E8";
    HexDigitsOfThousand();
  }

  lemma HexDigitsOfThousand()
    ensures AllDigits("3E8", 16) && DigitsValue("3E8", 16) == 1000
  {
    assert DigitsValue("3", 16) == 3 by { assert "3"[..0] == ""; }
    assert DigitsValue("3E", 16) == 62 by { assert "3E"[..1] == "3"; }
    assert "3E8"[..2] == "3E";
  }

  /** `5 == "0b101"`: the `0b` prefix reads the rest in base 2. */
  lemma BinarySpelling()
    ensures StringToInteger("0b101") == Some(5)
  {
    Untrimmed("0b101");
    assert PrefixRadix("0b101") == Some(2);
    assert "0b101"[2..] == "101";
    BinaryDigitsOfFive();
  }

  lemma BinaryDigitsOfFive()
    ensures AllDigits("101", 2) && DigitsValue("101", 2) == 5
  {
    assert DigitsValue("1", 2) == 1 by { assert "1"[..0] == ""; }
    assert DigitsValue("10", 2) == 2 by { assert "10"[..1] == "1"; }
    assert "101"[..2] == "10";
  }

  /** `Infinity` equals no integer. */
  lemma InfinitySpelling()
    ensures StringToInteger("Infinity") == None
  {
    var t := "Infinity";
    Untrimmed(t);
    assert PrefixRadix(t).None? && t[0] == 'I';
    LetterStart(t);
  }

  /** A text that starts with neither a digit, `.`, `e` nor `E` (a word such
      as `Infinity`, or a second sign) is not read as an integer. */
  lemma LetterStart(body: string)
    requires body != [] && !IsRadixDigit(body[0], 10) && body[0] !in {'.', 'e', 'E'}
    ensures UnsignedDecimal(body) == None
  {
    var p := FindAny(body, {'e', 'E'});
    assert p > 0;
    if p == |body| {
      MantissaLetterStart(body, 0);
    } else if SignedDecimal(body[p + 1..]).Some? {
      assert body[..p][0] == body[0];
      MantissaLetterStart(body[..p], SignedDecimal(body[p + 1..]).value);
    }
  }

  lemma MantissaLetterStart(mantissa: string, exponent: int)
    requires mantissa != [] && !IsRadixDigit(mantissa[0], 10) && mantissa[0] != '.'
    ensures Mantissa(mantissa, exponent) == None
  {
    var q := FindAny(mantissa, {'.'});
    assert q > 0 && mantissa[..q][0] == mantissa[0];
  }

  // ------------------------------------------------------------ search

  predicate StartsWith(s: string, prefix: string) {
    |prefix| <= |s| && s[..|prefix|] == prefix
  }

  predicate OccursAt(s: string, pat: string, i: nat) {
    i + |pat| <= |s| && s[i..i + |pat|] == pat
  }

  /** The first position at or after `from` where `pat` occurs in `s`. */
  function IndexFrom(s: string, pat: string, from: nat): (r: Option<nat>)
    requires from <= |s|
    decreases |s| - from
    ensures r.Some? ==> from <= r.value && OccursAt(s, pat, r.value)
    ensures r.Some? ==> forall j :: from <= j < r.value ==> !OccursAt(s, pat, j)
    ensures r.None? ==> forall j :: from <= j <= |s| ==> !OccursAt(s, pat, j)
  {
    if OccursAt(s, pat, from) then Some(from)
    else if from == |s| then None
    else IndexFrom(s, pat, from + 1)
  }

  /** `s.indexOf(pat)`, with `None` for -1. */
  function IndexOf(s: string, pat: string): Option<nat> {
    IndexFrom(s, pat, 0)
  }

  /** `s.includes(pat)`. */
  predicate Includes(s: string, pat: string) {
    IndexOf(s, pat).Some?
  }

  /** `s.replace(pat, rep)` with a string pattern: only the first occurrence is replaced. */
  function ReplaceFirst(s: string, pat: string, rep: string): string {
    match IndexOf(s, pat)
    case None => s
    case Some(i) => s[..i] + rep + s[i + |pat|..]
  }

  /** Removing the first occurrence of a pattern that starts with a character
      absent from `h` out of `h + pat` leaves exactly `h`. */
  lemma ReplaceFirstOfSuffix(h: string, pat: string)
    requires pat != [] && forall i :: 0 <= i < |h| ==> h[i] != pat[0]
    ensures ReplaceFirst(h + pat, pat, "") == h
  {
    var s := h + pat;
    assert OccursAt(s, pat, |h|) by { assert s[|h|..|h| + |pat|] == pat; }
    var r := IndexOf(s, pat);
    forall j | 0 <= j < |h| ensures !OccursAt(s, pat, j) {
      assert s[j] == h[j] != pat[0];
      assert j + |pat| <= |s| ==> s[j..j + |pat|][0] == s[j];
    }
    assert r.Some? && r.value == |h|;
    assert s[..|h|] == h;
  }

  /** A pattern found at some position is included. */
  lemma IncludesAt(s: string, pat: string, i: nat)
    requires OccursAt(s, pat, i)
    ensures Includes(s, pat)
  {
  }

  /** A string lacking one of the pattern's characters does not include it. */
  lemma NotIncludes(s: string, pat: string, c: char)
    requires c in pat && c !in s
    ensures !Includes(s, pat)
  {
    var j :| 0 <= j < |pat| && pat[j] == c;
    forall i | 0 <= i <= |s| ensures !OccursAt(s, pat, i) {
      if i + |pat| <= |s| {
        assert s[i..i + |pat|][j] == s[i + j];
      }
    }
  }

  /** Strings whose first characters differ do not start with one another. */
  lemma NotStartsWith(s: string, prefix: string)
    requires s != [] && prefix != [] && s[0] != prefix[0]
    ensures !StartsWith(s, prefix)
  {
    if |prefix| <= |s| {
      assert s[..|prefix|][0] == s[0];
    }
  }
}
