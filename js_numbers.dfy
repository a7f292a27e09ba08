/** The JavaScript number operations the pages rely on, over integers:
    `parseInt` (section 19.2.5 of ECMA-262), `Number.prototype.toString`
    for integers, `String.prototype.replace(/,/g, '')` and `Math.round` of
    a quotient. */
module JsNumbers {

  /** The result of `parseInt`: NaN, or an integral Number. */
  datatype Parsed = NaN | Int(value: int)

  /** StrWhiteSpaceChar of ECMA-262: the WhiteSpace and LineTerminator code points. */
  predicate IsStrWhiteSpace(c: char) {
    c == '\t' || c == '\n' || c == '\U{000B}' || c == '\U{000C}' || c == '\r' ||
    c == ' ' || c == '\U{00A0}' || c == '\U{1680}' ||
    ('\U{2000}' <= c <= '\U{200A}') ||
    c == '\U{2028}' || c == '\U{2029}' || c == '\U{202F}' || c == '\U{205F}' ||
    c == '\U{3000}' || c == '\U{FEFF}'
  }

  /** Step 2 of `parseInt`: drop the leading white space. */
  function TrimStart(s: string): (r: string)
    ensures |r| <= |s| && r == s[|s| - |r|..]
    ensures r == [] || !IsStrWhiteSpace(r[0])
    ensures forall i :: 0 <= i < |s| - |r| ==> IsStrWhiteSpace(s[i])
  {
    if s != [] && IsStrWhiteSpace(s[0]) then TrimStart(s[1..]) else s
  }

  /** Steps 3 and 4: drop one leading `+` or `-`. */
  function Unsigned(s: string): string {
    if s != [] && (s[0] == '+' || s[0] == '-') then s[1..] else s
  }

  /** The value of `c` as a digit: `0`-`9`, then `a`-`z` and `A`-`Z` for
      10 to 35; 36 for every other character, a digit in no radix. */
  function DigitValue(c: char): (d: nat)
    ensures d <= 36
    ensures d < 10 <==> '0' <= c <= '9'
  {
    if '0' <= c <= '9' then c as int - '0' as int
    else if 'a' <= c <= 'z' then c as int - 'a' as int + 10
    else if 'A' <= c <= 'Z' then c as int - 'A' as int + 10
    else 36
  }

  predicate IsDecimalDigit(c: char) {
    '0' <= c <= '9'
  }

  predicate IsDecimalString(s: string) {
    forall i :: 0 <= i < |s| ==> IsDecimalDigit(s[i])
  }

  /** The length of the longest prefix of `s` made of radix-`radix` digits (step 11). */
  function DigitRun(s: string, radix: nat): (n: nat)
    ensures n <= |s|
    ensures forall i :: 0 <= i < n ==> DigitValue(s[i]) < radix
    ensures n < |s| ==> DigitValue(s[n]) >= radix
  {
    if s != [] && DigitValue(s[0]) < radix then 1 + DigitRun(s[1..], radix) else 0
  }

  /** The mathematical value of a numeral written in radix `radix` (step 13). */
  function Numeral(digits: string, radix: nat): nat {
    if digits == [] then 0
    else Numeral(digits[..|digits| - 1], radix) * radix + DigitValue(digits[|digits| - 1])
  }

  /** Steps 6 to 13 on the text after the sign: the radix (0 means none
      was given, which allows a `0x` prefix and otherwise reads decimal),
      then the longest run of digits, NaN when that run is empty. */
  function Magnitude(s: string, radix: int): (r: Parsed)
    requires radix == 0 || 2 <= radix <= 36
    ensures r.Int? ==> r.value >= 0
  {
    var hex := (radix == 0 || radix == 16) && |s| >= 2 && s[0] == '0' && (s[1] == 'x' || s[1] == 'X');
    var body := if hex then s[2..] else s;
    var base := if hex then 16 else if radix == 0 then 10 else radix;
    var n := DigitRun(body, base);
    if n == 0 then NaN else Int(Numeral(body[..n], base))
  }

  /** `parseInt(input, radix)`; `radix == 0` is a call without a radix. */
  function ParseInt(input: string, radix: int): Parsed {
    var s := TrimStart(input);
    var negative := s != [] && s[0] == '-';
    if radix != 0 && !(2 <= radix <= 36) then NaN
    else
      match Magnitude(Unsigned(s), radix)
      case NaN => NaN
      case Int(m) => Int(if negative then -m else m)
  }

  /** `n.toString()` for a non-negative integer. */
  function DecimalString(n: nat): (s: string)
    ensures s != [] && IsDecimalString(s)
    ensures |s| > 1 ==> s[0] != '0'
  {
    if n < 10 then ['0' + n as char]
    else DecimalString(n / 10) + ['0' + (n % 10) as char]
  }

  /** `n.toString()` for any integer. */
  function IntToString(n: int): string {
    if n < 0 then "-" + DecimalString(-n) else DecimalString(n)
  }

  /** `s.replace(/,/g, '')`: every comma removed, every other character kept in order. */
  function RemoveCommas(s: string): string {
    if s == [] then []
    else (if s[0] == ',' then [] else [s[0]]) + RemoveCommas(s[1..])
  }

  /** No comma survives, and text without commas comes back unchanged. */
  lemma {:induction false} RemoveCommasSpec(s: string)
    ensures ',' !in RemoveCommas(s)
    ensures ',' !in s ==> RemoveCommas(s) == s
  {
    if s != [] {
      RemoveCommasSpec(s[1..]);
      assert ',' !in s ==> ',' !in s[1..];
    }
  }

  /** Only the commas go: every other character keeps its count. */
  lemma {:induction false} RemoveCommasKeepsOthers(s: string)
    ensures multiset(RemoveCommas(s)) == multiset(s)[',' := 0]
  {
    if s != [] {
      assert s == [s[0]] + s[1..];
      RemoveCommasKeepsOthers(s[1..]);
    }
  }

  /** `Math.round(p / q)`: the integer nearest to the quotient, halves
      rounded up (towards positive infinity). */
  function RoundQuotient(p: int, q: int): (r: int)
    requires q != 0
    ensures q > 0 ==> 2 * q * r - q <= 2 * p < 2 * q * r + q
    ensures q < 0 ==> 2 * (-q) * r - (-q) <= 2 * (-p) < 2 * (-q) * r + (-q)
  {
    if q > 0 then (2 * p + q) / (2 * q) else (-2 * p - q) / (-2 * q)
  }

  // ---------------------------------------------------------------------
  // Properties of the model

  /** Dividing by a positive number keeps the order. */
  lemma RoundQuotientMonotone(p1: int, p2: int, q: int)
    requires q > 0 && p1 <= p2
    ensures RoundQuotient(p1, q) <= RoundQuotient(p2, q)
  {
    var r1, r2 := RoundQuotient(p1, q), RoundQuotient(p2, q);
    if r1 > r2 {
      assert 2 * q * r1 >= 2 * q * r2 + 2 * q by {
        assert r1 >= r2 + 1;
        MultiplyMonotone(2 * q, r2 + 1, r1);
      }
    }
  }

  lemma MultiplyMonotone(k: int, a: int, b: int)
    requires k > 0 && a <= b
    ensures k * a <= k * b
  {
  }

  /** A numeral with one more digit on the right is worth radix times as much, plus that digit. */
  lemma NumeralSnoc(digits: string, c: char, radix: nat)
    ensures Numeral(digits + [c], radix) == Numeral(digits, radix) * radix + DigitValue(c)
  {
    assert (digits + [c])[..|digits + [c]| - 1] == digits;
  }

  /** Reading back what `toString` wrote gives the number again. */
  lemma {:induction false} NumeralOfDecimalString(n: nat)
    ensures Numeral(DecimalString(n), 10) == n
  {
    if n < 10 {
      assert DecimalString(n) == [] + ['0' + n as char];
      NumeralSnoc([], '0' + n as char, 10);
    } else {
      NumeralOfDecimalString(n / 10);
      NumeralSnoc(DecimalString(n / 10), '0' + (n % 10) as char, 10);
    }
  }

  /** Removing commas piecewise is removing them from the whole. */
  lemma {:induction false} RemoveCommasConcat(a: string, b: string)
    ensures RemoveCommas(a + b) == RemoveCommas(a) + RemoveCommas(b)
  {
    if a != [] {
      var head := if a[0] == ',' then [] else [a[0]];
      assert (a + b)[0] == a[0] && (a + b)[1..] == a[1..] + b;
      calc {
        RemoveCommas(a + b);
        head + RemoveCommas(a[1..] + b);
        { RemoveCommasConcat(a[1..], b); }
        head + (RemoveCommas(a[1..]) + RemoveCommas(b));
        (head + RemoveCommas(a[1..])) + RemoveCommas(b);
        RemoveCommas(a) + RemoveCommas(b);
      }
    } else {
      assert a + b == b;
    }
  }

  /** After the sign, a non-empty run of decimal digits is read whole, in decimal. */
  lemma MagnitudeOfDecimalString(s: string, radix: int)
    requires s != [] && IsDecimalString(s)
    requires radix == 0 || radix == 10
    ensures Magnitude(s, radix) == Int(Numeral(s, 10))
  {
    assert !(|s| >= 2 && (s[1] == 'x' || s[1] == 'X')) by {
      if |s| >= 2 { assert IsDecimalDigit(s[1]); }
    }
    assert DigitRun(s, 10) == |s| by {
      assert forall i :: 0 <= i < |s| ==> DigitValue(s[i]) < 10;
    }
    assert s[..|s|] == s;
  }

  /** A decimal string, possibly after a sign, has no leading white space. */
  lemma TrimStartOfNumeral(s: string)
    requires s != [] && (IsDecimalDigit(s[0]) || s[0] == '-')
    ensures TrimStart(s) == s
  {
    assert !IsStrWhiteSpace(s[0]);
  }

  /** A non-empty string of decimal digits parses to its decimal value,
      with or without an explicit radix of 10. */
  lemma ParseDecimalString(s: string)
    requires s != [] && IsDecimalString(s)
    ensures ParseInt(s, 10) == Int(Numeral(s, 10))
    ensures ParseInt(s, 0) == Int(Numeral(s, 10))
  {
    assert IsDecimalDigit(s[0]);
    TrimStartOfNumeral(s);
    assert Unsigned(s) == s;
    MagnitudeOfDecimalString(s, 10);
    MagnitudeOfDecimalString(s, 0);
  }

  /** `parseInt` inverts `toString` on every integer. */
  lemma ParseIntToString(n: int)
    ensures ParseInt(IntToString(n), 10) == Int(n)
    ensures ParseInt(IntToString(n), 0) == Int(n)
  {
    var m: nat := if n < 0 then -n else n;
    var digits := DecimalString(m);
    NumeralOfDecimalString(m);
    if n < 0 {
      var s := IntToString(n);
      assert s == "-" + digits && s[0] == '-';
      TrimStartOfNumeral(s);
      assert Unsigned(s) == digits;
      MagnitudeOfDecimalString(digits, 10);
      MagnitudeOfDecimalString(digits, 0);
    } else {
      ParseDecimalString(digits);
    }
  }

  /** Without a radix, or with radix 16, a `0x` prefix followed by hex
      digits is read whole, in hexadecimal. */
  lemma ParseHexPrefixed(h: string)
    requires h != [] && forall i :: 0 <= i < |h| ==> DigitValue(h[i]) < 16
    ensures ParseInt("0x" + h, 0) == Int(Numeral(h, 16))
    ensures ParseInt("0x" + h, 16) == Int(Numeral(h, 16))
  {
    var s := "0x" + h;
    assert s[0] == '0' && s[1] == 'x' && s[2..] == h;
    TrimStartOfNumeral(s);
    assert Unsigned(s) == s;
    assert DigitRun(h, 16) == |h|;
    assert h[..|h|] == h;
  }

  /** With radix 10, `parseInt` is NaN exactly when, after the white space
      and the sign, the text does not start with a decimal digit. */
  lemma ParseIntNaN(s: string)
    ensures ParseInt(s, 10).NaN? <==>
      (Unsigned(TrimStart(s)) == [] || !IsDecimalDigit(Unsigned(TrimStart(s))[0]))
  {
  }
}
