/**
 The two Ruby conversions the channel registry depends on: `Integer#to_s`
 (how a configured channel number becomes a topic string) and
 `String#to_i(10)` (how the web server reads a channel number out of a
 query-string value). Both are modelled on `seq<char>`.
 */
module RubyConversions {

  /** The characters Ruby's integer parser skips before a number
      (space, tab, newline, vertical tab, form feed, carriage return). */
  predicate IsSpace(c: char) {
    c == ' ' || ('\t' <= c <= '\r')
  }

  predicate IsDigit(c: char) {
    '0' <= c <= '9'
  }

  predicate AllDigits(s: string) {
    forall i :: 0 <= i < |s| ==> IsDigit(s[i])
  }

  function DigitValue(c: char): (d: nat)
    requires IsDigit(c)
    ensures d < 10
  {
    (c as int) - ('0' as int)
  }

  function DigitChar(d: nat): (c: char)
    requires d < 10
    ensures IsDigit(c) && DigitValue(c) == d
  {
    (('0' as int) + d) as char
  }

  /** Drops the leading white space. */
  function SkipSpace(s: string): (t: string)
    ensures |t| <= |s| && t == s[|s| - |t|..]
    ensures t == [] || !IsSpace(t[0])
  {
    if |s| > 0 && IsSpace(s[0]) then SkipSpace(s[1..]) else s
  }

  /** The digits of the longest leading run of decimal digits, where a single
      underscore between two digits is allowed and dropped ("1_000" gives
      "1000"; "1__0" gives "1"; "_1" gives nothing). */
  function DigitRun(s: string): (ds: string)
    ensures AllDigits(ds)
  {
    if |s| == 0 || !IsDigit(s[0]) then []
    else if |s| >= 3 && s[1] == '_' && IsDigit(s[2]) then [s[0]] + DigitRun(s[2..])
    else [s[0]] + DigitRun(s[1..])
  }

  /** The natural number a string of decimal digits denotes (0 for none). */
  function Value(ds: string): nat
    requires AllDigits(ds)
  {
    if ds == [] then 0 else 10 * Value(ds[..|ds| - 1]) + DigitValue(ds[|ds| - 1])
  }

  /** Drops the "0d"/"0D" radix prefix that base 10 accepts after the sign. */
  function SkipRadixPrefix(s: string): string {
    if |s| >= 2 && s[0] == '0' && (s[1] == 'd' || s[1] == 'D') then s[2..] else s
  }

  /** `String#to_i(10)`: leading white space, an optional sign, an optional
      radix prefix, then the leading digit run; anything that is not a number
      gives 0, and whatever follows the digits is ignored. */
  function ToI(s: string): (r: int)
    ensures |s| > 0 && !IsSpace(s[0]) && !IsDigit(s[0]) && s[0] != '-' && s[0] != '+' ==> r == 0
    ensures |s| > 0 && !IsSpace(s[0]) && s[0] != '-' && s[0] != '+' ==> r >= 0
  {
    var t := SkipSpace(s);
    if |t| > 0 && t[0] == '-' then 0 - Value(DigitRun(SkipRadixPrefix(t[1..])))
    else if |t| > 0 && t[0] == '+' then Value(DigitRun(SkipRadixPrefix(t[1..])))
    else Value(DigitRun(SkipRadixPrefix(t)))
  }

  /** Decimal digits of a natural number, most significant first. */
  function NatToS(n: nat): (s: string)
    ensures |s| > 0 && AllDigits(s)
    ensures s[0] != '0' || n == 0
  {
    if n < 10 then [DigitChar(n)] else NatToS(n / 10) + [DigitChar(n % 10)]
  }

  /** `Integer#to_s`: a minus sign for a negative number, then its digits. */
  function ToS(n: int): (s: string)
    ensures |s| > 0
    ensures s[0] == '-' <==> n < 0
    ensures var digits := if n < 0 then s[1..] else s;
      |digits| > 0 && AllDigits(digits) && (digits[0] != '0' || n == 0)
  {
    if n < 0 then "-" + NatToS(-n) else NatToS(n)
  }

  lemma {:induction false} ValueOfNatToS(n: nat)
    ensures Value(NatToS(n)) == n
  {
    if n >= 10 {
      var s := NatToS(n);
      assert s[..|s| - 1] == NatToS(n / 10);
      ValueOfNatToS(n / 10);
    }
  }

  /** A string made only of digits is its own digit run. */
  lemma {:induction false} DigitRunOfDigits(s: string)
    requires AllDigits(s)
    ensures DigitRun(s) == s
  {
    if |s| > 0 {
      DigitRunOfDigits(s[1..]);
    }
  }

  /** A string of digits reads as the number its digits denote. */
  lemma ToIOfDigits(s: string)
    requires AllDigits(s)
    ensures ToI(s) == Value(s)
  {
    if s != [] {
      assert SkipSpace(s) == s;
      assert SkipRadixPrefix(s) == s by {
        if |s| >= 2 { assert IsDigit(s[1]); }
      }
    }
    DigitRunOfDigits(s);
  }

  /** Reading back what `to_s` wrote gives the number: `n.to_s.to_i(10) == n`. */
  lemma ToIOfToS(n: int)
    ensures ToI(ToS(n)) == n
  {
    var m := if n < 0 then -n else n;
    var ds := NatToS(m);
    ValueOfNatToS(m);
    if n >= 0 {
      ToIOfDigits(ds);
    } else {
      var s := ToS(n);
      assert s == "-" + ds;
      assert SkipSpace(s) == s;
      assert s[1..] == ds;
      assert SkipRadixPrefix(ds) == ds by {
        if |ds| >= 2 { assert IsDigit(ds[1]); }
      }
      DigitRunOfDigits(ds);
    }
  }

  /** Distinct numbers have distinct topic strings. */
  lemma ToSInjective(m: int, n: int)
    requires ToS(m) == ToS(n)
    ensures m == n
  {
    ToIOfToS(m);
    ToIOfToS(n);
  }
}
