// Decimal numbers and the byte-wise order of std::string.
module Texts {
  datatype Option<+T> = None | Some(value: T)

  function Digit(d: nat): char
    requires d < 10
  {
    "0123456789"[d]
  }

  predicate IsDigit(c: char) {
    '0' <= c <= '9'
  }

  // The text std::to_string prints for a number that is not negative.
  function NatText(n: nat): (s: string)
    ensures |s| > 0 && forall i :: 0 <= i < |s| ==> IsDigit(s[i])
  {
    if n < 10 then [Digit(n)] else NatText(n / 10) + [Digit(n % 10)]
  }

  // std::to_string.
  function IntText(n: int): (s: string)
    ensures |s| > 0 && forall i :: 0 <= i < |s| ==> IsDigit(s[i]) || s[i] == '-'
  {
    if n < 0 then "-" + NatText(-n) else NatText(n)
  }

  function DigitValue(c: char): nat
    requires IsDigit(c)
  {
    c as int - '0' as int
  }

  // The number a run of digits denotes.
  function DigitsValue(s: string): nat
    requires forall i :: 0 <= i < |s| ==> IsDigit(s[i])
  {
    if s == "" then 0
    else
      DigitsValue(s[..|s| - 1]) * 10 + DigitValue(s[|s| - 1])
  }

  // How many digits a text starts with.
  function DigitRun(s: string): (n: nat)
    ensures n <= |s| && forall i :: 0 <= i < n ==> IsDigit(s[i])
  {
    if s != "" && IsDigit(s[0]) then 1 + DigitRun(s[1..]) else 0
  }

  // Blank, or one of \t, \n, \v, \f and \r.
  predicate IsSpace(c: char) {
    c == ' ' || 9 <= c as int <= 13
  }

  function SkipSpaces(s: string): string {
    if s != "" && IsSpace(s[0]) then SkipSpaces(s[1..]) else s
  }

  // std::stol: blanks, an optional sign, then as many digits as there are. No digit is an error.
  function Stol(s: string): Option<int> {
    var t := SkipSpaces(s);
    if t == "" then None
    else if t[0] == '-' then Unsigned(t[1..], -1)
    else if t[0] == '+' then Unsigned(t[1..], 1)
    else Unsigned(t, 1)
  }

  function Unsigned(s: string, sign: int): Option<int> {
    var n := DigitRun(s);
    if n == 0 then None else Some(sign * DigitsValue(s[..n]))
  }

  lemma {:induction false} NatTextValue(n: nat)
    ensures DigitsValue(NatText(n)) == n
  {
    if n >= 10 {
      NatTextValue(n / 10);
      assert NatText(n)[..|NatText(n)| - 1] == NatText(n / 10);
    }
  }

  lemma {:induction false} DigitRunAll(s: string)
    requires forall i :: 0 <= i < |s| ==> IsDigit(s[i])
    ensures DigitRun(s) == |s|
  {
    if s != "" {
      DigitRunAll(s[1..]);
    }
  }

  lemma UnsignedNatText(n: nat, sign: int)
    ensures Unsigned(NatText(n), sign) == Some(sign * n)
  {
    NatTextValue(n);
    DigitRunAll(NatText(n));
    assert NatText(n)[..|NatText(n)|] == NatText(n);
  }

  // Reading back a printed number gives the number.
  lemma StolIntText(n: int)
    ensures Stol(IntText(n)) == Some(n)
  {
    if n < 0 {
      UnsignedNatText(-n, -1);
      assert IntText(n)[0] == '-' && IntText(n)[1..] == NatText(-n);
    } else {
      UnsignedNatText(n, 1);
      assert IsDigit(IntText(n)[0]);
    }
  }

  // Some numbers as std::to_string prints them.
  lemma IntTexts()
    ensures IntText(0) == "0" && IntText(7) == "7" && IntText(-42) == "-42" && IntText(1069) == "1069"
  {
    assert NatText(4) == "4" && NatText(42) == "42";
    assert NatText(1) == "1" && NatText(10) == "10" && NatText(106) == "106";
  }

  // A number that is not negative is printed with no zero in front.
  lemma {:induction false} NoLeadingZero(n: nat)
    requires n > 0
    ensures IntText(n)[0] != '0'
  {
    if n >= 10 {
      NoLeadingZero(n / 10);
      assert NatText(n)[0] == NatText(n / 10)[0];
    }
  }

  lemma IntTextInjective(a: int, b: int)
    requires IntText(a) == IntText(b)
    ensures a == b
  {
    StolIntText(a);
    StolIntText(b);
  }

  // ---- where a text splits at a separator ----

  // The position of the first c, or the length.
  function Find(s: string, c: char): (n: nat)
    ensures n <= |s| && (forall i :: 0 <= i < n ==> s[i] != c) && (n < |s| ==> s[n] == c)
  {
    if s == "" || s[0] == c then 0 else 1 + Find(s[1..], c)
  }

  lemma FindAt(a: string, c: char, b: string)
    requires c !in a
    ensures Find(a + [c] + b, c) == |a|
  {
    var s := a + [c] + b;
    assert s[|a|] == c;
    assert forall i :: 0 <= i < |a| ==> s[i] == a[i];
  }

  // ---- std::string::operator< ----

  predicate TextLess(a: string, b: string) {
    b != "" && (a == "" || a[0] < b[0] || (a[0] == b[0] && TextLess(a[1..], b[1..])))
  }

  // The texts are equal up to n, and there either a ends before b does or its character is the smaller one.
  ghost predicate SmallerAt(a: string, b: string, n: nat) {
    && n <= |a| && n < |b| && (forall i :: 0 <= i < n ==> a[i] == b[i])
    && (n < |a| ==> a[n] < b[n])
  }

  // The first difference decides, and a text is before every longer text that starts with it.
  lemma {:induction false} TextLessIff(a: string, b: string)
    ensures TextLess(a, b) <==> exists n: nat :: SmallerAt(a, b, n)
  {
    if a == "" || b == "" || a[0] != b[0] {
      assert TextLess(a, b) ==> SmallerAt(a, b, 0);
    } else {
      var s, t := a[1..], b[1..];
      TextLessIff(s, t);
      if n: nat :| SmallerAt(s, t, n) {
        assert SmallerAt(a, b, n + 1);
      }
      if n: nat :| SmallerAt(a, b, n) {
        assert SmallerAt(s, t, n - 1);
      }
    }
  }

  lemma {:induction false} TextLessTotal(a: string, b: string)
    ensures a == b || TextLess(a, b) || TextLess(b, a)
  {
    if a != "" && b != "" && a[0] == b[0] {
      TextLessTotal(a[1..], b[1..]);
      assert a == [a[0]] + a[1..] && b == [b[0]] + b[1..];
    }
  }

  lemma {:induction false} TextLessAsymmetric(a: string, b: string)
    requires TextLess(a, b)
    ensures !TextLess(b, a) && a != b
  {
    if a != "" && a[0] == b[0] {
      TextLessAsymmetric(a[1..], b[1..]);
    }
  }

  lemma {:induction false} TextLessTransitive(a: string, b: string, c: string)
    requires TextLess(a, b) && TextLess(b, c)
    ensures TextLess(a, c)
  {
    if a != "" && a[0] == b[0] == c[0] {
      TextLessTransitive(a[1..], b[1..], c[1..]);
    }
  }
}
