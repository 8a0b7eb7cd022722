/**
 * Number parsing as the modelled code uses it: JavaScript Number(),
 * parseFloat and parseInt(_, 10), Python float() and int() on strings, and
 * Number.prototype.toString on naturals. One decimal grammar serves all of
 * them: an optional sign, digits, and an optional '.' with more digits (at
 * least one digit in all). A result of None stands for NaN in JavaScript and
 * for a ValueError in Python.
 */
module Parse {
  import opened Common

  predicate IsDigit(c: char) {
    '0' <= c <= '9'
  }

  function DigitValue(c: char): nat
    requires IsDigit(c)
  {
    c as int - '0' as int
  }

  /** ASCII white space. */
  predicate IsSpace(c: char) {
    c == ' ' || c == '\t' || c == '\n' || c == '\r'
  }

  predicate AllDigits(s: string) {
    forall i :: 0 <= i < |s| ==> IsDigit(s[i])
  }

  function TrimStart(s: string): (r: string)
    ensures |r| <= |s|
    ensures r == [] || !IsSpace(r[0])
  {
    if s != [] && IsSpace(s[0]) then TrimStart(s[1..]) else s
  }

  function TrimEnd(s: string): (r: string)
    ensures |r| <= |s|
    ensures r == [] || !IsSpace(r[|r| - 1])
  {
    if s != [] && IsSpace(s[|s| - 1]) then TrimEnd(s[..|s| - 1]) else s
  }

  /** String.prototype.trim / str.strip. */
  function Trim(s: string): string {
    TrimEnd(TrimStart(s))
  }

  /** Length of the longest prefix made of digits. */
  function LeadingDigits(s: string): (n: nat)
    ensures n <= |s| && AllDigits(s[..n])
    ensures n == |s| || !IsDigit(s[n])
  {
    if s != [] && IsDigit(s[0]) then
      var k := LeadingDigits(s[1..]);
      assert s[..k + 1] == [s[0]] + s[1..][..k];
      k + 1
    else 0
  }

  /** The value of a string of decimal digits. */
  function DigitsValue(d: string): nat
    requires AllDigits(d)
  {
    if d == [] then 0
    else 10 * DigitsValue(d[..|d| - 1]) + DigitValue(d[|d| - 1])
  }

  function Pow10(n: nat): (r: nat)
    ensures r >= 1
  {
    if n == 0 then 1 else 10 * Pow10(n - 1)
  }

  /** A recognised number and the number of characters it spans. */
  datatype Scan = Scan(value: real, length: nat)

  /** digits [ '.' digits ], with at least one digit, at the start of s. */
  function ScanUnsigned(s: string): (r: Option<Scan>)
    ensures r.Some? ==> 0 < r.value.length <= |s| && 0.0 <= r.value.value
    ensures r.Some? <==> |s| > 0 && (IsDigit(s[0]) || (s[0] == '.' && |s| > 1 && IsDigit(s[1])))
  {
    var i := LeadingDigits(s);
    var whole := DigitsValue(s[..i]) as real;
    if i < |s| && s[i] == '.' then
      var f := LeadingDigits(s[i + 1..]);
      if i + f == 0 then None
      else Some(Scan(whole + DigitsValue(s[i + 1..][..f]) as real / Pow10(f) as real, i + 1 + f))
    else if i == 0 then None
    else Some(Scan(whole, i))
  }

  /** An optional '+' or '-' followed by an unsigned number. */
  function ScanSigned(s: string): (r: Option<Scan>)
    ensures r.Some? ==> 0 < r.value.length <= |s|
  {
    if s != [] && (s[0] == '+' || s[0] == '-') then
      match ScanUnsigned(s[1..])
      case Some(sc) => Some(Scan(if s[0] == '-' then -sc.value else sc.value, sc.length + 1))
      case None => None
    else ScanUnsigned(s)
  }

  /** A number spanning all of s. */
  function WholeNumber(s: string): Option<real> {
    match ScanSigned(s)
    case Some(sc) => if sc.length == |s| then Some(sc.value) else None
    case None => None
  }

  /** JavaScript Number(s): blank strings give 0, trailing garbage gives NaN. */
  function ToNumber(s: string): (r: Option<real>)
    ensures Trim(s) == [] ==> r == Some(0.0)
  {
    var t := Trim(s);
    if t == [] then Some(0.0) else WholeNumber(t)
  }

  /** JavaScript parseFloat(s): the longest numeric prefix after leading spaces. */
  function ParseFloat(s: string): (r: Option<real>)
    ensures r.Some? <==> ScanSigned(TrimStart(s)).Some?
  {
    match ScanSigned(TrimStart(s))
    case Some(sc) => Some(sc.value)
    case None => None
  }

  /** s without a leading '+' or '-'. */
  function Unsigned(t: string): string {
    if t != [] && (t[0] == '+' || t[0] == '-') then t[1..] else t
  }

  /** parseInt(s, 10): an optional sign and the leading digits after leading spaces. */
  function ParseInt(s: string): (r: Option<int>)
    ensures r.Some? <==> LeadingDigits(Unsigned(TrimStart(s))) > 0
  {
    var t := TrimStart(s);
    var negative := t != [] && t[0] == '-';
    var body := Unsigned(t);
    var n := LeadingDigits(body);
    if n == 0 then None
    else
      var v: int := DigitsValue(body[..n]);
      Some(if negative then -v else v)
  }

  /** Python float(s) on a string. */
  function PyFloat(s: string): (r: Option<real>)
    ensures Trim(s) == [] ==> r == None
  {
    WholeNumber(Trim(s))
  }

  /** Python int(s) on a string: an optional sign and digits, nothing else. */
  function PyInt(s: string): (r: Option<int>)
    ensures r.Some? ==> Trim(s) != []
  {
    var t := Trim(s);
    var negative := t != [] && t[0] == '-';
    var body := Unsigned(t);
    if body != [] && AllDigits(body) then
      var v: int := DigitsValue(body);
      Some(if negative then -v else v)
    else None
  }

  function DigitChar(d: nat): (c: char)
    requires d < 10
    ensures IsDigit(c) && DigitValue(c) == d
  {
    ('0' as int + d) as char
  }

  /** Number.prototype.toString on a natural number. */
  function NatToString(n: nat): (s: string)
    ensures s != [] && AllDigits(s)
  {
    (if n < 10 then [] else NatToString(n / 10)) + [DigitChar(n % 10)]
  }

  lemma {:induction false} NatToStringValue(n: nat)
    ensures DigitsValue(NatToString(n)) == n
  {
    var s := NatToString(n);
    if n >= 10 {
      assert s[..|s| - 1] == NatToString(n / 10);
      NatToStringValue(n / 10);
    } else {
      assert s[..|s| - 1] == [];
    }
  }

  lemma LeadingDigitsOfDigits(s: string)
    requires AllDigits(s)
    ensures LeadingDigits(s) == |s|
  {
    if s != [] {
      LeadingDigitsOfDigits(s[1..]);
    }
  }

  /** What localStorage gets from n.toString(), parseInt reads back. */
  lemma ParseIntOfNatToString(n: nat)
    ensures ParseInt(NatToString(n)) == Some(n)
  {
    var s := NatToString(n);
    assert TrimStart(s) == s by {
      assert !IsSpace(s[0]);
    }
    assert Unsigned(s) == s;
    LeadingDigitsOfDigits(s);
    assert s[..|s|] == s;
    NatToStringValue(n);
  }

  /** Number.prototype.toString on an integer. */
  function IntToString(n: int): (s: string)
    ensures s != []
  {
    if n < 0 then "-" + NatToString(-n) else NatToString(n)
  }

  /** parseInt reads back what toString wrote, negative numbers included. */
  lemma ParseIntOfIntToString(n: int)
    ensures ParseInt(IntToString(n)) == Some(n)
  {
    if n < 0 {
      var d := NatToString(-n);
      var s := "-" + d;
      assert TrimStart(s) == s;
      assert Unsigned(s) == d;
      LeadingDigitsOfDigits(d);
      assert d[..|d|] == d;
      NatToStringValue(-n);
    } else {
      ParseIntOfNatToString(n);
    }
  }

  /** parseFloat reads a natural's digits back as that number. */
  lemma ParseFloatOfNatToString(n: nat)
    ensures ParseFloat(NatToString(n)) == Some(n as real)
  {
    var s := NatToString(n);
    assert TrimStart(s) == s by {
      assert !IsSpace(s[0]);
    }
    LeadingDigitsOfDigits(s);
    assert s[..|s|] == s;
    NatToStringValue(n);
  }

  /** parseInt of the text "NaN" is NaN again. */
  lemma ParseIntOfNaN()
    ensures ParseInt("NaN") == None
  {
    assert TrimStart("NaN") == "NaN";
    assert Unsigned("NaN") == "NaN";
    assert !IsDigit("NaN"[0]);
  }

  /** A string starting with a letter is not a number. */
  lemma LetterIsNotNumber(s: string)
    requires s != [] && ('a' <= s[0] <= 'z' || 'A' <= s[0] <= 'Z')
    ensures ToNumber(s) == None
  {
    assert TrimStart(s) == s;
    var t := Trim(s);
    TrimEndIsPrefix(s);
    assert t == s[..|t|];
    assert t != [] by {
      assert !IsSpace(s[|s| - 1]) || |s| > 0;
      if t == [] {
        TrimEndOfNonSpaceStart(s);
      }
    }
    assert t[0] == s[0];
  }

  /** Trimming the end keeps a prefix. */
  lemma {:induction false} TrimEndIsPrefix(s: string)
    ensures TrimEnd(s) == s[..|TrimEnd(s)|]
  {
    if s != [] && IsSpace(s[|s| - 1]) {
      TrimEndIsPrefix(s[..|s| - 1]);
    }
  }

  lemma TrimEndOfNonSpaceStart(s: string)
    requires s != [] && !IsSpace(s[0])
    ensures TrimEnd(s) != []
  {
    if |s| > 1 && IsSpace(s[|s| - 1]) {
      TrimEndOfNonSpaceStart(s[..|s| - 1]);
    }
  }
}
