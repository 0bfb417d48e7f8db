/**
 * JavaScript's `parseInt`, `parseFloat` and `Number.prototype.toString` as the
 * forms use them: on decimal text, with `NaN` as `None`.
 */
module Numbers {
  import opened Wrappers
  import opened Strings

  predicate IsDigit(c: char) {
    '0' <= c <= '9'
  }

  predicate IsHexDigit(c: char) {
    IsDigit(c) || 'a' <= c <= 'f' || 'A' <= c <= 'F'
  }

  /** The value of a hexadecimal digit; the parsers only ask it about digits. */
  function HexDigitValue(c: char): nat {
    if IsDigit(c) then c as int - '0' as int
    else if 'a' <= c <= 'f' then c as int - 'a' as int + 10
    else if 'A' <= c <= 'F' then c as int - 'A' as int + 10
    else 0
  }

  predicate AllDigits(s: string) {
    forall i :: 0 <= i < |s| ==> IsDigit(s[i])
  }

  /** The number of leading characters of `s` that are digits of the given base (10 or 16). */
  function LeadingDigits(s: string, hex: bool): (n: nat)
    ensures n <= |s|
  {
    if s != [] && (if hex then IsHexDigit(s[0]) else IsDigit(s[0])) then 1 + LeadingDigits(s[1..], hex) else 0
  }

  /** The value of a string of digits in the given base, most significant first. */
  function DigitsValue(s: string, hex: bool): nat {
    if s == [] then 0
    else DigitsValue(s[..|s| - 1], hex) * (if hex then 16 else 10) + HexDigitValue(s[|s| - 1])
  }

  function Pow10(n: nat): (p: nat)
    ensures p >= 1
  {
    if n == 0 then 1 else 10 * Pow10(n - 1)
  }

  /** `n.toString()` for a non-negative integer. */
  function NatToString(n: nat): (s: string)
    ensures |s| >= 1 && AllDigits(s)
    ensures s[0] == '0' ==> n == 0 && |s| == 1
  {
    var d := ['0' + (n % 10) as char];
    if n < 10 then d
    else
      var r := NatToString(n / 10) + d;
      assert r[0] == NatToString(n / 10)[0];
      r
  }

  /** Strips leading whitespace and one optional sign; says whether it was `-`. */
  function SignAndRest(s: string): (bool, string)
  {
    var t := TrimStart(s);
    if |t| > 0 && (t[0] == '-' || t[0] == '+') then (t[0] == '-', t[1..]) else (false, t)
  }

  /**
   * `parseInt(s)` with no radix: leading whitespace, an optional sign, an
   * optional `0x`/`0X` for hexadecimal, then the longest run of digits; `None`
   * (`NaN`) when that run is empty.
   */
  function ParseInt(s: string): (r: Option<int>)
  {
    var (negative, u) := SignAndRest(s);
    var hex := |u| >= 2 && u[0] == '0' && (u[1] == 'x' || u[1] == 'X');
    var body := if hex then u[2..] else u;
    var n := LeadingDigits(body, hex);
    if n == 0 then None
    else
      var v: int := DigitsValue(body[..n], hex);
      Some(if negative then -v else v)
  }

  /**
   * `parseFloat(s)` on decimal text: leading whitespace, an optional sign,
   * digits, and an optional `.` followed by digits; `None` (`NaN`) when there
   * is no digit on either side of the point.
   */
  function ParseFloat(s: string): (r: Option<real>)
  {
    var (negative, u) := SignAndRest(s);
    var i := LeadingDigits(u, false);
    var rest := u[i..];
    var frac := if |rest| > 0 && rest[0] == '.' then rest[1..][..LeadingDigits(rest[1..], false)] else "";
    if i == 0 && frac == "" then None
    else
      var v := DigitsValue(u[..i], false) as real + DigitsValue(frac, false) as real / Pow10(|frac|) as real;
      Some(if negative then -v else v)
  }

  /** `isNaN(parseFloat(s)) || parseFloat(s) <= 0` is false. */
  predicate IsPositiveFloat(s: string) {
    var r := ParseFloat(s);
    r.Some? && r.value > 0.0
  }

  /** `isNaN(parseFloat(s)) || parseFloat(s) < 0` is false. */
  predicate IsNonNegativeFloat(s: string) {
    var r := ParseFloat(s);
    r.Some? && r.value >= 0.0
  }

  /** `isNaN(parseInt(s)) || parseInt(s) <= 0` is false. */
  predicate IsPositiveInt(s: string) {
    var r := ParseInt(s);
    r.Some? && r.value > 0
  }

  /** Reading back the digits that `toString` wrote gives the number again. */
  lemma {:induction false} DigitsValueOfNatToString(n: nat)
    ensures DigitsValue(NatToString(n), false) == n
  {
    var s := NatToString(n);
    assert s[..|s| - 1] == if n < 10 then "" else NatToString(n / 10);
    if n >= 10 {
      DigitsValueOfNatToString(n / 10);
    }
  }

  /** `parseInt(n.toString()) === n` for every non-negative integer. */
  lemma ParseIntOfNatToString(n: nat)
    ensures ParseInt(NatToString(n)) == Some(n)
  {
    var s := NatToString(n);
    assert !IsSpace(s[0]) && s[0] != '-' && s[0] != '+';
    assert SignAndRest(s) == (false, s);
    assert !(|s| >= 2 && s[0] == '0');
    LeadingDigitsOfDigits(s);
    assert s[..|s|] == s;
    DigitsValueOfNatToString(n);
  }

  /** A string made of digits is one run of digits. */
  lemma {:induction false} LeadingDigitsOfDigits(s: string)
    requires AllDigits(s)
    ensures LeadingDigits(s, false) == |s|
  {
    if s != [] {
      LeadingDigitsOfDigits(s[1..]);
    }
  }

  /** A positive integer's own text is a positive integer for the form validators. */
  lemma PositiveNatIsPositiveInt(n: nat)
    requires n > 0
    ensures IsPositiveInt(NatToString(n))
  {
    ParseIntOfNatToString(n);
  }
  /** `n.toString()` for any integer: a minus sign before the digits of a negative one. */
  function IntToString(n: int): (s: string)
    ensures |s| >= 1
    ensures n >= 0 ==> AllDigits(s)
    ensures n < 0 ==> s[0] == '-' && AllDigits(s[1..])
  {
    if n >= 0 then NatToString(n) else "-" + NatToString(-n)
  }

  /** `parseInt(n.toString()) === n` for every integer. */
  lemma ParseIntOfIntToString(n: int)
    ensures ParseInt(IntToString(n)) == Some(n)
  {
    if n >= 0 {
      ParseIntOfNatToString(n);
    } else {
      var d := NatToString(-n);
      var s := IntToString(n);
      assert s == "-" + d && s[1..] == d;
      assert !IsSpace(s[0]);
      assert SignAndRest(s) == (true, d);
      assert !(|d| >= 2 && d[0] == '0');
      LeadingDigitsOfDigits(d);
      assert d[..|d|] == d;
      DigitsValueOfNatToString(-n);
    }
  }

  /** `parseFloat(n.toString()) === n` for every non-negative integer. */
  /** `parseFloat("")` is `NaN`. */
  lemma ParseFloatEmpty()
    ensures ParseFloat("") == None
  {
    assert SignAndRest("") == (false, "");
    assert LeadingDigits("", false) == 0;
  }

  lemma ParseFloatOfNatToString(n: nat)
    ensures ParseFloat(NatToString(n)) == Some(n as real)
  {
    var s := NatToString(n);
    assert !IsSpace(s[0]) && s[0] != '-' && s[0] != '+';
    assert SignAndRest(s) == (false, s);
    LeadingDigitsOfDigits(s);
    assert s[..|s|] == s && s[|s|..] == "";
    DigitsValueOfNatToString(n);
    assert DigitsValue("", false) as real / Pow10(0) as real == 0.0;
  }

  /** A positive integer's own text is a positive number for the form validators. */
  lemma PositiveNatIsPositiveFloat(n: nat)
    requires n > 0
    ensures IsPositiveFloat(NatToString(n))
  {
    ParseFloatOfNatToString(n);
  }
}
