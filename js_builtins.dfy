/**
 * The JavaScript built-ins the budget tracker relies on, stated over
 * mathematical numbers: a JS `number` is a `real`, and NaN is `None`.
 *
 *  - `ParseFloat` is `parseFloat` for the simplified grammar
 *        ws* [+|-] digits* [ "." digits* ]
 *    where at least one digit must appear before or after the point; it reads
 *    the longest prefix of that shape and ignores the rest, and returns `None`
 *    (NaN) when there is no such prefix. Exponents and "Infinity" are not part
 *    of the grammar.
 *  - `ToFixed2` is `Number.prototype.toFixed(2)`: the nearest multiple of 1/100,
 *    ties away from zero, written with two decimals and a leading "-" when the
 *    number is negative.
 *  - `Trim` is `String.prototype.trim`, over the exact set of JS white space and
 *    line terminator characters.
 */
module JsBuiltins {

  datatype Option<+T> = None | Some(value: T)

  /** WhiteSpace and LineTerminator of ECMAScript (Zs spelled out). */
  predicate IsJsWhitespace(c: char) {
    || c == '\t' || c == '\n' || c == '\U{B}' || c == '\U{C}' || c == '\r'
    || c == ' ' || c == '\U{A0}' || c == '\U{1680}'
    || ('\U{2000}' <= c <= '\U{200A}')
    || c == '\U{2028}' || c == '\U{2029}' || c == '\U{202F}' || c == '\U{205F}'
    || c == '\U{3000}' || c == '\U{FEFF}'
  }

  predicate IsDigit(c: char) {
    '0' <= c <= '9'
  }

  function DigitValue(c: char): (d: nat)
    requires IsDigit(c)
    ensures d < 10
  {
    (c as int) - ('0' as int)
  }

  function DigitChar(d: nat): (c: char)
    requires d < 10
    ensures IsDigit(c) && DigitValue(c) == d
  {
    (('0' as int) + d) as char
  }

  predicate AllDigits(s: string) {
    forall i :: 0 <= i < |s| ==> IsDigit(s[i])
  }

  // ------------------------------------------------------------------
  // Trimming

  /** Drops the leading white space. */
  function TrimStart(s: string): (r: string)
    ensures |r| <= |s| && r == s[|s| - |r|..]
    ensures r == [] || !IsJsWhitespace(r[0])
    ensures forall i :: 0 <= i < |s| - |r| ==> IsJsWhitespace(s[i])
  {
    if |s| > 0 && IsJsWhitespace(s[0]) then TrimStart(s[1..]) else s
  }

  /** Drops the trailing white space. */
  function TrimEnd(s: string): (r: string)
    ensures |r| <= |s| && r == s[..|r|]
    ensures r == [] || !IsJsWhitespace(r[|r| - 1])
    ensures forall i :: |r| <= i < |s| ==> IsJsWhitespace(s[i])
  {
    if |s| > 0 && IsJsWhitespace(s[|s| - 1]) then TrimEnd(s[..|s| - 1]) else s
  }

  /** `s.trim()`: the part between the leading and the trailing white space. */
  function Trim(s: string): (r: string)
    ensures var i := |s| - |TrimStart(s)|;
      && i + |r| <= |s| && r == s[i..][..|r|]
      && (r == [] || (!IsJsWhitespace(r[0]) && !IsJsWhitespace(r[|r| - 1])))
      && (forall j :: 0 <= j < i ==> IsJsWhitespace(s[j]))
      && (forall j :: i + |r| <= j < |s| ==> IsJsWhitespace(s[j]))
  {
    TrimSlice(s);
    TrimEnd(TrimStart(s))
  }

  /** Trimming the end of the trimmed start leaves a slice with white space only around it. */
  lemma TrimSlice(s: string)
    ensures var t := TrimStart(s); var r := TrimEnd(t); var i := |s| - |t|;
      i + |r| <= |s| && r == s[i..][..|r|]
    ensures var r := TrimEnd(TrimStart(s));
      r == [] || (!IsJsWhitespace(r[0]) && !IsJsWhitespace(r[|r| - 1]))
    ensures forall j :: 0 <= j < |s| - |TrimStart(s)| ==> IsJsWhitespace(s[j])
    ensures var t := TrimStart(s); var r := TrimEnd(t); var i := |s| - |t|;
      forall j :: i + |r| <= j < |s| ==> IsJsWhitespace(s[j])
  {
    var t := TrimStart(s);
    SliceOfSuffix(s, t, TrimEnd(t));
  }

  /**
   * A prefix `r` of a suffix `t` of `s`, where `t` does not start and `r` does
   * not end with white space, and `r` is followed in `t` by white space only.
   */
  lemma SliceOfSuffix(s: string, t: string, r: string)
    requires |t| <= |s| && t == s[|s| - |t|..]
    requires |r| <= |t| && r == t[..|r|]
    requires t == [] || !IsJsWhitespace(t[0])
    requires r == [] || !IsJsWhitespace(r[|r| - 1])
    requires forall j :: |r| <= j < |t| ==> IsJsWhitespace(t[j])
    ensures var i := |s| - |t|;
      && i + |r| <= |s| && r == s[i..][..|r|]
      && (r == [] || (!IsJsWhitespace(r[0]) && !IsJsWhitespace(r[|r| - 1])))
      && (forall j :: i + |r| <= j < |s| ==> IsJsWhitespace(s[j]))
  {
    var i := |s| - |t|;
    if r != [] {
      assert r[0] == t[0];
    }
    forall j | i + |r| <= j < |s| ensures IsJsWhitespace(s[j]) {
      assert s[j] == t[j - i];
    }
  }

  /** `s.trim()` is empty exactly when every character of `s` is white space. */
  lemma TrimEmptyIffBlank(s: string)
    ensures Trim(s) == [] <==> forall i :: 0 <= i < |s| ==> IsJsWhitespace(s[i])
  {
    var t := TrimStart(s);
    if t != [] {
      assert !IsJsWhitespace(t[0]);
      assert s[|s| - |t|] == t[0];
    }
  }

  // ------------------------------------------------------------------
  // Digit strings

  /** `acc` followed by the digits of `s`, most significant digit first. */
  function Horner(s: string, acc: nat): nat
    requires AllDigits(s)
  {
    if s == [] then acc else Horner(s[1..], 10 * acc + DigitValue(s[0]))
  }

  /** The shortest decimal numeral of `n`. */
  function NatToDigits(n: nat): (s: string)
    ensures |s| >= 1 && AllDigits(s)
  {
    if n < 10 then [DigitChar(n)] else NatToDigits(n / 10) + [DigitChar(n % 10)]
  }

  lemma {:induction false} HornerSnoc(s: string, c: char, acc: nat)
    requires AllDigits(s) && IsDigit(c)
    ensures AllDigits(s + [c]) && Horner(s + [c], acc) == 10 * Horner(s, acc) + DigitValue(c)
  {
    assert AllDigits(s + [c]) by {
      forall i | 0 <= i < |s + [c]| ensures IsDigit((s + [c])[i]) {
        if i < |s| { assert (s + [c])[i] == s[i]; }
      }
    }
    if s != [] {
      assert (s + [c])[1..] == s[1..] + [c];
      HornerSnoc(s[1..], c, 10 * acc + DigitValue(s[0]));
    }
  }

  lemma {:induction false} NatToDigitsValue(n: nat)
    ensures Horner(NatToDigits(n), 0) == n
  {
    if n >= 10 {
      NatToDigitsValue(n / 10);
      HornerSnoc(NatToDigits(n / 10), DigitChar(n % 10), 0);
    }
  }

  // ------------------------------------------------------------------
  // parseFloat

  /** Reads integer digits; `acc` is their value so far and `seen` says whether one was read. */
  function ScanInt(s: string, acc: nat, seen: bool): Option<real> {
    if |s| > 0 && IsDigit(s[0]) then ScanInt(s[1..], 10 * acc + DigitValue(s[0]), true)
    else if |s| > 0 && s[0] == '.' then ScanFrac(s[1..], acc as real, 0.1, seen)
    else if seen then Some(acc as real)
    else None
  }

  /** The value read so far after one more digit `d` of weight `scale`. */
  function AddDigit(acc: real, d: nat, scale: real): real {
    acc + d as real * scale
  }

  /** Reads the digits after the point; `scale` is the weight of the next digit. */
  function ScanFrac(s: string, acc: real, scale: real, seen: bool): Option<real> {
    if |s| > 0 && IsDigit(s[0]) then ScanFrac(s[1..], AddDigit(acc, DigitValue(s[0]), scale), scale / 10.0, true)
    else if seen then Some(acc)
    else None
  }

  function Negate(r: Option<real>): Option<real> {
    match r
    case None => None
    case Some(x) => Some(-x)
  }

  /** An optional sign, then the unsigned numeral. */
  function ScanSigned(s: string): Option<real> {
    if |s| > 0 && s[0] == '-' then Negate(ScanInt(s[1..], 0, false))
    else if |s| > 0 && s[0] == '+' then ScanInt(s[1..], 0, false)
    else ScanInt(s, 0, false)
  }

  /** `parseFloat(s)`; `None` stands for NaN. Text that starts with a digit always gives a number. */
  function ParseFloat(s: string): (r: Option<real>)
    ensures |s| > 0 && IsDigit(s[0]) ==> r.Some?
  {
    if |s| > 0 && IsJsWhitespace(s[0]) then ParseFloat(s[1..])
    else if |s| > 0 && IsDigit(s[0]) then
      ScanIntSeen(s[1..], DigitValue(s[0]));
      ScanSigned(s)
    else ScanSigned(s)
  }

  /** The leading white space is skipped, then a signed numeral is read. */
  lemma {:induction false} ParseFloatAfterSpace(s: string)
    ensures ParseFloat(s) == ScanSigned(TrimStart(s))
  {
    if |s| > 0 && IsJsWhitespace(s[0]) {
      ParseFloatAfterSpace(s[1..]);
    }
  }

  /** `parseFloat(s) || 0`: NaN (and zero) become 0. */
  function ParseFloatOrZero(s: string): (x: real)
    ensures ParseFloat(s).None? ==> x == 0.0
    ensures ParseFloat(s).Some? ==> x == ParseFloat(s).value
  {
    match ParseFloat(s)
    case Some(v) => v
    case None => 0.0
  }

  lemma ParseFloatEmpty()
    ensures ParseFloat("") == None
  {
  }

  /** One character of white space in front changes nothing. */
  lemma ParseFloatSkipsSpace(c: char, s: string)
    requires IsJsWhitespace(c)
    ensures ParseFloat([c] + s) == ParseFloat(s)
  {
    assert ([c] + s)[1..] == s;
  }

  /**
   * A minus sign in front of a text that starts with neither white space nor a
   * sign negates its number (NaN stays NaN), and a plus sign changes nothing.
   */
  lemma ParseFloatSigns(s: string)
    requires s == [] || !(IsJsWhitespace(s[0]) || s[0] == '-' || s[0] == '+')
    ensures ParseFloat("-" + s) == Negate(ParseFloat(s))
    ensures ParseFloat("+" + s) == ParseFloat(s)
  {
    assert ("-" + s)[1..] == s && ("+" + s)[1..] == s;
    assert ParseFloat(s) == ScanInt(s, 0, false);
  }

  /** The text with one leading sign removed. */
  function Unsigned(u: string): string {
    if |u| > 0 && (u[0] == '-' || u[0] == '+') then u[1..] else u
  }

  /** A numeral starts here: a digit, or a point followed by a digit. */
  predicate StartsNumeral(u: string) {
    |u| > 0 && (IsDigit(u[0]) || (u[0] == '.' && |u| > 1 && IsDigit(u[1])))
  }

  lemma {:induction false} ScanFracSeen(u: string, acc: real, scale: real)
    ensures ScanFrac(u, acc, scale, true).Some?
  {
    if |u| > 0 && IsDigit(u[0]) {
      ScanFracSeen(u[1..], AddDigit(acc, DigitValue(u[0]), scale), scale / 10.0);
    }
  }

  lemma {:induction false} ScanIntSeen(u: string, acc: nat)
    ensures ScanInt(u, acc, true).Some?
  {
    if |u| > 0 && IsDigit(u[0]) {
      ScanIntSeen(u[1..], 10 * acc + DigitValue(u[0]));
    } else if |u| > 0 && u[0] == '.' {
      ScanFracSeen(u[1..], acc as real, 0.1);
    }
  }

  /** An unsigned numeral is read exactly when a digit comes first, or a point and then a digit. */
  lemma ScanUnsignedDefined(u: string)
    ensures ScanInt(u, 0, false).Some? <==> StartsNumeral(u)
  {
    if |u| > 0 && IsDigit(u[0]) {
      ScanIntSeen(u[1..], DigitValue(u[0]));
    } else if |u| > 0 && u[0] == '.' {
      if |u| > 1 && IsDigit(u[1]) {
        assert u[1..][0] == u[1];
        ScanFracSeen(u[2..], AddDigit(0.0, DigitValue(u[1]), 0.1), 0.1 / 10.0);
        assert u[1..][1..] == u[2..];
      }
    }
  }

  /**
   * `parseFloat` gives a number exactly when, after the leading white space
   * and one optional sign, a digit comes, or a point and then a digit; it is
   * NaN otherwise ("abc", ".", "-", "" and ". 5" are NaN, ".5" is 0.5).
   */
  lemma ParseFloatDefined(s: string)
    ensures ParseFloat(s).Some? <==> StartsNumeral(Unsigned(TrimStart(s)))
  {
    var u := TrimStart(s);
    ParseFloatAfterSpace(s);
    ScanUnsignedDefined(Unsigned(u));
  }

  /** A text that starts with a digit or a point is read without sign or white space. */
  lemma ParseFloatUnsigned(x: string)
    requires |x| > 0 && (IsDigit(x[0]) || x[0] == '.')
    ensures ParseFloat(x) == ScanInt(x, 0, false)
  {
    assert !IsJsWhitespace(x[0]) && x[0] != '-' && x[0] != '+';
    assert ParseFloat(x) == ScanSigned(x);
  }

  /** Integer digits at the front are absorbed into the accumulator. */
  lemma {:induction false} ScanIntDigits(q: string, rest: string, acc: nat, seen: bool)
    requires AllDigits(q)
    ensures ScanInt(q + rest, acc, seen) == ScanInt(rest, Horner(q, acc), seen || q != [])
  {
    if q == [] {
      assert q + rest == rest;
    } else {
      assert (q + rest)[0] == q[0];
      assert (q + rest)[1..] == q[1..] + rest;
      ScanIntDigits(q[1..], rest, 10 * acc + DigitValue(q[0]), true);
    }
  }

  /** The digits after the point end at the first character that is not a digit. */
  lemma {:induction false} ScanFracDigits(f: string, t: string, acc: real, scale: real, seen: bool)
    requires AllDigits(f) && (t == [] || !IsDigit(t[0]))
    ensures ScanFrac(f + t, acc, scale, seen) == ScanFrac(f, acc, scale, seen)
  {
    if f == [] {
      assert f + t == t;
    } else {
      assert (f + t)[0] == f[0] && (f + t)[1..] == f[1..] + t;
      ScanFracDigits(f[1..], t, AddDigit(acc, DigitValue(f[0]), scale), scale / 10.0, true);
    }
  }

  /**
   * The longest prefix is read: digits followed by a character that is
   * neither a digit nor a point read as those digits' value ("12a3" is 12).
   */
  lemma ParseFloatIntegerPrefix(q: string, t: string)
    requires q != [] && AllDigits(q) && (t == [] || !(IsDigit(t[0]) || t[0] == '.'))
    ensures ParseFloat(q + t) == Some(Horner(q, 0) as real)
  {
    assert (q + t)[0] == q[0];
    ParseFloatUnsigned(q + t);
    ScanIntDigits(q, t, 0, false);
  }

  /**
   * The longest prefix is read: after "digits.digits" anything that is not a
   * digit is ignored ("1.2.3" reads as "1.2", "7.5$" as "7.5").
   */
  lemma ParseFloatLongestPrefix(q: string, f: string, t: string)
    requires AllDigits(q) && AllDigits(f) && (t == [] || !IsDigit(t[0]))
    ensures ParseFloat(q + "." + f + t) == ParseFloat(q + "." + f)
  {
    var p := "." + f;
    assert q + "." + f + t == q + (p + t) && q + "." + f == q + p;
    FirstOfNumeral(q, p + t);
    FirstOfNumeral(q, p);
    ParseFloatUnsigned(q + (p + t));
    ParseFloatUnsigned(q + p);
    ScanIntDigits(q, p + t, 0, false);
    ScanIntDigits(q, p, 0, false);
    ScanPointDigits(f, t, Horner(q, 0), q != []);
  }

  lemma FirstOfNumeral(q: string, p: string)
    requires AllDigits(q) && |p| > 0 && p[0] == '.'
    ensures |q + p| > 0 && (IsDigit((q + p)[0]) || (q + p)[0] == '.')
  {
    if q == [] {
      assert q + p == p;
    } else {
      assert (q + p)[0] == q[0];
    }
  }

  /** Reading on from the point stops at the first character that is not a digit. */
  lemma ScanPointDigits(f: string, t: string, acc: nat, seen: bool)
    requires AllDigits(f) && (t == [] || !IsDigit(t[0]))
    ensures ScanInt("." + f + t, acc, seen) == ScanInt("." + f, acc, seen)
  {
    assert ("." + f + t)[1..] == f + t && ("." + f)[1..] == f;
    ScanFracDigits(f, t, acc as real, 0.1, seen);
  }


  /** One digit after the point: its weighted value joins the accumulator. */
  lemma ScanFracStep(s: string, acc: real, scale: real, seen: bool)
    requires |s| > 0 && IsDigit(s[0])
    ensures ScanFrac(s, acc, scale, seen) == ScanFrac(s[1..], acc + DigitValue(s[0]) as real * scale, scale / 10.0, true)
  {
  }

  lemma {:induction false} ScanFracNonNegative(s: string, acc: real, scale: real, seen: bool)
    requires acc >= 0.0 && scale > 0.0
    ensures ScanFrac(s, acc, scale, seen).Some? ==> ScanFrac(s, acc, scale, seen).value >= 0.0
  {
    if |s| > 0 && IsDigit(s[0]) {
      ScanFracStep(s, acc, scale, seen);
      assert DigitValue(s[0]) as real * scale >= 0.0;
      assert AddDigit(acc, DigitValue(s[0]), scale) >= 0.0;
      assert scale / 10.0 > 0.0;
      ScanFracNonNegative(s[1..], AddDigit(acc, DigitValue(s[0]), scale), scale / 10.0, true);
    }
  }

  lemma {:induction false} ScanIntNonNegative(s: string, acc: nat, seen: bool)
    ensures ScanInt(s, acc, seen).Some? ==> ScanInt(s, acc, seen).value >= 0.0
  {
    if |s| > 0 && IsDigit(s[0]) {
      ScanIntNonNegative(s[1..], 10 * acc + DigitValue(s[0]), true);
    } else if |s| > 0 && s[0] == '.' {
      ScanFracNonNegative(s[1..], acc as real, 0.1, seen);
    }
  }

  /** A text that starts with a digit or a point has no sign, so it is read as a non-negative number. */
  lemma ParseUnsignedNonNegative(s: string)
    requires s == [] || IsDigit(s[0]) || s[0] == '.'
    ensures ParseFloat(s).Some? ==> ParseFloat(s).value >= 0.0
  {
    assert ParseFloat(s) == ScanInt(s, 0, false);
    ScanIntNonNegative(s, 0, false);
  }

  // ------------------------------------------------------------------
  // toFixed(2)

  /** The number of hundredths `toFixed(2)` writes for a non-negative `x`. */
  function Cents(x: real): (n: nat)
    requires x >= 0.0
    ensures n as real <= x * 100.0 + 0.5 < n as real + 1.0
  {
    (x * 100.0 + 0.5).Floor
  }

  /** `x` rounded to hundredths, ties away from zero, as `toFixed(2)` prints it. */
  function Round2(x: real): real {
    if x < 0.0 then -(Cents(-x) as real / 100.0) else Cents(x) as real / 100.0
  }

  /** The text of `n` hundredths: the integer digits, ".", two decimals. */
  function CentsText(n: nat): (r: string)
    ensures |r| >= 4 && AllDigits(r[..|r| - 3]) && r[|r| - 3] == '.'
    ensures IsDigit(r[|r| - 2]) && IsDigit(r[|r| - 1])
  {
    var r := NatToDigits(n / 100) + "." + [DigitChar(n % 100 / 10), DigitChar(n % 10)];
    assert r[..|r| - 3] == NatToDigits(n / 100);
    r
  }

  /** `n` hundredths, with a "-" in front when `negative`. */
  function SignedCentsText(negative: bool, n: nat): (r: string)
    ensures |r| >= 4 && r[|r| - 3] == '.' && IsDigit(r[|r| - 2]) && IsDigit(r[|r| - 1])
    ensures !negative ==> AllDigits(r[..|r| - 3])
    ensures negative ==> r[0] == '-' && AllDigits(r[1..|r| - 3])
  {
    if negative then
      var a := CentsText(n);
      assert ("-" + a)[1..|a| - 2] == a[..|a| - 3];
      "-" + a
    else CentsText(n)
  }

  function Abs(x: real): (a: real)
    ensures a >= 0.0
  {
    if x < 0.0 then -x else x
  }

  /** `x.toFixed(2)`: optional "-", at least one integer digit, ".", exactly two decimals. */
  function ToFixed2(x: real): (r: string)
    ensures |r| >= 4 && r[|r| - 3] == '.' && IsDigit(r[|r| - 2]) && IsDigit(r[|r| - 1])
    ensures x >= 0.0 ==> AllDigits(r[..|r| - 3])
    ensures x < 0.0 ==> r[0] == '-' && AllDigits(r[1..|r| - 3])
  {
    SignedCentsText(x < 0.0, Cents(Abs(x)))
  }

  /** ".ab" after an integer part q is read as q + a/10 + b/100. */
  lemma ScanTwoDecimals(q: nat, d1: nat, d2: nat)
    requires d1 < 10 && d2 < 10
    ensures ScanInt("." + [DigitChar(d1), DigitChar(d2)], q, true)
            == Some(q as real + d1 as real * 0.1 + d2 as real * 0.1 / 10.0)
  {
    var digits := [DigitChar(d1), DigitChar(d2)];
    assert ("." + digits)[1..] == digits;
    assert ScanInt("." + digits, q, true) == ScanFrac(digits, q as real, 0.1, true);
    ScanFracStep(digits, q as real, 0.1, true);
    assert digits[1..] == [DigitChar(d2)];
    ScanFracStep([DigitChar(d2)], q as real + d1 as real * 0.1, 0.1 / 10.0, true);
    assert [DigitChar(d2)][1..] == [];
  }

  /** The integer part and the two decimals of n hundredths add up to n / 100. */
  lemma CentsValue(n: nat)
    ensures (n / 100) as real + (n % 100 / 10) as real * 0.1 + (n % 10) as real * 0.1 / 10.0 == n as real / 100.0
  {
    assert n == 100 * (n / 100) + 10 * (n % 100 / 10) + n % 10;
  }

  /** "q.dd" is read as q plus dd hundredths. */
  lemma ScanCentsText(n: nat)
    ensures ScanInt(CentsText(n), 0, false) == Some(n as real / 100.0)
  {
    var q := NatToDigits(n / 100);
    var rest := "." + [DigitChar(n % 100 / 10), DigitChar(n % 10)];
    assert CentsText(n) == q + rest;
    ScanIntDigits(q, rest, 0, false);
    NatToDigitsValue(n / 100);
    ScanTwoDecimals(n / 100, n % 100 / 10, n % 10);
    CentsValue(n);
  }

  lemma ParseCentsText(n: nat)
    ensures ParseFloat(CentsText(n)) == Some(n as real / 100.0)
  {
    ScanCentsText(n);
    var s := CentsText(n);
    assert IsDigit(s[0]);
    assert ParseFloat(s) == ScanInt(s, 0, false);
  }

  lemma ParseNegativeCentsText(n: nat)
    ensures ParseFloat("-" + CentsText(n)) == Some(-(n as real / 100.0))
  {
    ScanCentsText(n);
    var s := "-" + CentsText(n);
    assert s[1..] == CentsText(n);
    assert ParseFloat(s) == Negate(ScanInt(s[1..], 0, false));
  }

  lemma ParseSignedCentsText(negative: bool, n: nat)
    ensures ParseFloat(SignedCentsText(negative, n))
            == Some(if negative then -(n as real / 100.0) else n as real / 100.0)
  {
    if negative { ParseNegativeCentsText(n); } else { ParseCentsText(n); }
  }

  /** Reading back what `toFixed(2)` printed gives the rounded number. */
  lemma ParseToFixed2(x: real)
    ensures ParseFloat(ToFixed2(x)) == Some(Round2(x))
  {
    var negative, n := x < 0.0, Cents(Abs(x));
    var v := if negative then -(n as real / 100.0) else n as real / 100.0;
    assert Round2(x) == v;
    assert ToFixed2(x) == SignedCentsText(negative, n);
    ParseSignedCentsText(negative, n);
  }

  /**
   * Rounding to hundredths is idempotent, and `toFixed(2)` of a rounded
   * non-negative number prints the same text (a negative number that rounds to
   * zero prints "-0.00", its rounding "0.00").
   */
  lemma Round2Idempotent(x: real)
    ensures Round2(Round2(x)) == Round2(x)
    ensures x >= 0.0 ==> ToFixed2(Round2(x)) == ToFixed2(x)
  {
    var a := if x < 0.0 then -x else x;
    var n := Cents(a);
    var y := n as real / 100.0;
    assert (y * 100.0 + 0.5).Floor == n by {
      assert y * 100.0 + 0.5 == n as real + 0.5;
    }
  }
}
