/** The few Python built-ins that the plotter code leans on, stated exactly
    enough for the rest of the model: `float()` of a string, `int()` of a
    float (truncation toward zero), f-string formatting of an `int`,
    `str.strip`, `str.upper`, `str.splitlines` and `'\n'.join`. */
module Python {

  /** The two exceptions the modelled code can raise. */
  datatype Error = IndexError | ValueError

  /** A value, or the exception that a Python call raised instead. */
  datatype Result<T> = Ok(value: T) | Err(error: Error)

  datatype Option<T> = None | Some(value: T)

  // ---------------------------------------------------------------------
  // Digits

  predicate IsDigit(c: char) { '0' <= c <= '9' }

  predicate IsSign(c: char) { c == '+' || c == '-' }

  predicate AllDigits(s: string) { forall i :: 0 <= i < |s| ==> IsDigit(s[i]) }

  function DigitValue(c: char): (d: nat)
    requires IsDigit(c)
    ensures d < 10
  {
    c as int - '0' as int
  }

  function DigitChar(d: nat): (c: char)
    requires d < 10
    ensures IsDigit(c) && DigitValue(c) == d
  {
    ('0' as int + d) as char
  }

  /** Value of a run of decimal digits, most significant digit first. */
  function DigitsValue(s: string): nat
    requires AllDigits(s)
  {
    if s == [] then 0 else DigitsValue(s[..|s| - 1]) * 10 + DigitValue(s[|s| - 1])
  }

  /** Length of the longest run of digits in `s` that starts at `i`. */
  function DigitRun(s: string, i: nat): (n: nat)
    requires i <= |s|
    ensures i + n <= |s|
    decreases |s| - i
  {
    if i < |s| && IsDigit(s[i]) then 1 + DigitRun(s, i + 1) else 0
  }

  /** The run is made of digits and is as long as it can be. */
  lemma {:induction false} DigitRunIsRun(s: string, i: nat)
    requires i <= |s|
    ensures forall k :: i <= k < i + DigitRun(s, i) ==> IsDigit(s[k])
    ensures i + DigitRun(s, i) == |s| || !IsDigit(s[i + DigitRun(s, i)])
    decreases |s| - i
  {
    if i < |s| && IsDigit(s[i]) {
      DigitRunIsRun(s, i + 1);
    }
  }

  /** A digit run depends only on the characters from `i` onward. */
  lemma {:induction false} DigitRunSuffix(p: string, q: string, i: nat)
    requires i <= |q|
    ensures DigitRun(p + q, |p| + i) == DigitRun(q, i)
    decreases |q| - i
  {
    if i < |q| && IsDigit(q[i]) {
      assert (p + q)[|p| + i] == q[i];
      DigitRunSuffix(p, q, i + 1);
    } else if i < |q| {
      assert (p + q)[|p| + i] == q[i];
    }
  }

  /** A digit run ends at the first non-digit. */
  lemma {:induction false} DigitRunUpTo(s: string, i: nat, e: nat)
    requires i <= e <= |s|
    requires forall k :: i <= k < e ==> IsDigit(s[k])
    requires e == |s| || !IsDigit(s[e])
    ensures DigitRun(s, i) == e - i
    decreases e - i
  {
    if i < e {
      DigitRunUpTo(s, i + 1, e);
    }
  }

  /** On a string of digits from `i` on, the run covers the rest. */
  lemma {:induction false} DigitRunAll(s: string, i: nat)
    requires i <= |s| && AllDigits(s[i..])
    ensures DigitRun(s, i) == |s| - i
    decreases |s| - i
  {
    if i < |s| {
      assert s[i..][0] == s[i];
      assert s[i + 1..] == s[i..][1..];
      DigitRunAll(s, i + 1);
    }
  }

  function Pow10Nat(n: nat): (p: nat)
    ensures p >= 1
  {
    if n == 0 then 1 else 10 * Pow10Nat(n - 1)
  }

  function Pow10(e: int): (p: real)
    ensures p > 0.0
  {
    if e >= 0 then Pow10Nat(e) as real else 1.0 / Pow10Nat(-e) as real
  }

  // ---------------------------------------------------------------------
  // int() of a float, and the f-string form of an int

  /** Python's `int(x)` for a float `x`: truncation toward zero. */
  function Trunc(x: real): (i: int)
    ensures x >= 0.0 ==> 0 <= i && i as real <= x < i as real + 1.0
    ensures x < 0.0 ==> i <= 0 && i as real - 1.0 < x <= i as real
  {
    if x >= 0.0 then x.Floor else -((-x).Floor)
  }

  /** Decimal digits of a natural number, as `str(n)` writes them. */
  function ShowNat(n: nat): (s: string)
    ensures |s| > 0 && AllDigits(s)
  {
    if n < 10 then [DigitChar(n)] else ShowNat(n / 10) + [DigitChar(n % 10)]
  }

  /** `str(i)` for an int: a minus sign, then the digits of its magnitude. */
  function ShowInt(i: int): (s: string)
    ensures |s| > 0
  {
    if i < 0 then "-" + ShowNat(-i) else ShowNat(i)
  }

  /** Reading back the digits `str(n)` writes gives `n`. */
  lemma {:induction false} ShowNatValue(n: nat)
    ensures DigitsValue(ShowNat(n)) == n
  {
    if n >= 10 {
      var s := ShowNat(n);
      assert s[..|s| - 1] == ShowNat(n / 10);
      ShowNatValue(n / 10);
    }
  }

  // ---------------------------------------------------------------------
  // str.strip and str.upper

  /** The characters for which `str.isspace()` holds. */
  predicate IsSpace(c: char) {
    c == ' ' || ('\t' <= c <= '\r') || ('\U{1C}' <= c <= '\U{1F}') ||
    c == '\U{85}' || c == '\U{A0}' || c == '\U{1680}' ||
    ('\U{2000}' <= c <= '\U{200A}') || c == '\U{2028}' || c == '\U{2029}' ||
    c == '\U{202F}' || c == '\U{205F}' || c == '\U{3000}'
  }

  function LStrip(s: string): (t: string)
    ensures |t| <= |s|
    ensures t == [] || !IsSpace(t[0])
  {
    if s != [] && IsSpace(s[0]) then LStrip(s[1..]) else s
  }

  function RStrip(s: string): (t: string)
    ensures |t| <= |s|
    ensures t == [] || !IsSpace(t[|t| - 1])
  {
    if s != [] && IsSpace(s[|s| - 1]) then RStrip(s[..|s| - 1]) else s
  }

  /** `lstrip` removes a prefix. */
  lemma {:induction false} LStripSuffix(s: string)
    ensures LStrip(s) == s[|s| - |LStrip(s)|..]
  {
    if s != [] && IsSpace(s[0]) {
      var r := s[1..];
      LStripSuffix(r);
      assert r[|r| - |LStrip(r)|..] == s[|s| - |LStrip(s)|..];
    }
  }

  /** `rstrip` removes a suffix. */
  lemma {:induction false} RStripPrefix(s: string)
    ensures RStrip(s) == s[..|RStrip(s)|]
  {
    if s != [] && IsSpace(s[|s| - 1]) {
      var r := s[..|s| - 1];
      RStripPrefix(r);
      assert r[..|RStrip(r)|] == s[..|RStrip(s)|];
    }
  }

  /** `str.strip()` with no argument. */
  function Strip(s: string): (t: string)
    ensures t == [] || (!IsSpace(t[0]) && !IsSpace(t[|t| - 1]))
  {
    RStripPrefix(LStrip(s));
    RStrip(LStrip(s))
  }

  /** What `lstrip` removes is white space. */
  lemma {:induction false} LStripDrops(s: string)
    ensures forall k :: 0 <= k < |s| - |LStrip(s)| ==> IsSpace(s[k])
  {
    if s != [] && IsSpace(s[0]) {
      LStripDrops(s[1..]);
      assert forall k :: 1 <= k < |s| - |LStrip(s)| ==> s[k] == s[1..][k - 1];
    }
  }

  /** What `rstrip` removes is white space. */
  lemma {:induction false} RStripDrops(s: string)
    ensures forall k :: |RStrip(s)| <= k < |s| ==> IsSpace(s[k])
  {
    if s != [] && IsSpace(s[|s| - 1]) {
      RStripDrops(s[..|s| - 1]);
      assert forall k :: |RStrip(s)| <= k < |s| - 1 ==> s[k] == s[..|s| - 1][k];
    }
  }

  /** `strip()` cuts exactly the leading and trailing white space: the
      result is a slice of s with only white space outside it. With the
      ensures of `Strip` (no white space at either end of the result) this
      fixes the slice. */
  lemma StripTrims(s: string)
    ensures exists i, j ::
              (0 <= i <= j <= |s| && Strip(s) == s[i..j] &&
               (forall k :: 0 <= k < i ==> IsSpace(s[k])) &&
               (forall k :: j <= k < |s| ==> IsSpace(s[k])))
  {
    var l := LStrip(s);
    var i := |s| - |l|;
    LStripSuffix(s);
    LStripDrops(s);
    RStripPrefix(l);
    RStripDrops(l);
    var j := i + |Strip(s)|;
    assert Strip(s) == s[i..j];
    assert forall k :: j <= k < |s| ==> s[k] == l[k - i];
  }

  /** A string with no white space at either end is its own strip. */
  lemma StripUnspaced(s: string)
    requires s == [] || (!IsSpace(s[0]) && !IsSpace(s[|s| - 1]))
    ensures Strip(s) == s
  {
  }

  function UpperChar(c: char): (u: char)
    ensures 'a' <= c <= 'z' ==> u as int == c as int - 32
    ensures !('a' <= c <= 'z') ==> u == c
  {
    if 'a' <= c <= 'z' then (c as int - 32) as char else c
  }

  /** `str.upper()` on the ASCII letters. */
  function Upper(s: string): (u: string)
    ensures |u| == |s|
    ensures forall i :: 0 <= i < |s| ==> u[i] == UpperChar(s[i])
  {
    if s == [] then [] else [UpperChar(s[0])] + Upper(s[1..])
  }

  // ---------------------------------------------------------------------
  // float() of a string

  /** The exponent part of a float literal (`e`, optional sign, digits), or
      0 when there is none; None when what follows the mantissa is not an
      exponent. */
  function Exponent(x: string): Option<int>
  {
    if x == [] then Some(0)
    else if x[0] != 'e' && x[0] != 'E' then None
    else
      var y := if |x| > 1 && IsSign(x[1]) then x[2..] else x[1..];
      if y != [] && AllDigits(y) then
        var v: int := DigitsValue(y);
        Some(if x[1] == '-' then -v else v)
      else None
  }

  /** Where the mantissa of an unsigned literal ends: its digits, then an
      optional point and fraction digits. */
  function MantissaEnd(u: string): (m: nat)
    ensures m <= |u|
  {
    var w := DigitRun(u, 0);
    if w < |u| && u[w] == '.' then w + 1 + DigitRun(u, w + 1) else w
  }

  /** How many digits the mantissa holds, before and after the point. */
  function MantissaDigits(u: string): nat
  {
    var w := DigitRun(u, 0);
    if w < |u| && u[w] == '.' then w + DigitRun(u, w + 1) else w
  }

  /** The value of a literal with digits `whole` before the point and
      `frac` after it. */
  function DecimalMagnitude(whole: string, frac: string): real
    requires AllDigits(whole) && AllDigits(frac)
  {
    DigitsValue(whole) as real + DigitsValue(frac) as real / Pow10Nat(|frac|) as real
  }

  function MantissaValue(u: string): real
  {
    var w := DigitRun(u, 0);
    DigitRunIsRun(u, 0);
    if w < |u| && u[w] == '.' then
      var f := DigitRun(u, w + 1);
      DigitRunIsRun(u, w + 1);
      DecimalMagnitude(u[..w], u[w + 1..w + 1 + f])
    else DigitsValue(u[..w]) as real
  }

  /** A mantissa scaled by a power of ten. */
  function Scaled(m: real, e: int): real
  {
    m * Pow10(e)
  }

  /** `float()` of a literal without its sign and surrounding space. */
  function ParseUnsigned(u: string): Option<real>
  {
    if MantissaDigits(u) == 0 then None
    else
      match Exponent(u[MantissaEnd(u)..])
      case None => None
      case Some(e) => Some(Scaled(MantissaValue(u), e))
  }

  /** A literal that is all mantissa, with no exponent, has the mantissa's
      value. */
  lemma ParseUnsignedNoExponent(u: string)
    requires MantissaDigits(u) > 0 && MantissaEnd(u) == |u|
    ensures ParseUnsigned(u) == Some(MantissaValue(u))
  {
    assert u[MantissaEnd(u)..] == [];
    var m := MantissaValue(u);
    assert Scaled(m, 0) == m;
  }

  /** `float(s)` on decimal literals: white space around the literal, an
      optional sign, digits with an optional fraction (at least one digit in
      all) and an optional exponent. Anything else raises ValueError. */
  function ParseFloat(s: string): Option<real>
  {
    ParseStripped(Strip(s))
  }

  /** `float(s)` as a value or the ValueError it raises. */
  function Float(s: string): (r: Result<real>)
    ensures r.Ok? <==> ParseFloat(s).Some?
    ensures r.Err? ==> r.error == ValueError
  {
    match ParseFloat(s)
    case None => Err(ValueError)
    case Some(v) => Ok(v)
  }

  /** `float()` once the surrounding white space is gone. */
  function ParseStripped(t: string): Option<real>
  {
    if t != [] && IsSign(t[0]) then
      match ParseUnsigned(t[1..])
      case None => None
      case Some(v) => Some(if t[0] == '-' then -v else v)
    else ParseUnsigned(t)
  }

  /** A literal with no white space at either end converts as it stands. */
  lemma ParseUnspaced(s: string)
    requires s == [] || (!IsSpace(s[0]) && !IsSpace(s[|s| - 1]))
    ensures ParseFloat(s) == ParseStripped(s)
  {
    StripUnspaced(s);
  }

  lemma UnsignedLastChar(u: string)
    requires ParseUnsigned(u).Some?
    ensures u != [] && (IsDigit(u[|u| - 1]) || u[|u| - 1] == '.')
  {
    var w := DigitRun(u, 0);
    var m := MantissaEnd(u);
    if m == |u| {
      if w < |u| && u[w] == '.' {
        var f := DigitRun(u, w + 1);
        if f > 0 {
          assert u[w + 1..w + 1 + f][f - 1] == u[|u| - 1];
        }
      } else {
        assert u[0..w][w - 1] == u[|u| - 1];
      }
    } else {
      var x := u[m..];
      var y := if |x| > 1 && IsSign(x[1]) then x[2..] else x[1..];
      assert y[|y| - 1] == u[|u| - 1];
    }
  }

  /** The last character of a string is the last of its strip, unless it
      is white space. */
  lemma StripLastChar(s: string)
    requires Strip(s) != []
    ensures s != []
    ensures IsSpace(s[|s| - 1]) || s[|s| - 1] == Strip(s)[|Strip(s)| - 1]
  {
    var l := LStrip(s);
    var t := Strip(s);
    LStripSuffix(s);
    RStripPrefix(l);
    assert t[|t| - 1] == l[|t| - 1];
    if |t| == |l| {
      assert l[|l| - 1] == s[|s| - 1];
    }
  }

  /** A signed or unsigned literal ends in a digit or a point. */
  lemma StrippedLastChar(t: string)
    requires ParseStripped(t).Some?
    ensures t != [] && (IsDigit(t[|t| - 1]) || t[|t| - 1] == '.')
  {
    if t != [] && IsSign(t[0]) {
      var u := t[1..];
      UnsignedLastChar(u);
      assert t[|t| - 1] == u[|u| - 1];
    } else {
      UnsignedLastChar(t);
    }
  }

  /** A literal that `float()` accepts ends in a digit, a point or white
      space; in particular it never ends in a unit letter. */
  lemma ParseFloatLastChar(s: string)
    requires ParseFloat(s).Some?
    ensures s != []
    ensures IsDigit(s[|s| - 1]) || s[|s| - 1] == '.' || IsSpace(s[|s| - 1])
  {
    StrippedLastChar(Strip(s));
    StripLastChar(s);
  }

  /** `float()` of a plain digit string is its decimal value. */
  lemma ParseFloatDigits(s: string)
    requires s != [] && AllDigits(s)
    ensures ParseFloat(s) == Some(DigitsValue(s) as real)
  {
    assert Strip(s) == s by { StripUnspaced(s); }
    DigitRunAll(s, 0);
    assert s[..|s|] == s;
    assert MantissaEnd(s) == |s|;
    assert MantissaValue(s) == DigitsValue(s) as real;
    ParseUnsignedNoExponent(s);
  }

  // ---------------------------------------------------------------------
  // str.splitlines and '\n'.join

  /** The line boundaries of `str.splitlines()`. */
  predicate IsLineBreak(c: char) {
    c == '\n' || c == '\r' || c == '\U{0B}' || c == '\U{0C}' ||
    ('\U{1C}' <= c <= '\U{1E}') || c == '\U{85}' || c == '\U{2028}' || c == '\U{2029}'
  }

  predicate NoLineBreak(s: string) { forall i :: 0 <= i < |s| ==> !IsLineBreak(s[i]) }

  /** Index of the first line boundary at or after `i`, or |s|. */
  function NextBreak(s: string, i: nat): (j: nat)
    requires i <= |s|
    ensures i <= j <= |s|
    ensures j < |s| ==> IsLineBreak(s[j])
    ensures NoLineBreak(s[i..j])
    decreases |s| - i
  {
    if i == |s| || IsLineBreak(s[i]) then i else NextBreak(s, i + 1)
  }

  /** `s.splitlines()`: the text between boundaries, where "\r\n" counts as
      one boundary and a trailing boundary opens no empty last line. */
  function SplitLines(s: string): seq<string>
    decreases |s|
  {
    if s == [] then []
    else
      var i := NextBreak(s, 0);
      if i == |s| then [s]
      else
        var j := if s[i] == '\r' && i + 1 < |s| && s[i + 1] == '\n' then i + 2 else i + 1;
        [s[..i]] + SplitLines(s[j..])
  }

  /** `'\n'.join(lines)`. */
  function Join(lines: seq<string>): string
  {
    if lines == [] then ""
    else if |lines| == 1 then lines[0]
    else lines[0] + "\n" + Join(lines[1..])
  }

  lemma {:induction false} NextBreakPrefix(l: string, rest: string, i: nat)
    requires NoLineBreak(l) && i <= |l|
    requires rest != [] && IsLineBreak(rest[0])
    ensures NextBreak(l + rest, i) == |l|
    decreases |l| - i
  {
    if i < |l| {
      assert (l + rest)[i] == l[i];
      NextBreakPrefix(l, rest, i + 1);
    } else {
      assert (l + rest)[|l|] == rest[0];
    }
  }

  lemma {:induction false} NextBreakNone(l: string, i: nat)
    requires NoLineBreak(l) && i <= |l|
    ensures NextBreak(l, i) == |l|
    decreases |l| - i
  {
    if i < |l| {
      NextBreakNone(l, i + 1);
    }
  }

  /** A line that ends at a "\n" is split off the text after it. */
  lemma SplitAtNewline(l: string, t: string)
    requires l != [] && NoLineBreak(l)
    ensures SplitLines(l + "\n" + t) == [l] + SplitLines(t)
  {
    var rest := "\n" + t;
    var s := l + rest;
    assert s == l + "\n" + t;
    NextBreakPrefix(l, rest, 0);
    assert s[|l|] == '\n';
    assert s[..|l|] == l;
    assert s[|l| + 1..] == t;
  }

  /** Splitting the joined text gives back the lines, provided no line is
      empty and none holds a line boundary of its own. */
  lemma {:induction false} SplitJoin(lines: seq<string>)
    requires forall k :: 0 <= k < |lines| ==> lines[k] != [] && NoLineBreak(lines[k])
    ensures SplitLines(Join(lines)) == lines
  {
    if |lines| == 1 {
      NextBreakNone(lines[0], 0);
    } else if |lines| > 1 {
      SplitAtNewline(lines[0], Join(lines[1..]));
      SplitJoin(lines[1..]);
    }
  }
}
