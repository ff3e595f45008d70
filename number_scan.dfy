/** The number scanner that tool_paths.py runs over path commands and over
    HPGL lines: `re.findall(r"[-+]?\d*\.\d+|\d+", s)` followed by `float()`
    of each match. The regex keeps a sign only in front of a token that has
    a decimal point, so "-5" scans as 5 while "-5.5" scans as -5.5. */
module NumberScan {
  import opened Python

  /** A match of the second alternative, `\d+`. */
  predicate IsIntToken(t: string) { t != [] && AllDigits(t) }

  /** A token without its sign. */
  function Unsigned(t: string): (u: string)
    ensures |u| <= |t|
  {
    if t != [] && IsSign(t[0]) then t[1..] else t
  }

  /** A match of the first alternative, `[-+]?\d*\.\d+`. */
  predicate IsDecimalToken(t: string) {
    var u := Unsigned(t);
    var w := DigitRun(u, 0);
    w < |u| && u[w] == '.' && w + 1 < |u| && AllDigits(u[w + 1..])
  }

  /** The digits before the point of a decimal token. */
  function WholePart(t: string): (ds: string)
    requires IsDecimalToken(t)
    ensures AllDigits(ds)
  {
    var u := Unsigned(t);
    DigitRunIsRun(u, 0);
    assert forall m :: 0 <= m < DigitRun(u, 0) ==> u[..DigitRun(u, 0)][m] == u[m];
    u[..DigitRun(u, 0)]
  }

  /** The digits after the point of a decimal token. */
  function FracPart(t: string): (fs: string)
    requires IsDecimalToken(t)
    ensures fs != [] && AllDigits(fs)
  {
    Unsigned(t)[DigitRun(Unsigned(t), 0) + 1..]
  }

  predicate IsNumberToken(t: string) { IsIntToken(t) || IsDecimalToken(t) }

  /** The number a token writes: the value of its digits, with the sign a
      decimal token carries. */
  function TokenValue(t: string): real
    requires IsNumberToken(t)
  {
    if IsIntToken(t) then DigitsValue(t) as real
    else
      var m := DecimalMagnitude(WholePart(t), FracPart(t));
      if t[0] == '-' then -m else m
  }

  /** Length of the regex match at the start of `s`, 0 when none matches
      there. The first alternative is tried first; `\d*` backtracking cannot
      help it, because only a point may follow the digits. */
  function MatchLength(s: string): (n: nat)
    ensures n <= |s|
  {
    if s == [] then 0
    else
      var j := if IsSign(s[0]) then 1 else 0;
      var k := j + DigitRun(s, j);
      if k < |s| && s[k] == '.' && DigitRun(s, k + 1) > 0 then k + 1 + DigitRun(s, k + 1)
      else DigitRun(s, 0)
  }

  /** A digit run inside a prefix is the run in the whole string, cut at
      the end of the prefix. */
  lemma {:induction false} DigitRunWithin(s: string, a: nat, b: nat, k: nat)
    requires a <= b <= |s| && k <= b - a
    ensures DigitRun(s[a..b], k) == if DigitRun(s, a + k) <= b - a - k then DigitRun(s, a + k) else b - a - k
    decreases b - a - k
  {
    if k < b - a {
      assert s[a..b][k] == s[a + k];
      DigitRunWithin(s, a, b, k + 1);
    }
  }

  /** An optionally signed run of digits, a point and at least one more
      digit, read off the start of the string, is a token of the first
      alternative. */
  lemma DecimalMatchIsToken(s: string, j: nat, k: nat, f: nat)
    requires j <= 1 && j <= k < |s|
    requires j == 1 <==> IsSign(s[0])
    requires k == j + DigitRun(s, j) && s[k] == '.'
    requires f == DigitRun(s, k + 1) && f > 0
    ensures IsDecimalToken(s[..k + 1 + f])
  {
    var e := k + 1 + f;
    var t := s[..e];
    var u := if t != [] && IsSign(t[0]) then t[1..] else t;
    assert t[0] == s[0];
    assert u == s[j..e];
    DigitRunWithin(s, j, e, 0);
    DigitRunIsRun(s, k + 1);
    assert DigitRun(u, 0) == k - j;
    assert u[k - j] == s[k];
    assert u[k - j + 1..] == s[k + 1..e];
  }

  /** A non-empty digit run at the start of the string is a token of the
      second alternative. */
  lemma IntMatchIsToken(s: string)
    requires DigitRun(s, 0) > 0
    ensures IsIntToken(s[..DigitRun(s, 0)])
  {
    var n := DigitRun(s, 0);
    DigitRunIsRun(s, 0);
    var r := s[..n];
    assert forall m :: 0 <= m < n ==> r[m] == s[m];
  }

  /** Every non-empty match is a token of the regex. */
  lemma MatchIsToken(s: string)
    requires MatchLength(s) > 0
    ensures IsNumberToken(s[..MatchLength(s)])
  {
    var j := if IsSign(s[0]) then 1 else 0;
    var k := j + DigitRun(s, j);
    if k < |s| && s[k] == '.' && DigitRun(s, k + 1) > 0 {
      DecimalMatchIsToken(s, j, k, DigitRun(s, k + 1));
    } else {
      assert MatchLength(s) == DigitRun(s, 0);
      IntMatchIsToken(s);
    }
  }

  /** `re.findall(r"[-+]?\d*\.\d+|\d+", s)`: a match at the start is
      taken and the scan goes on after it; otherwise one character is
      skipped. */
  function Tokens(s: string): (toks: seq<string>)
    decreases |s|
  {
    if s == [] then []
    else
      var n := MatchLength(s);
      if n > 0 then [s[..n]] + Tokens(s[n..]) else Tokens(s[1..])
  }

  /** Every match `findall` returns has the form of the regex. */
  lemma {:induction false} ScanTokens(s: string)
    ensures forall k :: 0 <= k < |Tokens(s)| ==> IsNumberToken(Tokens(s)[k])
    decreases |s|
  {
    if s != [] {
      var n := MatchLength(s);
      if n > 0 {
        MatchIsToken(s);
        ScanTokens(s[n..]);
      } else {
        ScanTokens(s[1..]);
      }
    }
  }

  /** A decimal token starts with a sign, a digit or a point and ends in
      a digit, so it has no white space to strip. */
  lemma DecimalTokenUnspaced(t: string)
    requires IsDecimalToken(t)
    ensures t != [] && !IsSpace(t[0]) && !IsSpace(t[|t| - 1])
  {
    var u := Unsigned(t);
    var w := DigitRun(u, 0);
    assert u[|u| - 1] == u[w + 1..][|u| - w - 2];
    assert t[|t| - 1] == u[|u| - 1];
    if !IsSign(t[0]) {
      DigitRunIsRun(u, 0);
      assert w == 0 ==> t[0] == '.';
    }
  }

  /** `float()` of the unsigned part of a decimal token. */
  lemma DecimalTokenUnsigned(t: string)
    requires IsDecimalToken(t)
    ensures ParseUnsigned(Unsigned(t)) == Some(DecimalMagnitude(WholePart(t), FracPart(t)))
  {
    var u := Unsigned(t);
    var w := DigitRun(u, 0);
    DigitRunIsRun(u, 0);
    assert WholePart(t) == u[..w];
    UnsignedDecimalValue(u, w);
  }

  /** The sign in front of an unsigned literal, once white space is gone. */
  lemma StrippedSign(t: string, v: real)
    requires t != [] && ParseUnsigned(Unsigned(t)) == Some(v)
    ensures ParseStripped(t) == Some(if t[0] == '-' then -v else v)
  {
  }

  /** `float()` of every token is the number the token writes. */
  lemma TokenParses(t: string)
    requires IsNumberToken(t)
    ensures ParseFloat(t) == Some(TokenValue(t))
  {
    if IsIntToken(t) {
      ParseFloatDigits(t);
    } else {
      DecimalTokenUnspaced(t);
      ParseUnspaced(t);
      DecimalTokenUnsigned(t);
      StrippedSign(t, DecimalMagnitude(WholePart(t), FracPart(t)));
    }
  }

  /** `float()` of each token, which is its value by `TokenParses`. */
  function Values(toks: seq<string>): (vs: seq<real>)
    requires forall k :: 0 <= k < |toks| ==> IsNumberToken(toks[k])
    ensures |vs| == |toks|
  {
    if toks == [] then [] else [TokenValue(toks[0])] + Values(toks[1..])
  }

  lemma {:induction false} ValuesAt(toks: seq<string>, k: nat)
    requires forall k :: 0 <= k < |toks| ==> IsNumberToken(toks[k])
    requires k < |toks|
    ensures Values(toks)[k] == TokenValue(toks[k])
  {
    if k > 0 {
      ValuesAt(toks[1..], k - 1);
    }
  }

  /** Each value is what `float()` makes of its token. */
  lemma ValuesParse(toks: seq<string>, k: nat)
    requires forall k :: 0 <= k < |toks| ==> IsNumberToken(toks[k])
    requires k < |toks|
    ensures ParseFloat(toks[k]) == Some(Values(toks)[k])
  {
    ValuesAt(toks, k);
    TokenParses(toks[k]);
  }

  /** The numbers the code reads out of `s`. */
  function Numbers(s: string): seq<real>
  {
    ScanTokens(s);
    Values(Tokens(s))
  }

  /** The value of a token is negative only if the token has a decimal
      point: the sign of an integer is not part of its token. */
  lemma TokenValueSign(t: string)
    requires IsNumberToken(t)
    ensures TokenValue(t) < 0.0 ==> '.' in t
  {
    if !IsIntToken(t) {
      var u := Unsigned(t);
      var w := DigitRun(u, 0);
      assert t[|t| - |u| + w] == u[w];
    }
  }

  /** A value read by the scanner is negative only if its token has a
      decimal point. */
  lemma NegativeNeedsPoint(s: string, k: nat)
    requires k < |Tokens(s)|
    ensures |Numbers(s)| == |Tokens(s)|
    ensures Numbers(s)[k] < 0.0 ==> '.' in Tokens(s)[k]
  {
    ScanTokens(s);
    ValuesAt(Tokens(s), k);
    TokenValueSign(Tokens(s)[k]);
  }

  // ---------------------------------------------------------------------
  // Scanning laws used for the lines the HPGL emitter writes

  /** A match that covers the prefix `t` is the next token. */
  lemma TokensCons(t: string, rest: string)
    requires t != [] && MatchLength(t + rest) == |t|
    ensures Tokens(t + rest) == [t] + Tokens(rest)
  {
    var s := t + rest;
    assert s[..|t|] == t;
    assert s[|t|..] == rest;
  }

  /** A first character where no match starts is skipped. */
  lemma TokensSkip(c: char, rest: string)
    requires MatchLength([c] + rest) == 0
    ensures Tokens([c] + rest) == Tokens(rest)
  {
    assert ([c] + rest)[1..] == rest;
  }

  /** A character that can start no token is skipped. */
  lemma ScanSkip(c: char, rest: string)
    requires !IsDigit(c) && !IsSign(c) && c != '.'
    ensures Tokens([c] + rest) == Tokens(rest)
  {
    assert MatchLength([c] + rest) == 0;
    TokensSkip(c, rest);
  }

  /** A digit run that starts inside a block of digits runs through it. */
  lemma {:induction false} DigitRunConcat(ds: string, tail: string, i: nat)
    requires AllDigits(ds) && i <= |ds|
    ensures DigitRun(ds + tail, i) == |ds| - i + DigitRun(tail, 0)
    decreases |ds| - i
  {
    if i < |ds| {
      assert (ds + tail)[i] == ds[i];
      DigitRunConcat(ds, tail, i + 1);
    } else {
      DigitRunSuffix(ds, tail, 0);
    }
  }

  /** The digit run at the start of `ds + rest` is `ds` when `rest` does
      not start with a digit. */
  lemma DigitRunOfBlock(ds: string, rest: string)
    requires AllDigits(ds)
    requires rest == [] || !IsDigit(rest[0])
    ensures DigitRun(ds + rest, 0) == |ds|
  {
    assert DigitRun(rest, 0) == 0;
    DigitRunConcat(ds, rest, 0);
  }

  /** A digit run that is not followed by a point scans as one token. */
  lemma ScanUnsignedInt(ds: string, rest: string)
    requires ds != [] && AllDigits(ds)
    requires rest == [] || (!IsDigit(rest[0]) && rest[0] != '.')
    ensures Tokens(ds + rest) == [ds] + Tokens(rest)
  {
    var q := ds + rest;
    DigitRunOfBlock(ds, rest);
    assert q[0] == ds[0];
    assert rest != [] ==> q[|ds|] == rest[0];
    assert MatchLength(q) == |ds|;
    TokensCons(ds, rest);
  }

  /** No match starts at a sign that is followed by an integer. */
  lemma SignedIntegerNoMatch(c: char, ds: string, rest: string)
    requires IsSign(c) && ds != [] && AllDigits(ds)
    requires rest == [] || (!IsDigit(rest[0]) && rest[0] != '.')
    ensures MatchLength([c] + (ds + rest)) == 0
  {
    var q := ds + rest;
    var s := [c] + q;
    DigitRunSuffix([c], q, 0);
    DigitRunOfBlock(ds, rest);
    assert rest != [] ==> s[1 + |ds|] == rest[0];
    assert DigitRun(s, 0) == 0;
  }

  lemma SignPrefix(sign: string, x: string, y: string)
    requires |sign| == 1
    ensures sign + x + y == [sign[0]] + (x + y)
  {
  }

  /** A sign followed by an integer is skipped; the integer is the token. */
  lemma ScanSignedInteger(sign: string, ds: string, rest: string)
    requires sign == "-" || sign == "+"
    requires ds != [] && AllDigits(ds)
    requires rest == [] || (!IsDigit(rest[0]) && rest[0] != '.')
    ensures Tokens(sign + ds + rest) == [ds] + Tokens(rest)
  {
    ScanUnsignedInt(ds, rest);
    SignPrefix(sign, ds, rest);
    SignedIntegerNoMatch(sign[0], ds, rest);
    TokensSkip(sign[0], ds + rest);
  }

  /** The scanner drops the sign in front of an integer: "-5" and "+5"
      both scan as the token "5". */
  lemma ScanInteger(sign: string, ds: string, rest: string)
    requires sign == [] || sign == "-" || sign == "+"
    requires ds != [] && AllDigits(ds)
    requires rest == [] || (!IsDigit(rest[0]) && rest[0] != '.')
    ensures Tokens(sign + ds + rest) == [ds] + Tokens(rest)
  {
    if sign == [] {
      assert sign + ds == ds;
      ScanUnsignedInt(ds, rest);
    } else {
      ScanSignedInteger(sign, ds, rest);
    }
  }

  /** The match at the start of `s` when it is a decimal: the optional
      sign, the whole digits `j..k`, the point at `k` and `f` fraction
      digits. */
  lemma DecimalMatch(s: string, j: nat, k: nat, f: nat)
    requires s != [] && j <= 1 && (j == 1 <==> IsSign(s[0]))
    requires j <= |s| && k == j + DigitRun(s, j) && k < |s| && s[k] == '.'
    requires k + 1 <= |s| && f == DigitRun(s, k + 1) && f > 0
    ensures MatchLength(s) == k + 1 + f
  {
  }

  predicate OptionalSign(sign: string) { sign == [] || sign == "-" || sign == "+" }

  lemma DecimalWholeRun(sign: string, ds: string, fs: string, rest: string)
    requires OptionalSign(sign) && AllDigits(ds)
    ensures DigitRun(sign + ds + "." + fs + rest, |sign|) == |ds|
  {
    var mid := "." + fs + rest;
    assert sign + ds + "." + fs + rest == sign + (ds + mid);
    DigitRunSuffix(sign, ds + mid, 0);
    DigitRunOfBlock(ds, mid);
  }

  lemma DecimalFracRun(sign: string, ds: string, fs: string, rest: string)
    requires AllDigits(fs) && (rest == [] || !IsDigit(rest[0]))
    ensures DigitRun(sign + ds + "." + fs + rest, |sign + ds + "."|) == |fs|
  {
    var pre := sign + ds + ".";
    assert sign + ds + "." + fs + rest == pre + (fs + rest);
    DigitRunSuffix(pre, fs + rest, 0);
    DigitRunOfBlock(fs, rest);
  }

  lemma DecimalLayout(sign: string, ds: string, fs: string, rest: string)
    requires OptionalSign(sign)
    ensures |sign + ds + "." + fs + rest| == |sign| + |ds| + 1 + |fs| + |rest|
    ensures (sign + ds + "." + fs + rest)[|sign| + |ds|] == '.'
    ensures IsSign((sign + ds + "." + fs + rest)[0]) <==> sign != [] || (ds != [] && IsSign(ds[0]))
  {
    var s := sign + ds + "." + fs + rest;
    assert s == (sign + ds + ".") + (fs + rest);
    assert (sign + ds + ".")[|sign| + |ds|] == '.';
    if sign != [] {
      assert s[0] == sign[0];
    } else if ds != [] {
      assert s[0] == ds[0];
    } else {
      assert s[0] == '.';
    }
  }

  /** The match at the start of a decimal literal covers the literal. */
  lemma DecimalMatchLength(sign: string, ds: string, fs: string, rest: string)
    requires OptionalSign(sign)
    requires AllDigits(ds) && fs != [] && AllDigits(fs)
    requires rest == [] || !IsDigit(rest[0])
    ensures MatchLength(sign + ds + "." + fs + rest) == |sign| + |ds| + 1 + |fs|
  {
    DecimalLayout(sign, ds, fs, rest);
    DecimalWholeRun(sign, ds, fs, rest);
    DecimalFracRun(sign, ds, fs, rest);
    DecimalMatch(sign + ds + "." + fs + rest, |sign|, |sign| + |ds|, |fs|);
  }

  /** The scanner keeps the sign in front of a decimal: "-5.5" scans as
      the token "-5.5". */
  lemma ScanDecimal(sign: string, ds: string, fs: string, rest: string)
    requires OptionalSign(sign)
    requires AllDigits(ds) && fs != [] && AllDigits(fs)
    requires rest == [] || !IsDigit(rest[0])
    ensures Tokens(sign + ds + "." + fs + rest) == [sign + ds + "." + fs] + Tokens(rest)
  {
    var t := sign + ds + "." + fs;
    DecimalMatchLength(sign, ds, fs, rest);
    assert sign + ds + "." + fs + rest == t + rest;
    TokensCons(t, rest);
  }

  lemma DecimalMantissa(u: string, w: nat)
    requires w + 1 < |u| && u[w] == '.'
    requires AllDigits(u[..w]) && AllDigits(u[w + 1..])
    ensures MantissaDigits(u) > 0 && MantissaEnd(u) == |u|
    ensures MantissaValue(u) == DecimalMagnitude(u[..w], u[w + 1..])
  {
    assert forall m :: 0 <= m < w ==> u[m] == u[..w][m];
    DigitRunUpTo(u, 0, w);
    DigitRunAll(u, w + 1);
    assert u[w + 1..w + 1 + (|u| - w - 1)] == u[w + 1..];
  }

  /** `float()` of an unsigned decimal: digits, a point, more digits. */
  lemma UnsignedDecimalValue(u: string, w: nat)
    requires w + 1 < |u| && u[w] == '.'
    requires AllDigits(u[..w]) && AllDigits(u[w + 1..])
    ensures ParseUnsigned(u) == Some(DecimalMagnitude(u[..w], u[w + 1..]))
  {
    DecimalMantissa(u, w);
    ParseUnsignedNoExponent(u);
  }

  /** A string that scans as a single token reads as that token's value. */
  lemma NumbersOfOneToken(s: string, t: string)
    requires Tokens(s) == [t] && IsNumberToken(t)
    ensures Numbers(s) == [TokenValue(t)]
  {
    ScanTokens(s);
  }

  /** The sign in front of an integer is dropped: "-5" reads as 5. */
  lemma SignDroppedOnInteger(sign: string, ds: string)
    requires sign == "-" || sign == "+"
    requires ds != [] && AllDigits(ds)
    ensures Numbers(sign + ds) == [DigitsValue(ds) as real]
  {
    ScanInteger(sign, ds, []);
    assert sign + ds + [] == sign + ds;
    assert Tokens([]) == [];
    NumbersOfOneToken(sign + ds, ds);
  }

  lemma UnsignedParts(ds: string, fs: string)
    requires AllDigits(ds)
    ensures DigitRun(ds + "." + fs, 0) == |ds| && (ds + "." + fs)[|ds|] == '.'
    ensures (ds + "." + fs)[..|ds|] == ds && (ds + "." + fs)[|ds| + 1..] == fs
  {
    DigitRunOfBlock(ds, "." + fs);
    assert ds + ("." + fs) == ds + "." + fs;
  }

  lemma UnsignedOfSigned(sign: string, ds: string, fs: string)
    requires OptionalSign(sign) && AllDigits(ds)
    ensures Unsigned(sign + ds + "." + fs) == ds + "." + fs
    ensures (sign + ds + "." + fs)[0] == if sign != [] then sign[0] else if ds != [] then ds[0] else '.'
  {
    var u := ds + "." + fs;
    assert sign + ds + "." + fs == sign + u;
    assert u[0] == if ds != [] then ds[0] else '.';
  }

  /** The parts of a decimal literal written out are the digits it was
      written from. */
  lemma DecimalParts(sign: string, ds: string, fs: string)
    requires OptionalSign(sign)
    requires AllDigits(ds) && fs != [] && AllDigits(fs)
    ensures IsDecimalToken(sign + ds + "." + fs)
    ensures WholePart(sign + ds + "." + fs) == ds && FracPart(sign + ds + "." + fs) == fs
  {
    UnsignedOfSigned(sign, ds, fs);
    UnsignedParts(ds, fs);
  }

  /** The value of a decimal literal written out: its magnitude, negated
      when the sign is a minus. */
  lemma DecimalTokenValue(sign: string, ds: string, fs: string)
    requires OptionalSign(sign)
    requires AllDigits(ds) && fs != [] && AllDigits(fs)
    ensures IsNumberToken(sign + ds + "." + fs)
    ensures TokenValue(sign + ds + "." + fs) == if sign == "-" then -DecimalMagnitude(ds, fs) else DecimalMagnitude(ds, fs)
  {
    var t := sign + ds + "." + fs;
    DecimalParts(sign, ds, fs);
    UnsignedOfSigned(sign, ds, fs);
    assert !AllDigits(t) by {
      DecimalLayout(sign, ds, fs, []);
      assert t + [] == t;
      assert !IsDigit(t[|sign| + |ds|]);
    }
  }

  lemma DecimalAlone(sign: string, ds: string, fs: string)
    requires OptionalSign(sign)
    requires AllDigits(ds) && fs != [] && AllDigits(fs)
    ensures Tokens(sign + ds + "." + fs) == [sign + ds + "." + fs]
  {
    var t := sign + ds + "." + fs;
    ScanDecimal(sign, ds, fs, []);
    assert t + [] == t;
    assert Tokens([]) == [];
  }

  /** The sign in front of a decimal is kept: "-5.5" reads as -5.5. */
  lemma SignKeptOnDecimal(ds: string, fs: string)
    requires AllDigits(ds) && fs != [] && AllDigits(fs)
    ensures Numbers("-" + ds + "." + fs) == [-DecimalMagnitude(ds, fs)]
  {
    var t := "-" + ds + "." + fs;
    DecimalAlone("-", ds, fs);
    DecimalTokenValue("-", ds, fs);
    NumbersOfOneToken(t, t);
  }

  /** `str(i)` followed by a separator scans as the digits of |i|. */
  lemma ScanShowInt(i: int, c: char, rest: string)
    requires !IsDigit(c) && c != '.'
    ensures Tokens(ShowInt(i) + [c] + rest) == [ShowNat(if i < 0 then -i else i)] + Tokens([c] + rest)
  {
    var ds := ShowNat(if i < 0 then -i else i);
    var sign := if i < 0 then "-" else [];
    assert ShowInt(i) == sign + ds;
    ScanInteger(sign, ds, [c] + rest);
    assert ShowInt(i) + [c] + rest == sign + ds + ([c] + rest);
  }
}
