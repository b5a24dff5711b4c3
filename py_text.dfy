/**
 * The parts of Python's `str` type that the modelled code relies on:
 * `strip`, `splitlines`, the `in` operator on strings, `rfind`,
 * `replace`, `sep.join`, `int(s)`, `float(s)` and formatting a
 * non-negative integer in decimal.
 */
module PyText {
  import opened Results

  /** `c.isspace()` */
  predicate IsSpace(c: char) {
    c == ' ' || ('\t' <= c <= '\r') || ('\U{1c}' <= c <= '\U{1f}')
    || c == '\U{85}' || c == '\U{a0}' || c == '\U{1680}'
    || ('\U{2000}' <= c <= '\U{200a}') || c == '\U{2028}' || c == '\U{2029}'
    || c == '\U{202f}' || c == '\U{205f}' || c == '\U{3000}'
  }

  /** The characters at which `str.splitlines` ends a line. */
  predicate IsLineBreak(c: char) {
    ('\n' <= c <= '\r') || ('\U{1c}' <= c <= '\U{1e}')
    || c == '\U{85}' || c == '\U{2028}' || c == '\U{2029}'
  }

  predicate IsDigit(c: char) {
    '0' <= c <= '9'
  }

  predicate AllDigits(s: string) {
    forall i :: 0 <= i < |s| ==> IsDigit(s[i])
  }

  predicate NoLineBreak(s: string) {
    forall i :: 0 <= i < |s| ==> !IsLineBreak(s[i])
  }

  // ---------------------------------------------------------------
  // strip
  // ---------------------------------------------------------------

  function TrimStart(s: string): (r: string)
    ensures |r| <= |s| && r == s[|s| - |r|..]
    ensures r == [] || !IsSpace(r[0])
  {
    if s != [] && IsSpace(s[0]) then TrimStart(s[1..]) else s
  }

  function TrimEnd(s: string): (r: string)
    ensures |r| <= |s| && r == s[..|r|]
    ensures r == [] || !IsSpace(r[|r| - 1])
  {
    if s != [] && IsSpace(s[|s| - 1]) then TrimEnd(s[..|s| - 1]) else s
  }

  /** `s.strip()` */
  function Strip(s: string): (r: string)
    ensures r == [] || (!IsSpace(r[0]) && !IsSpace(r[|r| - 1]))
  {
    TrimEnd(TrimStart(s))
  }

  // ---------------------------------------------------------------
  // splitlines
  // ---------------------------------------------------------------

  /** Index of the first line break in `s`, or `|s|` when there is none. */
  function BreakIndex(s: string): (k: nat)
    ensures k <= |s|
    ensures k < |s| ==> IsLineBreak(s[k])
    ensures NoLineBreak(s[..k])
  {
    if s == [] || IsLineBreak(s[0]) then 0 else 1 + BreakIndex(s[1..])
  }

  /** `s.splitlines()`: "\r\n" ends one line; a final break adds no empty line. */
  function SplitLines(s: string): (lines: seq<string>)
    ensures forall i :: 0 <= i < |lines| ==> NoLineBreak(lines[i])
    decreases |s|
  {
    if s == [] then []
    else
      var k := BreakIndex(s);
      if k == |s| then [s]
      else
        var width := if s[k] == '\r' && k + 1 < |s| && s[k + 1] == '\n' then 2 else 1;
        [s[..k]] + SplitLines(s[k + width..])
  }

  // ---------------------------------------------------------------
  // `sub in s`, rfind, replace, join
  // ---------------------------------------------------------------

  /** `sub in s` for strings: `sub` occurs in `s` as a contiguous substring. */
  predicate Contains(s: string, sub: string)
    decreases |s|
  {
    (|sub| <= |s| && s[..|sub|] == sub) || (s != [] && Contains(s[1..], sub))
  }

  /** `s.rfind(c)` for a one-character argument: the last index of `c`, or -1. */
  function RFind(s: string, c: char): (r: int)
    ensures -1 <= r < |s|
    ensures r >= 0 ==> s[r] == c
    ensures forall i :: r < i < |s| ==> s[i] != c
  {
    if s == [] then -1
    else if s[|s| - 1] == c then |s| - 1
    else RFind(s[..|s| - 1], c)
  }

  /** `s.replace(pat, repl)`: non-overlapping occurrences, scanned from the left. */
  function Replace(s: string, pat: string, repl: string): string
    requires pat != []
    decreases |s|
  {
    if |s| < |pat| then s
    else if s[..|pat|] == pat then repl + Replace(s[|pat|..], pat, repl)
    else [s[0]] + Replace(s[1..], pat, repl)
  }

  /** `sep.join(parts)` */
  function JoinWith(parts: seq<string>, sep: string): string
  {
    if parts == [] then []
    else if |parts| == 1 then parts[0]
    else parts[0] + sep + JoinWith(parts[1..], sep)
  }

  lemma {:induction false} ReplaceCharConcat(a: string, b: string, c: char, repl: string)
    ensures Replace(a + b, [c], repl) == Replace(a, [c], repl) + Replace(b, [c], repl)
    decreases |a|
  {
    if a == [] {
      assert a + b == b;
    } else {
      assert (a + b)[1..] == a[1..] + b;
      assert (a + b)[..1] == a[..1];
      ReplaceCharConcat(a[1..], b, c, repl);
    }
  }

  /** Replacing a single character by a string not containing it leaves none of it. */
  lemma {:induction false} ReplaceCharRemoves(s: string, c: char, repl: string)
    requires c !in repl
    ensures c !in Replace(s, [c], repl)
    decreases |s|
  {
    if |s| >= 1 {
      ReplaceCharRemoves(s[1..], c, repl);
    }
  }

  /** A string without the character is left as it is. */
  lemma {:induction false} ReplaceCharAbsent(s: string, c: char, repl: string)
    requires c !in s
    ensures Replace(s, [c], repl) == s
    decreases |s|
  {
    if |s| >= 1 {
      assert s[..1] == [s[0]];
      ReplaceCharAbsent(s[1..], c, repl);
      assert [s[0]] + s[1..] == s;
    }
  }

  lemma ReplaceCharIdempotent(s: string, c: char, repl: string)
    requires c !in repl
    ensures Replace(Replace(s, [c], repl), [c], repl) == Replace(s, [c], repl)
  {
    ReplaceCharRemoves(s, c, repl);
    ReplaceCharAbsent(Replace(s, [c], repl), c, repl);
  }

  /** Replacing one character by another rewrites exactly the positions holding it. */
  lemma {:induction false} ReplaceCharByChar(s: string, c: char, d: char)
    ensures |Replace(s, [c], [d])| == |s|
    ensures forall i :: 0 <= i < |s| ==> Replace(s, [c], [d])[i] == if s[i] == c then d else s[i]
    decreases |s|
  {
    if |s| >= 1 {
      assert s[..1] == [s[0]];
      ReplaceCharByChar(s[1..], c, d);
    }
  }

  /** A string contains every string placed inside it. */
  lemma {:induction false} ContainsInfix(a: string, sub: string, b: string)
    ensures Contains(a + sub + b, sub)
    decreases |a|
  {
    var s := a + sub + b;
    if a == [] {
      assert s[..|sub|] == sub;
    } else {
      assert s[1..] == a[1..] + sub + b;
      ContainsInfix(a[1..], sub, b);
    }
  }

  /** Whatever contains a string contains each of its substrings. */
  lemma {:induction false} ContainsTransitive(s: string, mid: string, sub: string)
    requires Contains(s, mid) && Contains(mid, sub)
    ensures Contains(s, sub)
    decreases |s|
  {
    if |mid| <= |s| && s[..|mid|] == mid {
      var a, b := ContainsSplit(mid, sub);
      ContainsInfix(a, sub, b + s[|mid|..]);
      assert a + sub + (b + s[|mid|..]) == s;
    } else {
      ContainsTransitive(s[1..], mid, sub);
    }
  }

  /** A contained string splits its container into a prefix, itself and a suffix. */
  lemma {:induction false} ContainsSplit(s: string, sub: string) returns (a: string, b: string)
    requires Contains(s, sub)
    ensures s == a + sub + b
    decreases |s|
  {
    if |sub| <= |s| && s[..|sub|] == sub {
      a, b := [], s[|sub|..];
    } else {
      var a', b' := ContainsSplit(s[1..], sub);
      a, b := [s[0]] + a', b';
    }
  }

  // ---------------------------------------------------------------
  // int(s), float(s), str(n)
  // ---------------------------------------------------------------

  function DigitsValue(ds: string): (v: nat)
    requires AllDigits(ds)
  {
    if ds == [] then 0
    else 10 * DigitsValue(ds[..|ds| - 1]) + (ds[|ds| - 1] as int - '0' as int)
  }

  /** A sign followed by at least one decimal digit. */
  function ParseSignedDigits(t: string): (r: Option<int>)
    ensures r.Some? ==> t != []
  {
    if t != [] && (t[0] == '-' || t[0] == '+') then
      var ds := t[1..];
      if ds != [] && AllDigits(ds) then
        Some(if t[0] == '-' then -(DigitsValue(ds) as int) else DigitsValue(ds))
      else None
    else if t != [] && AllDigits(t) then Some(DigitsValue(t))
    else None
  }

  /** `int(s)`: surrounding whitespace, an optional sign and decimal digits. */
  function ParseInt(s: string): Option<int>
  {
    ParseSignedDigits(Strip(s))
  }

  function Pow10(e: nat): (p: nat)
    ensures p >= 1
  {
    if e == 0 then 1 else 10 * Pow10(e - 1)
  }

  /** A decimal mantissa: digits, optionally a point and more digits, at least one digit in all. */
  function ParseMantissa(m: string): Option<real>
  {
    var dot := BreakAt(m, '.');
    var ip, fp := m[..dot], if dot < |m| then m[dot + 1..] else [];
    if AllDigits(ip) && AllDigits(fp) && (ip != [] || fp != []) then
      Some(DigitsValue(ip) as real + DigitsValue(fp) as real / Pow10(|fp|) as real)
    else None
  }

  /** Index of the first `c` in `s`, or `|s|`. */
  function BreakAt(s: string, c: char): (k: nat)
    ensures k <= |s|
    ensures k < |s| ==> s[k] == c
    ensures c !in s[..k]
  {
    if s == [] || s[0] == c then 0 else 1 + BreakAt(s[1..], c)
  }

  /** An unsigned decimal number with an optional exponent `e`/`E` and signed digits. */
  function ParseUnsignedReal(t: string): Option<real>
  {
    var e := BreakExponent(t);
    var mant := ParseMantissa(t[..e]);
    if mant.None? then None
    else if e == |t| then mant
    else
      var ex := ParseSignedDigits(t[e + 1..]);
      if ex.None? then None
      else if ex.value >= 0 then Some(mant.value * Pow10(ex.value) as real)
      else Some(mant.value / Pow10(-ex.value) as real)
  }

  function BreakExponent(s: string): (k: nat)
    ensures k <= |s|
  {
    if s == [] || s[0] == 'e' || s[0] == 'E' then 0 else 1 + BreakExponent(s[1..])
  }

  /** `float(s)` for finite decimal literals: whitespace, sign, mantissa, exponent. */
  function ParseFloat(s: string): Option<real>
  {
    var t := Strip(s);
    if t != [] && (t[0] == '-' || t[0] == '+') then
      match ParseUnsignedReal(t[1..])
      case None => None
      case Some(v) => Some(if t[0] == '-' then -v else v)
    else ParseUnsignedReal(t)
  }

  function DigitChar(d: nat): (c: char)
    requires d < 10
    ensures IsDigit(c) && c as int - '0' as int == d
  {
    ('0' as int + d) as char
  }

  /** `str(n)` for a non-negative integer. */
  function NatToString(n: nat): (s: string)
    ensures s != [] && AllDigits(s)
  {
    if n < 10 then [DigitChar(n)] else NatToString(n / 10) + [DigitChar(n % 10)]
  }

  lemma {:induction false} DigitsValueOfNatToString(n: nat)
    ensures DigitsValue(NatToString(n)) == n
  {
    if n >= 10 {
      var s := NatToString(n);
      assert s[..|s| - 1] == NatToString(n / 10);
      DigitsValueOfNatToString(n / 10);
    }
  }

  lemma StripDigits(s: string)
    requires AllDigits(s)
    ensures Strip(s) == s
  {
    assert s == [] || !IsSpace(s[0]);
    assert TrimStart(s) == s;
    assert s == [] || !IsSpace(s[|s| - 1]);
  }

  lemma SignedDigitsOfDigits(s: string)
    requires s != [] && AllDigits(s)
    ensures ParseSignedDigits(s) == Some(DigitsValue(s))
  {
    assert IsDigit(s[0]);
  }

  /** `int(str(n)) == n` */
  lemma ParseIntOfNatToString(n: nat)
    ensures ParseInt(NatToString(n)) == Some(n)
  {
    var s := NatToString(n);
    StripDigits(s);
    SignedDigitsOfDigits(s);
    DigitsValueOfNatToString(n);
  }

  /** A minus sign followed by digits parses to the negated value of the digits. */
  lemma NegatedDigits(d: string)
    requires d != [] && AllDigits(d)
    ensures ParseInt("-" + d) == Some(-(DigitsValue(d) as int))
  {
    var s := "-" + d;
    assert s[1..] == d;
    assert IsDigit(d[|d| - 1]) && s[|s| - 1] == d[|d| - 1];
    StripUnspaced(s);
  }

  /** Digits hold no occurrence of a character that is not a digit. */
  lemma {:induction false} BreakAtDigits(ds: string, c: char)
    requires AllDigits(ds) && !IsDigit(c)
    ensures BreakAt(ds, c) == |ds|
  {
    if ds != [] {
      assert IsDigit(ds[0]);
      BreakAtDigits(ds[1..], c);
    }
  }

  /** Digits hold no exponent marker. */
  lemma {:induction false} BreakExponentDigits(ds: string)
    requires AllDigits(ds)
    ensures BreakExponent(ds) == |ds|
  {
    if ds != [] {
      assert IsDigit(ds[0]);
      BreakExponentDigits(ds[1..]);
    }
  }

  /** Digits alone are an unsigned number with their decimal value. */
  lemma UnsignedRealOfDigits(ds: string)
    requires ds != [] && AllDigits(ds)
    ensures ParseUnsignedReal(ds) == Some(DigitsValue(ds) as real)
  {
    BreakExponentDigits(ds);
    assert ds[..|ds|] == ds;
    MantissaOfDigits(ds);
  }

  /** Digits without a point are a mantissa with their decimal value. */
  lemma MantissaOfDigits(ds: string)
    requires ds != [] && AllDigits(ds)
    ensures ParseMantissa(ds) == Some(DigitsValue(ds) as real)
  {
    BreakAtDigits(ds, '.');
    assert ds[..|ds|] == ds;
  }

  /** `float(s) == int(s)` whenever `int(s)` succeeds. */
  lemma ParseFloatOfInt(s: string)
    ensures ParseInt(s).Some? ==> ParseFloat(s) == Some(ParseInt(s).value as real)
  {
    var t := Strip(s);
    if ParseSignedDigits(t).Some? {
      if t[0] == '-' || t[0] == '+' {
        UnsignedRealOfDigits(t[1..]);
      } else {
        UnsignedRealOfDigits(t);
      }
    }
  }

  /** Neither nothing nor a lone point is an unsigned number. */
  lemma NoUnsignedRealWithoutDigits(t: string)
    requires t == [] || t == "."
    ensures ParseUnsignedReal(t).None?
  {
    assert BreakExponent(t) == |t|;
    assert t[..|t|] == t;
    assert BreakAt(t, '.') == 0;
  }

  /** Text that neither starts nor ends with whitespace is its own strip. */
  lemma StripUnspaced(s: string)
    requires s != [] && !IsSpace(s[0]) && !IsSpace(s[|s| - 1])
    ensures Strip(s) == s
  {
    assert TrimStart(s) == s;
  }
}
