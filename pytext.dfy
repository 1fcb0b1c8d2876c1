/** The parts of Python's `str` that the dashboard code relies on.

    Case mapping, `isalnum` and `isdigit` are modelled for ASCII only; `strip`
    removes exactly the characters Python's `str.isspace` accepts. */
module PyText {

  /** Python's `str.isspace()` characters. */
  predicate IsSpace(c: char) {
    c == ' ' || '\t' <= c <= '\r' || '\U{1C}' <= c <= '\U{1F}' || c == '\U{85}' || c == '\U{A0}'
    || c == '\U{1680}' || '\U{2000}' <= c <= '\U{200A}' || c == '\U{2028}' || c == '\U{2029}'
    || c == '\U{202F}' || c == '\U{205F}' || c == '\U{3000}'
  }

  predicate IsDigitChar(c: char) { '0' <= c <= '9' }
  predicate IsUpperChar(c: char) { 'A' <= c <= 'Z' }
  predicate IsLowerChar(c: char) { 'a' <= c <= 'z' }
  predicate IsAlnumChar(c: char) { IsDigitChar(c) || IsUpperChar(c) || IsLowerChar(c) }

  /** `s.isdigit()`: non-empty and made of digits only. */
  predicate IsDigits(s: string) {
    |s| > 0 && forall i :: 0 <= i < |s| ==> IsDigitChar(s[i])
  }

  function LowerChar(c: char): char {
    if IsUpperChar(c) then (c as int + 32) as char else c
  }

  function UpperChar(c: char): char {
    if IsLowerChar(c) then (c as int - 32) as char else c
  }

  /** `s.lower()` */
  function Lower(s: string): (r: string)
    ensures |r| == |s|
  {
    if s == [] then [] else [LowerChar(s[0])] + Lower(s[1..])
  }

  /** `s.lower()` maps each character on its own. */
  lemma {:induction false} LowerAt(s: string, i: nat)
    requires i < |s|
    ensures Lower(s)[i] == LowerChar(s[i])
  {
    if i > 0 {
      LowerAt(s[1..], i - 1);
    }
  }

  /** Lower-casing twice is lower-casing once. */
  lemma LowerIdempotent(s: string)
    ensures Lower(Lower(s)) == Lower(s)
  {
    forall i | 0 <= i < |s|
      ensures Lower(Lower(s))[i] == Lower(s)[i]
    {
      LowerAt(Lower(s), i);
      LowerAt(s, i);
    }
  }

  /** Only the text "0" lower-cases to "0". */
  lemma LowerZero(u: string)
    ensures Lower(u) == "0" ==> u == "0"
  {
    if |u| == 1 {
      LowerAt(u, 0);
    }
  }

  /** `s.upper()` */
  function Upper(s: string): (r: string)
    ensures |r| == |s|
    ensures forall i :: 0 <= i < |s| ==> r[i] == UpperChar(s[i])
  {
    if s == [] then [] else [UpperChar(s[0])] + Upper(s[1..])
  }

  /** Number of leading whitespace characters. */
  function LeadingSpaces(s: string): (n: nat)
    ensures n <= |s|
    ensures n < |s| ==> !IsSpace(s[n])
  {
    if s != [] && IsSpace(s[0]) then 1 + LeadingSpaces(s[1..]) else 0
  }

  /** Number of trailing whitespace characters. */
  function TrailingSpaces(s: string): (n: nat)
    ensures n <= |s|
    ensures n < |s| ==> !IsSpace(s[|s| - 1 - n])
  {
    if s != [] && IsSpace(s[|s| - 1]) then 1 + TrailingSpaces(s[..|s| - 1]) else 0
  }

  /** `s.strip()`: the slice between the leading and the trailing whitespace. */
  function Strip(s: string): (r: string)
    ensures |r| <= |s|
    ensures r == [] || (!IsSpace(r[0]) && !IsSpace(r[|r| - 1]))
  {
    var a := LeadingSpaces(s);
    if a == |s| then [] else
      var t := s[a..];
      var b := TrailingSpaces(t);
      t[..|t| - b]
  }

  /** `s.rstrip(c)` for one character `c`. */
  function RStripChar(s: string, c: char): (r: string)
    ensures |r| <= |s| && r == s[..|r|]
    ensures r == [] || r[|r| - 1] != c
    ensures forall i :: |r| <= i < |s| ==> s[i] == c
  {
    if s != [] && s[|s| - 1] == c then RStripChar(s[..|s| - 1], c) else s
  }

  /** `s.lstrip(c)` for a single character. */
  function LStripChar(s: string, c: char): (r: string)
    ensures |r| <= |s| && r == s[|s| - |r|..]
    ensures r == [] || r[0] != c
    ensures forall i :: 0 <= i < |s| - |r| ==> s[i] == c
  {
    if s != [] && s[0] == c then LStripChar(s[1..], c) else s
  }

  predicate StartsWith(s: string, p: string) {
    |p| <= |s| && s[..|p|] == p
  }

  /** `p in s` for strings: `p` occurs somewhere in `s`. */
  predicate Contains(s: string, p: string) {
    StartsWith(s, p) || (s != [] && Contains(s[1..], p))
  }

  /** `s.replace(c, rep)` for a one-character pattern. */
  function ReplaceChar(s: string, c: char, rep: string): string {
    if s == [] then []
    else (if s[0] == c then rep else [s[0]]) + ReplaceChar(s[1..], c, rep)
  }

  /** What `replace` keeps and what it brings in: no `c` survives unless
      `rep` holds one, every character comes from `s` or `rep`, and every
      character of `s` other than `c` survives. */
  lemma {:induction false} ReplaceCharFacts(s: string, c: char, rep: string)
    ensures c !in rep ==> c !in ReplaceChar(s, c, rep)
    ensures forall x :: x in ReplaceChar(s, c, rep) ==> x in s || x in rep
    ensures forall x :: x != c && x in s ==> x in ReplaceChar(s, c, rep)
  {
    if s != [] {
      ReplaceCharFacts(s[1..], c, rep);
      assert s == [s[0]] + s[1..];
    }
  }

  /** Replacing a character that does not occur changes nothing. */
  lemma {:induction false} ReplaceCharAbsent(s: string, c: char, rep: string)
    requires c !in s
    ensures ReplaceChar(s, c, rep) == s
  {
    if s != [] {
      ReplaceCharAbsent(s[1..], c, rep);
    }
  }

  /** `replace` works piecewise. */
  lemma {:induction false} ReplaceCharConcat(a: string, b: string, c: char, rep: string)
    ensures ReplaceChar(a + b, c, rep) == ReplaceChar(a, c, rep) + ReplaceChar(b, c, rep)
  {
    if a == [] {
      assert a + b == b;
    } else {
      assert (a + b)[0] == a[0];
      assert (a + b)[1..] == a[1..] + b;
      ReplaceCharConcat(a[1..], b, c, rep);
    }
  }

  lemma ReplaceCharSingle(x: char, c: char, rep: string)
    ensures ReplaceChar([x], c, rep) == if x == c then rep else [x]
  {
    assert [x][1..] == [];
  }

  /** `s.replace(pat, rep)` for a non-empty pattern: one left-to-right pass
      replacing non-overlapping occurrences. */
  function ReplaceAll(s: string, pat: string, rep: string): string
    requires |pat| > 0
    decreases |s|
  {
    if |s| < |pat| then s
    else if s[..|pat|] == pat then rep + ReplaceAll(s[|pat|..], pat, rep)
    else [s[0]] + ReplaceAll(s[1..], pat, rep)
  }

  function DigitChar(d: nat): (c: char)
    requires d < 10
    ensures IsDigitChar(c)
  {
    ('0' as int + d) as char
  }

  function DigitValue(c: char): (d: nat)
    requires IsDigitChar(c)
    ensures d < 10 && DigitChar(d) == c
  {
    c as int - '0' as int
  }

  /** Decimal digits of a natural number, without leading zeros. */
  function NatToStr(n: nat): (r: string)
    ensures |r| > 0 && IsDigitChar(r[0]) && IsDigitChar(r[|r| - 1])
  {
    if n < 10 then [DigitChar(n)] else NatToStr(n / 10) + [DigitChar(n % 10)]
  }

  /** The decimal text of a natural number is digits without a leading zero. */
  lemma {:induction false} NatToStrDigits(n: nat)
    ensures IsDigits(NatToStr(n))
    ensures |NatToStr(n)| > 1 ==> NatToStr(n)[0] != '0'
  {
    if n >= 10 {
      NatToStrDigits(n / 10);
    }
  }

  /** Value of a string of decimal digits. */
  function DigitsValue(s: string): nat
    requires forall i :: 0 <= i < |s| ==> IsDigitChar(s[i])
  {
    if s == [] then 0 else DigitsValue(s[..|s| - 1]) * 10 + DigitValue(s[|s| - 1])
  }

  lemma {:induction false} DigitsValueOfNatToStr(n: nat)
    ensures IsDigits(NatToStr(n)) && DigitsValue(NatToStr(n)) == n
  {
    NatToStrDigits(n);
    if n >= 10 {
      var s := NatToStr(n / 10) + [DigitChar(n % 10)];
      assert s[..|s| - 1] == NatToStr(n / 10);
      DigitsValueOfNatToStr(n / 10);
    }
  }

  /** Python `str(i)` for an int. */
  function IntToStr(i: int): (r: string)
    ensures |r| > 0
    ensures i < 0 <==> r[0] == '-'
  {
    if i < 0 then "-" + NatToStr(-i) else NatToStr(i)
  }

  /** `"%03d" % n`: at least three digits, zero padded. */
  function Pad3(n: nat): (r: string)
    ensures |r| >= 3
  {
    var d := NatToStr(n);
    if |d| == 1 then "00" + d else if |d| == 2 then "0" + d else d
  }

  /** Python `int(s)` for a string: surrounding whitespace, an optional sign
      and decimal digits; anything else raises (None). */
  function ParseInt(s: string): Option<int> {
    var t := Strip(s);
    if IsDigits(t) then Some(DigitsValue(t))
    else if |t| > 1 && t[0] == '-' && IsDigits(t[1..]) then Some(-(DigitsValue(t[1..]) as int))
    else if |t| > 1 && t[0] == '+' && IsDigits(t[1..]) then Some(DigitsValue(t[1..]))
    else None
  }

  /** A string without whitespace at either end is its own `strip()`. */
  lemma StripNoEdgeSpace(s: string)
    requires s == [] || (!IsSpace(s[0]) && !IsSpace(s[|s| - 1]))
    ensures Strip(s) == s
  {
    if s != [] {
      assert LeadingSpaces(s) == 0;
      assert TrailingSpaces(s) == 0;
    }
  }

  /** `int(str(i)) == i`: the decimal text of an int parses back to it. */
  lemma ParseIntOfIntToStr(i: int)
    ensures ParseInt(IntToStr(i)) == Some(i)
  {
    var n: nat := if i < 0 then -i else i;
    DigitsValueOfNatToStr(n);
    if i < 0 {
      ParseIntOfNegative(NatToStr(n));
    } else {
      ParseIntOfDigits(NatToStr(n));
    }
  }

  lemma ParseIntOfDigits(d: string)
    requires IsDigits(d)
    ensures ParseInt(d) == Some(DigitsValue(d))
  {
    StripNoEdgeSpace(d);
  }

  lemma ParseIntOfNegative(d: string)
    requires IsDigits(d)
    ensures ParseInt("-" + d) == Some(-(DigitsValue(d) as int))
  {
    var t := "-" + d;
    assert t[1..] == d;
    StripNoEdgeSpace(t);
    assert !IsDigits(t) by { assert !IsDigitChar(t[0]); }
  }

  /** Python `float(s)` for a string: surrounding whitespace, an optional sign,
      digits with an optional fraction, at least one digit in all. */
  function ParseReal(s: string): Option<real> {
    var t := Strip(s);
    var neg := |t| > 0 && t[0] == '-';
    var u := if |t| > 0 && (t[0] == '-' || t[0] == '+') then t[1..] else t;
    var m := UnsignedReal(u);
    match m
    case None => None
    case Some(v) => Some(if neg then -v else v)
  }

  function UnsignedReal(u: string): Option<real> {
    var k := DotIndex(u);
    var whole := u[..k];
    var frac := if k < |u| then u[k + 1..] else "";
    if (forall i :: 0 <= i < |whole| ==> IsDigitChar(whole[i]))
       && (forall i :: 0 <= i < |frac| ==> IsDigitChar(frac[i]))
       && |whole| + |frac| > 0
    then Some(DigitsValue(whole) as real + DigitsValue(frac) as real / Pow10(|frac|) as real)
    else None
  }

  /** Index of the first '.', or |u| when there is none. */
  function DotIndex(u: string): (k: nat)
    ensures k <= |u|
    ensures k < |u| ==> u[k] == '.'
    ensures forall i :: 0 <= i < k ==> u[i] != '.'
  {
    if u == [] then 0 else if u[0] == '.' then 0 else 1 + DotIndex(u[1..])
  }

  function Pow10(n: nat): (p: nat)
    ensures p >= 1
  {
    if n == 0 then 1 else 10 * Pow10(n - 1)
  }

  /** Python's `<` on strings: lexicographic by code point. */
  predicate Less(a: string, b: string) {
    if a == [] then b != []
    else if b == [] then false
    else if a[0] != b[0] then a[0] < b[0]
    else Less(a[1..], b[1..])
  }

  lemma {:induction false} LessIrreflexive(a: string)
    ensures !Less(a, a)
  {
    if a != [] { LessIrreflexive(a[1..]); }
  }

  lemma {:induction false} LessTransitive(a: string, b: string, c: string)
    requires Less(a, b) && Less(b, c)
    ensures Less(a, c)
  {
    if a != [] && b != [] && c != [] && a[0] == b[0] && b[0] == c[0] {
      LessTransitive(a[1..], b[1..], c[1..]);
    }
  }

  lemma {:induction false} LessTotal(a: string, b: string)
    ensures a == b || Less(a, b) || Less(b, a)
  {
    if a != [] && b != [] && a[0] == b[0] {
      LessTotal(a[1..], b[1..]);
      if a[1..] == b[1..] {
        assert a == [a[0]] + a[1..] && b == [b[0]] + b[1..];
      }
    }
  }

  lemma {:induction false} LessAsymmetric(a: string, b: string)
    requires Less(a, b)
    ensures !Less(b, a)
  {
    if a != [] && b != [] && a[0] == b[0] { LessAsymmetric(a[1..], b[1..]); }
  }

  datatype Option<T> = None | Some(value: T)
}
