/** Shared formatting helpers of the dashboard: the status text, the lift
    text and the `file://` URI of an asset path. */
module Common {
  import opened PyText
  import opened PyJson

  /** The table of robot status codes. */
  function StatusName(n: int): (r: Option<string>)
    ensures r.Some? <==> 1 <= n <= 7
  {
    if n == 1 then Some("EXIT")
    else if n == 2 then Some("OFFLINE")
    else if n == 3 then Some("IDLE")
    else if n == 4 then Some("INTASK")
    else if n == 5 then Some("CHARGING")
    else if n == 6 then Some("UPDATING")
    else if n == 7 then Some("EXCEPTION")
    else None
  }

  /** `_STATUS_MAP.get(n, fallback)` */
  function StatusOr(n: int, fallback: string): string {
    match StatusName(n)
    case Some(s) => s
    case None => fallback
  }

  /** The status text shown for a raw status value. */
  function FmtStatus(v: Json): (r: string)
    ensures |r| > 0
    ensures IsNumber(v) && 1 <= NumberValue(v) <= 7 ==> Some(r) == StatusName(NumberValue(v))
    ensures IsNumber(v) && !(1 <= NumberValue(v) <= 7) ==> r == IntToStr(NumberValue(v))
    ensures v == JNull ==> r == "-"
  {
    if IsNumber(v) then StatusOr(NumberValue(v), IntToStr(NumberValue(v)))
    else FmtText(if v == JNull then "-" else Str(v))
  }

  /** The status text for a value that is not a number, given its `str()`. */
  function FmtText(x: string): (r: string)
    ensures |r| > 0
  {
    var s := Strip(x);
    if IsDigits(s) then StatusOr(DigitsValue(s), s)
    else if s != [] then Upper(s) else "-"
  }

  /** The lift text: `True`/`1` is up, `False`/`0` is down (`True == 1` in Python). */
  function FmtLift(v: Json): (r: string)
    ensures r == "Up" <==> v == JBool(true) || v == JInt(1)
    ensures r == "Down" <==> v == JBool(false) || v == JInt(0)
    ensures r != "Up" && r != "Down" ==> r == "-"
  {
    if v == JBool(true) || v == JInt(1) then "Up"
    else if v == JBool(false) || v == JInt(0) then "Down"
    else "-"
  }

  /** `file:///` for a path with a drive colon in its first ten characters
      (`C:/...`), `file://` for a POSIX path that already starts with `/`. */
  function FileUri(posix: string): (r: string)
    ensures StartsWith(r, "file://")
    ensures Contains(posix[..if |posix| < 10 then |posix| else 10], ":") ==> r == "file:///" + posix
    ensures !Contains(posix[..if |posix| < 10 then |posix| else 10], ":") ==> r == "file://" + posix
  {
    var head := posix[..if |posix| < 10 then |posix| else 10];
    if Contains(head, ":") then "file:///" + posix else "file://" + posix
  }

  /** The path is recoverable from the URI: it is what follows the scheme and,
      for a drive path, the extra slash. */
  lemma FileUriRecoversPath(posix: string)
    ensures var r := FileUri(posix);
            var n := if Contains(posix[..if |posix| < 10 then |posix| else 10], ":") then 8 else 7;
            |r| == n + |posix| && r[n..] == posix
  {
  }

  lemma UpperFixesDigits(s: string)
    requires IsDigits(s)
    ensures Upper(s) == s
  {
  }

  lemma UpperIdempotent(s: string)
    ensures Upper(Upper(s)) == Upper(s)
  {
  }

  lemma DigitsOfUpper(s: string)
    requires IsDigits(Upper(s))
    ensures IsDigits(s)
  {
    forall i | 0 <= i < |s| ensures IsDigitChar(s[i]) {
      assert Upper(s)[i] == UpperChar(s[i]);
    }
  }

  lemma UpperIsNotSpace(c: char)
    requires IsUpperChar(c)
    ensures !IsSpace(c)
  {
  }

  /** A non-empty upper-case word is shown as itself. */
  lemma WordIsFixed(s: string)
    requires |s| > 0 && forall i :: 0 <= i < |s| ==> IsUpperChar(s[i])
    ensures FmtStatus(JStr(s)) == s
  {
    UpperIsNotSpace(s[0]);
    UpperIsNotSpace(s[|s| - 1]);
    StripNoEdgeSpace(s);
    assert !IsDigitChar(s[0]);
    UpperFixesRest(s);
  }

  /** A status name is shown as itself. */
  lemma StatusNameIsFixed(n: int)
    requires 1 <= n <= 7
    ensures FmtStatus(JStr(StatusName(n).value)) == StatusName(n).value
  {
    var s := StatusName(n).value;
    assert forall i :: 0 <= i < |s| ==> IsUpperChar(s[i]);
    WordIsFixed(s);
  }

  /** Formatting is idempotent: feeding the shown text back in shows the
      same text. */
  lemma {:induction false} FmtStatusIdempotent(v: Json)
    ensures FmtStatus(JStr(FmtStatus(v))) == FmtStatus(v)
  {
    if IsNumber(v) {
      var n := NumberValue(v);
      if 1 <= n <= 7 {
        StatusNameIsFixed(n);
      } else if n >= 0 {
        FmtStatusNumberAndString(n);
        FmtTextIdempotent(IntToStr(n));
      } else {
        NegativeIsFixed(n);
      }
    } else {
      FmtTextIdempotent(if v == JNull then "-" else Str(v));
    }
  }

  lemma NegativeIsFixed(n: int)
    requires n < 0
    ensures FmtText(IntToStr(n)) == IntToStr(n)
  {
    NatToStrDigits(-n);
    MinusDigitsIsFixed(NatToStr(-n));
  }

  /** A minus sign before digits is kept as it is: no space to strip, not
      digits, no lower-case letter. */
  lemma MinusDigitsIsFixed(d: string)
    requires IsDigits(d)
    ensures FmtText("-" + d) == "-" + d
  {
    var t := "-" + d;
    assert forall i :: 1 <= i < |t| ==> t[i] == d[i - 1];
    StripNoEdgeSpace(t);
    assert !IsDigits(t) by { assert !IsDigitChar(t[0]); }
    UpperFixesRest(t);
  }

  lemma {:induction false} FmtTextIdempotent(x: string)
    ensures FmtText(FmtText(x)) == FmtText(x)
  {
    var s := Strip(x);
    if IsDigits(s) {
      var n := DigitsValue(s);
      if 1 <= n <= 7 {
        StatusNameIsFixed(n);
      } else {
        StripNoEdgeSpace(s);
      }
    } else if s != [] {
      var u := Upper(s);
      assert UpperChar(s[0]) == u[0] && UpperChar(s[|s| - 1]) == u[|u| - 1];
      StripNoEdgeSpace(u);
      if IsDigits(u) { DigitsOfUpper(s); }
      UpperIdempotent(s);
    } else {
      WordIsFixedDash();
    }
  }

  lemma WordIsFixedDash()
    ensures FmtText("-") == "-"
  {
    StripNoEdgeSpace("-");
  }

  /** `Upper` leaves a string with no lower-case letter as it is. */
  lemma UpperFixesRest(t: string)
    requires forall i :: 0 <= i < |t| ==> !IsLowerChar(t[i])
    ensures Upper(t) == t
  {
  }

  /** A non-negative status code reads the same whether it arrives as a
      number or as its decimal string. */
  lemma FmtStatusNumberAndString(n: nat)
    ensures FmtStatus(JInt(n)) == FmtStatus(JStr(IntToStr(n)))
  {
    var t := NatToStr(n);
    StripNoEdgeSpace(t);
    DigitsValueOfNatToStr(n);
  }
}
