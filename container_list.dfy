/** The container list panel: boolean and model-code coercion, the
    normalised container table with its map-status fallback, the model
    filter options that keep the chosen label, and the list filter. */
module ContainerList {
  import opened PyText
  import opened PyJson
  import opened Common
  import AmrControl

  // ---------------------------------------------------------------- coercions

  const TrueWords: set<string> := {"1", "true", "t", "y", "yes", "on"}

  /** `_as_bool(v)`: bools as they are, `None` false, numbers by `!= 0`,
      anything else by its lower-cased stripped text. */
  function AsBool(v: Json): bool {
    match v
    case JBool(b) => b
    case JNull => false
    case JInt(i) => i != 0
    case _ => Lower(Strip(Str(v))) in TrueWords
  }

  lemma LowerDigits(s: string)
    requires IsDigits(s)
    ensures Lower(s) == s
  {
    forall i | 0 <= i < |s|
      ensures Lower(s)[i] == s[i]
    {
      LowerAt(s, i);
    }
  }

  /** How `_as_bool` reads a text without surrounding whitespace, from its
      lower-case form. */
  lemma TextTruth(t: string, lower: string)
    requires t == [] || (!IsSpace(t[0]) && !IsSpace(t[|t| - 1]))
    requires Lower(t) == lower
    ensures AsBool(JStr(t)) <==> lower in TrueWords
  {
    StripNoEdgeSpace(t);
  }

  /** Writing a bool, `None`, 0 or 1 as text keeps its truth value. */
  lemma TextKeepsTruth(v: Json)
    requires v.JBool? || v.JNull? || v == JInt(0) || v == JInt(1)
    ensures AsBool(JStr(Str(v))) == AsBool(v)
  {
    if v.JBool? {
      BoolTextTruth(v.b);
    } else if v.JNull? {
      assert Str(v) == "None";
      assert Lower("None") == "none";
      TextTruth("None", "none");
    } else {
      BitTextTruth(v.i);
    }
  }

  lemma BoolTextTruth(b: bool)
    ensures AsBool(JStr(Str(JBool(b)))) == b
  {
    if b {
      assert Str(JBool(b)) == "True";
      assert Lower("True") == "true";
      TextTruth("True", "true");
      assert "true" in TrueWords;
    } else {
      assert Str(JBool(b)) == "False";
      assert Lower("False") == "false";
      TextTruth("False", "false");
      assert "false" !in TrueWords;
    }
  }

  lemma BitTextTruth(i: int)
    requires i == 0 || i == 1
    ensures AsBool(JStr(Str(JInt(i)))) == (i == 1)
  {
    var t := Str(JInt(i));
    assert t == [DigitChar(i)];
    assert Lower(t) == t;
    TextTruth(t, t);
  }

  /** The text of any number other than 1 reads false, though every
      non-zero number reads true. */
  lemma NumberTextIsOne(n: int)
    ensures AsBool(JStr(IntToStr(n))) <==> n == 1
    ensures AsBool(JInt(n)) <==> n != 0
  {
    var t := IntToStr(n);
    if n >= 0 {
      NatToStrDigits(n);
      LowerDigits(t);
      TextTruth(t, t);
      if t in TrueWords {
        DigitTrueWord(t);
      }
      if t == "1" {
        DigitsValueOfNatToStr(n);
      }
    } else {
      NatToStrDigits(-n);
      MinusTextIsFalse(NatToStr(-n));
    }
  }

  /** "1" is the only true word made of digits. */
  lemma DigitTrueWord(t: string)
    requires IsDigits(t) && t in TrueWords
    ensures t == "1"
  {
    var c := t[0];
    assert IsDigitChar(c);
    assert t == "true" || t == "t" ==> c == 't';
    assert t == "y" || t == "yes" ==> c == 'y';
    assert t == "on" ==> c == 'o';
  }

  /** No true word starts with `c` unless `c` is the first letter of one. */
  lemma NoTrueWordStartsWith(l: string, c: char)
    requires l != [] && l[0] == c && c !in "1tyo"
    ensures l !in TrueWords
  {
  }

  /** A minus sign before digits reads false. */
  lemma MinusTextIsFalse(d: string)
    requires IsDigits(d)
    ensures !AsBool(JStr("-" + d))
  {
    var t := "-" + d;
    assert !IsSpace(t[0]) && !IsSpace(t[|t| - 1]);
    LowerAt(t, 0);
    var l := Lower(t);
    NoTrueWordStartsWith(l, '-');
    TextTruth(t, l);
  }

  // ---------------------------------------------------------------- model code

  /** `_MODEL_MAP` */
  function ModelName(n: int): Option<string> {
    if n == 1 then Some("LR")
    else if n == 2 then Some("LF")
    else if n == 3 then Some("AR")
    else if n == 4 then Some("AC")
    else if n == 5 then Some("AF")
    else if n == 6 then Some("P")
    else None
  }

  /** `re.match(r"[A-Z]+", s)`: the longest prefix of capital letters. */
  function LeadingUpper(s: string): (r: string)
    ensures |r| <= |s| && r == s[..|r|]
    ensures forall i :: 0 <= i < |r| ==> IsUpperChar(r[i])
    ensures |r| < |s| ==> !IsUpperChar(s[|r|])
  {
    if s != [] && IsUpperChar(s[0]) then [s[0]] + LeadingUpper(s[1..]) else []
  }

  /** The model name of an integer, or its decimal text. */
  function NamedOrText(n: int): string {
    match ModelName(n)
    case Some(m) => m
    case None => IntToStr(n)
  }

  /** The capital-letter prefix of a truthy container code, else "-". */
  function CodePrefix(code: Json): string {
    var m := LeadingUpper(Upper(Str(code)));
    if Truthy(code) && m != "" then m else "-"
  }

  /** The values `_canon_model` sends through `int()`: numbers (bools
      included) and digit strings. */
  predicate IsNumeric(raw: Json) {
    IsNumber(raw) || (raw.JStr? && IsDigits(Strip(raw.s)))
  }

  /** The text path on the stripped upper-case text `s`. */
  function TextModel(s: string, code: Json): string {
    if s != "" && s != "-" && s != "NONE" then
      (if IsDigits(s) then (match ModelName(DigitsValue(s)) case Some(m) => m case None => s) else s)
    else CodePrefix(code)
  }

  /** The `int()` path: `None` for a value that is not numeric or whose
      text `int()` rejects (`str(True)`). */
  function NumericModel(raw: Json): Option<string> {
    if IsNumeric(raw) then
      match ParseInt(Strip(Str(raw)))
      case Some(iv) => Some(NamedOrText(iv))
      case None => None
    else None
  }

  /** `_canon_model(raw, container_code)`: the `int()` path, else the text
      path. */
  function CanonModel(raw: Json, code: Json): string {
    match NumericModel(raw)
    case Some(m) => m
    case None => TextModel(Upper(Strip(Str(raw))), code)
  }

  /** An integer is its model name for 1 to 6, else its decimal text. */
  lemma ModelOfNumber(n: int, code: Json)
    ensures CanonModel(JInt(n), code) == NamedOrText(n)
  {
    if n >= 0 { NatToStrDigits(n); } else { NatToStrDigits(-n); }
    StripNoEdgeSpace(IntToStr(n));
    ParseIntOfIntToStr(n);
  }

  /** A digit string reads as the integer it spells (leading zeros and
      surrounding whitespace dropped). */
  lemma ModelOfDigits(t: string, code: Json)
    requires IsDigits(Strip(t))
    ensures CanonModel(JStr(t), code) == NamedOrText(DigitsValue(Strip(t)))
  {
    var u := Strip(t);
    StripNoEdgeSpace(u);
    ParseIntOfDigits(u);
  }

  /** A bool is not an integer text: it shows as "TRUE" or "FALSE". */
  lemma ModelOfBool(b: bool, code: Json)
    ensures CanonModel(JBool(b), code) == (if b then "TRUE" else "FALSE")
  {
    var t := Str(JBool(b));
    var u := if b then "TRUE" else "FALSE";
    if b {
      assert t == "True";
      assert Upper(t) == u;
    } else {
      assert t == "False";
      assert Upper(t) == u;
    }
    WordText(t);
    assert NumericModel(JBool(b)) == None;
    assert !IsDigits(u) && u != "NONE" by { assert !IsDigitChar(u[0]) && u[0] != 'N'; }
  }

  /** A word starting with a capital letter is no integer for `int()`. */
  lemma WordText(t: string)
    requires t != [] && IsUpperChar(t[0]) && !IsSpace(t[|t| - 1])
    ensures Strip(t) == t && ParseInt(t) == None
  {
    UpperIsNotSpace(t[0]);
    StripNoEdgeSpace(t);
    assert !IsDigits(t) by { assert !IsDigitChar(t[0]); }
  }

  /** Any other text is its stripped upper-case form, unless that is empty,
      "-" or "NONE": then the container code's capital prefix, else "-". */
  lemma ModelOfText(t: string, code: Json)
    requires !IsDigits(Strip(t))
    ensures var s := Upper(Strip(t));
            CanonModel(JStr(t), code) == (if s != "" && s != "-" && s != "NONE" then s else CodePrefix(code))
  {
    if IsDigits(Upper(Strip(t))) {
      DigitsOfUpper(Strip(t));
    }
  }

  /** A missing model falls back to the container code. */
  lemma ModelOfNull(code: Json)
    ensures CanonModel(JNull, code) == CodePrefix(code)
  {
    StripNoEdgeSpace("None");
    assert Upper("None") == "NONE";
  }

  /** A printed list or dict starts with a bracket: its stripped upper-case
      text is neither digits nor an excluded word. */
  lemma PrintedBracket(raw: Json)
    requires raw.JList? || raw.JObj?
    ensures var s := Upper(Strip(Str(raw)));
            s != "" && s != "-" && s != "NONE" && !IsDigits(s) && Strip(s) == s
  {
    var t := Str(raw);
    ReprBrackets(raw);
    StripNoEdgeSpace(t);
    var s := Upper(t);
    assert s[0] == t[0] && s[|s| - 1] == t[|t| - 1];
    assert !IsDigitChar(s[0]);
    assert s != "-" && s != "NONE" by { assert s[0] != '-' && s[0] != 'N'; }
    StripNoEdgeSpace(s);
  }

  /** A list or dict takes the text path on its printed form. */
  lemma ModelOfContainer(raw: Json, code: Json)
    requires raw.JList? || raw.JObj?
    ensures var s := Upper(Strip(Str(raw)));
            CanonModel(raw, code) == s && !IsDigits(s) && Strip(s) == s
  {
    PrintedBracket(raw);
    assert NumericModel(raw) == None;
  }

  lemma UpperNoEdgeSpace(s: string)
    requires s == [] || (!IsSpace(s[0]) && !IsSpace(s[|s| - 1]))
    ensures Strip(Upper(s)) == Upper(s)
  {
    if s != [] {
      AmrControl.UpperNotSpace(s[0]);
      AmrControl.UpperNotSpace(s[|s| - 1]);
    }
    StripNoEdgeSpace(Upper(s));
  }

  /** A code of capital letters is kept as it is, unless it is "NONE". */
  lemma CapitalsKept(m: string, code: Json)
    requires m != [] && m != "NONE" && forall i :: 0 <= i < |m| ==> IsUpperChar(m[i])
    ensures CanonModel(JStr(m), code) == m
  {
    UpperIsNotSpace(m[0]);
    UpperIsNotSpace(m[|m| - 1]);
    StripNoEdgeSpace(m);
    assert !IsDigits(m) by { assert !IsDigitChar(m[0]); }
    assert Upper(m) == m by {
      forall i | 0 <= i < |m| ensures Upper(m)[i] == m[i] {
      }
    }
    assert m != "-" by { assert m[0] != '-'; }
    ModelOfText(m, code);
  }

  /** A stripped upper-case text without digits only is kept as it is, or
      falls back to the container code when it is empty, "-" or "NONE". */
  lemma TextStable(s: string, code: Json)
    requires Strip(s) == s && Upper(s) == s && !IsDigits(s)
    ensures CanonModel(JStr(TextModel(s, code)), code) == TextModel(s, code)
  {
    if s != "" && s != "-" && s != "NONE" {
      ModelOfText(s, code);
    } else {
      PrefixStable(code);
    }
  }

  /** Normalising a normalised model code again, against the same container
      code, leaves it as it is. */
  lemma CanonModelIdempotent(raw: Json, code: Json)
    ensures CanonModel(JStr(CanonModel(raw, code)), code) == CanonModel(raw, code)
  {
    match raw {
      case JInt(n) =>
        ModelOfNumber(n, code);
        NamedOrTextStable(n, code);
      case JBool(b) =>
        BoolStable(b, code);
      case JNull =>
        ModelOfNull(code);
        PrefixStable(code);
      case JStr(t) =>
        StrStable(t, code);
      case JList(_) =>
        ContainerStable(raw, code);
      case JObj(_) =>
        ContainerStable(raw, code);
    }
  }

  lemma BoolStable(b: bool, code: Json)
    ensures CanonModel(JStr(CanonModel(JBool(b), code)), code) == CanonModel(JBool(b), code)
  {
    ModelOfBool(b, code);
    if b {
      WordKept("TRUE", code);
    } else {
      WordKept("FALSE", code);
    }
  }

  /** The two bool words are kept as they are. */
  lemma WordKept(w: string, code: Json)
    requires w == "TRUE" || w == "FALSE"
    ensures CanonModel(JStr(w), code) == w
  {
    CapitalsKept(w, code);
  }

  lemma StrStable(t: string, code: Json)
    ensures CanonModel(JStr(CanonModel(JStr(t), code)), code) == CanonModel(JStr(t), code)
  {
    if IsDigits(Strip(t)) {
      ModelOfDigits(t, code);
      NamedOrTextStable(DigitsValue(Strip(t)), code);
    } else {
      var u := Strip(t);
      ModelOfText(t, code);
      UpperNoEdgeSpace(u);
      UpperIdempotent(u);
      if IsDigits(Upper(u)) {
        DigitsOfUpper(u);
      }
      TextStable(Upper(u), code);
    }
  }

  lemma ContainerStable(raw: Json, code: Json)
    requires raw.JList? || raw.JObj?
    ensures CanonModel(JStr(CanonModel(raw, code)), code) == CanonModel(raw, code)
  {
    ModelOfContainer(raw, code);
    var u := Strip(Str(raw));
    UpperIdempotent(u);
    TextStable(Upper(u), code);
    PrintedBracket(raw);
  }

  /** A name or decimal text coming out of `NamedOrText` maps to itself. */
  lemma NamedOrTextStable(n: int, code: Json)
    ensures CanonModel(JStr(NamedOrText(n)), code) == NamedOrText(n)
  {
    if ModelName(n).Some? {
      CapitalsKept(ModelName(n).value, code);
    } else if n >= 0 {
      NatToStrDigits(n);
      StripNoEdgeSpace(IntToStr(n));
      ModelOfDigits(IntToStr(n), code);
      DigitsValueOfNatToStr(n);
    } else {
      NatToStrDigits(-n);
      MinusDigitsStay(NatToStr(-n), code);
    }
  }

  /** A minus sign before digits is neither digits nor an excluded word. */
  lemma MinusDigitsStay(d: string, code: Json)
    requires IsDigits(d)
    ensures CanonModel(JStr("-" + d), code) == "-" + d
  {
    var t := "-" + d;
    assert !IsSpace(t[0]) && !IsSpace(t[|t| - 1]);
    StripNoEdgeSpace(t);
    assert !IsDigits(t) by { assert !IsDigitChar(t[0]); }
    assert Upper(t) == t by {
      forall i | 0 <= i < |t| ensures Upper(t)[i] == t[i] {
        if i > 0 { assert t[i] == d[i - 1]; }
      }
    }
    ModelOfText(t, code);
  }

  /** "-" and "NONE" fall back to the code prefix. */
  lemma PlaceholderFallsBack(t: string, code: Json)
    requires t == "-" || t == "NONE"
    ensures CanonModel(JStr(t), code) == CodePrefix(code)
  {
    StripNoEdgeSpace(t);
    assert Upper(t) == t;
    assert !IsDigits(t) by { assert !IsDigitChar(t[0]); }
    ModelOfText(t, code);
  }

  /** The code-prefix fallback is stable. */
  lemma PrefixStable(code: Json)
    ensures CanonModel(JStr(CodePrefix(code)), code) == CodePrefix(code)
  {
    var m := CodePrefix(code);
    if m == "-" || m == "NONE" {
      PlaceholderFallsBack(m, code);
    } else {
      CapitalsKept(m, code);
    }
  }

  // ---------------------------------------------------------------- normalisation

  type Dict = seq<(string, Json)>

  /** `dict(v or {})` is taken to succeed exactly on a dict or a falsy value.
      A string, number or boolean does raise; a list of key/value pairs, which
      `dict()` accepts, is treated as raising too and is not modelled. */
  predicate ItemOk(v: Json) {
    v.JObj? || !Truthy(v)
  }

  function FieldsOf(v: Json): Dict {
    if v.JObj? then v.fields else []
  }

  /** The map flag: `inMapStatus` when present, else `not isOffMap` when
      present, else the previous table's flag for the same id, else false. */
  function InMapFlag(prevAll: Dict, d: Dict, cid: string): bool {
    if KeyIn(d, "inMapStatus") then AsBool(Lookup(d, "inMapStatus"))
    else if KeyIn(d, "isOffMap") then !AsBool(Lookup(d, "isOffMap"))
    else
      var prev := Lookup(prevAll, cid);
      Truthy(prev) && AsBool(Get(prev, "inMapStatus"))
  }

  /** `setdefault("containerCode", cid)` */
  function WithCode(d: Dict, cid: string): Dict {
    if KeyIn(d, "containerCode") then d else d + [("containerCode", JStr(cid))]
  }

  /** `_normalize_one(d, cid)` with the model-code normaliser as `canon`. */
  function NormRecordBy(prevAll: Dict, d: Dict, cid: string, canon: (Json, Json) -> string): Dict {
    var d1 := WithCode(d, cid);
    var raw := Or(Lookup(d1, "containerModelCode"), Lookup(d1, "model"));
    var d2 := Put(d1, "containerModelCode", JStr(canon(raw, Lookup(d1, "containerCode"))));
    Put(d2, "inMapStatus", JBool(InMapFlag(prevAll, d2, cid)))
  }

  /** `_normalize_one(d, cid)` on the fields of `dict(d or {})`. */
  function NormRecord(prevAll: Dict, d: Dict, cid: string): Dict {
    NormRecordBy(prevAll, d, cid, CanonModel)
  }

  /** The container code the record keeps: its own, else the id. */
  function CodeOf(d: Dict, cid: string): Json {
    if KeyIn(d, "containerCode") then Lookup(d, "containerCode") else JStr(cid)
  }

  /** `setdefault` adds the id only when the key is missing. */
  lemma WithCodeFacts(d: Dict, cid: string, k: string)
    ensures Lookup(WithCode(d, cid), k) == (if k == "containerCode" then CodeOf(d, cid) else Lookup(d, k))
    ensures KeyIn(WithCode(d, cid), k) <==> KeyIn(d, k) || k == "containerCode"
  {
    if !KeyIn(d, "containerCode") {
      LookupSnoc(d, "containerCode", JStr(cid), k);
    }
  }

  /** The map flag is read before the flag is written, so the model-code
      and container-code fields do not change it. */
  lemma InMapFlagFrame(prevAll: Dict, d: Dict, e: Dict, cid: string)
    requires KeyIn(e, "inMapStatus") == KeyIn(d, "inMapStatus") && Lookup(e, "inMapStatus") == Lookup(d, "inMapStatus")
    requires KeyIn(e, "isOffMap") == KeyIn(d, "isOffMap") && Lookup(e, "isOffMap") == Lookup(d, "isOffMap")
    ensures InMapFlag(prevAll, e, cid) == InMapFlag(prevAll, d, cid)
  {
  }

  /** The record facts for any model-code normaliser. */
  lemma NormRecordByFacts(prevAll: Dict, d: Dict, cid: string, canon: (Json, Json) -> string, k: string)
    ensures var r := NormRecordBy(prevAll, d, cid, canon);
            Lookup(r, "containerCode") == CodeOf(d, cid)
            && Lookup(r, "containerModelCode")
               == JStr(canon(Or(Lookup(d, "containerModelCode"), Lookup(d, "model")), CodeOf(d, cid)))
            && Lookup(r, "inMapStatus") == JBool(InMapFlag(prevAll, d, cid))
            && (k != "containerCode" && k != "containerModelCode" && k != "inMapStatus" ==> Lookup(r, k) == Lookup(d, k))
            && (KeyIn(r, k) <==> KeyIn(d, k) || k == "containerCode" || k == "containerModelCode" || k == "inMapStatus")
  {
    var d1 := WithCode(d, cid);
    var raw := Or(Lookup(d1, "containerModelCode"), Lookup(d1, "model"));
    var m := JStr(canon(raw, Lookup(d1, "containerCode")));
    var d2 := Put(d1, "containerModelCode", m);
    var f := JBool(InMapFlag(prevAll, d2, cid));
    WithCodeFacts(d, cid, k);
    WithCodeFacts(d, cid, "containerCode");
    WithCodeFacts(d, cid, "containerModelCode");
    WithCodeFacts(d, cid, "model");
    WithCodeFacts(d, cid, "inMapStatus");
    WithCodeFacts(d, cid, "isOffMap");
    PutLookup(d1, "containerModelCode", m, k);
    PutLookup(d1, "containerModelCode", m, "containerCode");
    PutLookup(d1, "containerModelCode", m, "inMapStatus");
    PutLookup(d1, "containerModelCode", m, "isOffMap");
    PutLookup(d1, "containerModelCode", m, "containerModelCode");
    InMapFlagFrame(prevAll, d, d2, cid);
    PutLookup(d2, "inMapStatus", f, k);
    PutLookup(d2, "inMapStatus", f, "containerCode");
    PutLookup(d2, "inMapStatus", f, "containerModelCode");
    PutLookup(d2, "inMapStatus", f, "inMapStatus");
  }

  /** A normalised record keeps its container code (the id when it had
      none), holds the normalised model code and the map flag as a bool,
      and leaves every other field as it was. */
  lemma NormRecordFacts(prevAll: Dict, d: Dict, cid: string, k: string)
    ensures var r := NormRecord(prevAll, d, cid);
            Lookup(r, "containerCode") == CodeOf(d, cid)
            && Lookup(r, "containerModelCode")
               == JStr(CanonModel(Or(Lookup(d, "containerModelCode"), Lookup(d, "model")), CodeOf(d, cid)))
            && Lookup(r, "inMapStatus") == JBool(InMapFlag(prevAll, d, cid))
            && (k != "containerCode" && k != "containerModelCode" && k != "inMapStatus" ==> Lookup(r, k) == Lookup(d, k))
            && (KeyIn(r, k) <==> KeyIn(d, k) || k == "containerCode" || k == "containerModelCode" || k == "inMapStatus")
  {
    NormRecordByFacts(prevAll, d, cid, CanonModel, k);
  }

  /** The list key: containerCode, then id, else "C" and the 1-based index
      in three digits. */
  function ListKey(it: Json, i: nat): string {
    Str(Or(Or(Get(it, "containerCode"), Get(it, "id")), JStr("C" + Pad3(i + 1))))
  }

  function ListPair(it: Json, i: nat): (string, Json) {
    (ListKey(it, i), it)
  }

  /** The `(cid, item)` pairs `update_data` walks: a dict's entries, a list's
      items under their list keys, nothing for anything else. */
  function Pairs(containers: Json): Dict {
    if containers.JObj? then containers.fields
    else if containers.JList? then MapIndexed(containers.items, |containers.items|, ListPair)
    else []
  }

  predicate PairsOk(ps: Dict) {
    forall i :: 0 <= i < |ps| ==> ItemOk(ps[i].1)
  }

  /** The first `n` entries with each value replaced by `f(key, value)`. */
  function MapValues(ps: Dict, n: nat, f: (string, Json) -> Json): (r: Dict)
    requires n <= |ps|
    ensures |r| == n
  {
    if n == 0 then [] else MapValues(ps, n - 1, f) + [(ps[n - 1].0, f(ps[n - 1].0, ps[n - 1].1))]
  }

  lemma {:induction false} MapValuesAt(ps: Dict, n: nat, f: (string, Json) -> Json, j: nat)
    requires j < n <= |ps|
    ensures MapValues(ps, n, f)[j] == (ps[j].0, f(ps[j].0, ps[j].1))
  {
    if j < n - 1 {
      MapValuesAt(ps, n - 1, f, j);
    }
  }

  /** The new value stored for `cid`. */
  function NormValue(prevAll: Dict): (string, Json) -> Json {
    (cid: string, v: Json) => JObj(NormRecord(prevAll, FieldsOf(v), cid))
  }

  /** The new table; `None` when an item fails `ItemOk` or `.get` raises on it. */
  function NormOf(prevAll: Dict, containers: Json): Option<Dict> {
    var ps := Pairs(containers);
    if PairsOk(ps) then Some(PutAll(MapValues(ps, |ps|, NormValue(prevAll)))) else None
  }

  /** Replacing values keeps the keys. */
  lemma MapValuesKeys(ps: Dict, f: (string, Json) -> Json, x: string)
    ensures KeyIn(PutAll(MapValues(ps, |ps|, f)), x) <==> exists j :: 0 <= j < |ps| && ps[j].0 == x
  {
    var es := MapValues(ps, |ps|, f);
    PutAllKeys(es, x);
    forall j | 0 <= j < |ps|
      ensures es[j].0 == ps[j].0
    {
      MapValuesAt(ps, |ps|, f, j);
    }
  }

  /** The table holds exactly the ids of the entries. */
  lemma NormKeys(prevAll: Dict, containers: Json, x: string)
    requires NormOf(prevAll, containers).Some?
    ensures var ps := Pairs(containers);
            KeyIn(NormOf(prevAll, containers).value, x) <==> exists j :: 0 <= j < |ps| && ps[j].0 == x
  {
    MapValuesKeys(Pairs(containers), NormValue(prevAll), x);
  }

  /** An id holds the normalised record of its last entry. */
  lemma NormLastWins(prevAll: Dict, containers: Json, j: nat)
    requires NormOf(prevAll, containers).Some? && j < |Pairs(containers)|
    requires forall l :: j < l < |Pairs(containers)| ==> Pairs(containers)[l].0 != Pairs(containers)[j].0
    ensures var p := Pairs(containers)[j];
            Lookup(NormOf(prevAll, containers).value, p.0) == JObj(NormRecord(prevAll, FieldsOf(p.1), p.0))
  {
    var ps := Pairs(containers);
    var f := NormValue(prevAll);
    var es := MapValues(ps, |ps|, f);
    forall l | 0 <= l < |ps|
      ensures es[l].0 == ps[l].0
    {
      MapValuesAt(ps, |ps|, f, l);
    }
    MapValuesAt(ps, |ps|, f, j);
    PutAllLast(es, j);
  }

  /** Dict input keeps its keys and values in order; list items are keyed by
      containerCode, then id, then position; anything else gives no entries. */
  lemma PairsKeys(containers: Json)
    ensures containers.JObj? ==> Pairs(containers) == containers.fields
    ensures containers.JList? ==>
              |Pairs(containers)| == |containers.items|
              && forall j :: 0 <= j < |containers.items| ==>
                   Pairs(containers)[j] == (ListKey(containers.items[j], j), containers.items[j])
    ensures !containers.JObj? && !containers.JList? ==> Pairs(containers) == []
  {
    if containers.JList? {
      var items := containers.items;
      forall j | 0 <= j < |items|
        ensures Pairs(containers)[j] == (ListKey(items[j], j), items[j])
      {
        MapIndexedAt(items, |items|, ListPair, j);
      }
    }
  }

  /** An item without containerCode and id gets "C" and its three-digit
      1-based position. */
  lemma ListKeyFallback(it: Json, i: nat)
    requires !Truthy(Get(it, "containerCode")) && !Truthy(Get(it, "id"))
    ensures ListKey(it, i) == "C" + Pad3(i + 1)
  {
  }

  // ---------------------------------------------------------------- options

  /** `d.get("containerModelCode", "-")` as text. */
  function ModelOf(rec: Json): string {
    Str(GetOr(rec, "containerModelCode", JStr("-")))
  }

  function ModelCodes(data: Dict, n: nat): (r: seq<string>)
    requires n <= |data|
    ensures |r| == n
  {
    if n == 0 then [] else ModelCodes(data, n - 1) + [ModelOf(data[n - 1].1)]
  }

  lemma {:induction false} ModelCodesAt(data: Dict, n: nat, j: nat)
    requires j < n <= |data|
    ensures ModelCodes(data, n)[j] == ModelOf(data[j].1)
  {
    if j < n - 1 {
      ModelCodesAt(data, n - 1, j);
    }
  }

  /** Plain text order. */
  function TextKey(s: string): AmrControl.SortKey {
    AmrControl.Word(s)
  }

  /** `["All"] + sorted({model codes})` */
  function ModelOptions(data: Dict): seq<string> {
    ["All"] + AmrControl.SortByKey(AmrControl.Dedup(ModelCodes(data, |data|)), TextKey)
  }

  /** The options are "All" and then each model code of the table once, in
      increasing text order. */
  lemma ModelOptionsSpec(data: Dict)
    ensures var r := ModelOptions(data);
            r[0] == "All"
            && (forall i, j :: 1 <= i < j < |r| ==> Less(r[i], r[j]))
            && (forall x :: x in r[1..] <==> exists j :: 0 <= j < |data| && ModelOf(data[j].1) == x)
  {
    var codes := ModelCodes(data, |data|);
    var q := AmrControl.SortByKey(AmrControl.Dedup(codes), TextKey);
    var r := ModelOptions(data);
    AmrControl.SortDistinctSpec(codes, TextKey);
    assert r[1..] == q;
    forall i, j | 1 <= i < j < |r|
      ensures Less(r[i], r[j])
    {
      assert r[i] == q[i - 1] && r[j] == q[j - 1];
      LessTotal(q[i - 1], q[j - 1]);
    }
    forall j | 0 <= j < |data|
      ensures codes[j] == ModelOf(data[j].1)
    {
      ModelCodesAt(data, |data|, j);
    }
  }

  /** `idx_map.get(name, 0)`: the last position of the name, else 0. */
  function LabelIndex(options: seq<string>, name: string): (k: nat)
    ensures name in options ==> k < |options| && options[k] == name && name !in options[k + 1..]
    ensures name !in options ==> k == 0
  {
    if name in options then LastIndex(options, name) else 0
  }

  function LastIndex(xs: seq<string>, x: string): (k: nat)
    requires x in xs
    ensures k < |xs| && xs[k] == x && x !in xs[k + 1..]
  {
    if xs[|xs| - 1] == x then |xs| - 1
    else
      var pre := xs[..|xs| - 1];
      assert x in pre by {
        var i :| 0 <= i < |xs| && xs[i] == x;
        assert pre[i] == x;
      }
      var k := LastIndex(pre, x);
      assert xs[k + 1..] == pre[k + 1..] + [xs[|xs| - 1]];
      k
  }

  /** The label chosen before an update; "All" without a window or for an
      index out of range. */
  function PrevLabel(hasWindow: bool, options: seq<string>, idx: int): string {
    if hasWindow && 0 <= idx < |options| then options[idx] else "All"
  }

  // ---------------------------------------------------------------- filter

  const StatusOptions: seq<string> := ["All", "On Map", "Off Map"]

  /** The model filter; an index out of range means "All". */
  function ModelFilter(options: seq<string>, idx: int): string {
    if 0 <= idx < |options| then options[idx] else "All"
  }

  function StatusFilter(idx: int): string {
    if 0 <= idx < |StatusOptions| then StatusOptions[idx] else "All"
  }

  /** Whether `refresh` lists a record. */
  predicate Listed(rec: Json, mf: string, sf: string) {
    var model := Str(Or(Get(rec, "containerModelCode"), JStr("-")));
    var inMap := AsBool(Get(rec, "inMapStatus"));
    !(mf != "All" && model != mf) && !(sf == "On Map" && !inMap) && !(sf == "Off Map" && inMap)
  }

  /** A record is listed iff the model filter is "All" or its model, and
      the status filter is "All" or agrees with its map flag. */
  lemma ListedMeaning(rec: Json, mf: string, sf: string)
    requires sf in StatusOptions
    ensures Listed(rec, mf, sf) <==>
              (mf == "All" || Str(Or(Get(rec, "containerModelCode"), JStr("-"))) == mf)
              && (sf == "All" || (sf == "On Map") == AsBool(Get(rec, "inMapStatus")))
  {
  }

  function ListedBy(mf: string, sf: string): Json -> bool {
    rec => Listed(rec, mf, sf)
  }

  /** The ids of the first `n` entries whose record `keep` accepts, in
      table order. */
  function FilterIds(data: Dict, n: nat, keep: Json -> bool): seq<string>
    requires n <= |data|
  {
    if n == 0 then []
    else FilterIds(data, n - 1, keep) + (if keep(data[n - 1].1) then [data[n - 1].0] else [])
  }

  lemma {:induction false} FilterIdsSpec(data: Dict, n: nat, keep: Json -> bool, x: string)
    requires n <= |data|
    ensures x in FilterIds(data, n, keep) <==> exists j :: 0 <= j < n && data[j].0 == x && keep(data[j].1)
  {
    if n > 0 {
      FilterIdsSpec(data, n - 1, keep, x);
    }
  }

  /** The ids `refresh` lists among the first `n` entries. */
  function ListedIds(data: Dict, n: nat, mf: string, sf: string): seq<string>
    requires n <= |data|
  {
    FilterIds(data, n, ListedBy(mf, sf))
  }

  /** An id is listed iff one of its entries passes the filters. */
  lemma ListedIdsSpec(data: Dict, n: nat, mf: string, sf: string, x: string)
    requires n <= |data|
    ensures x in ListedIds(data, n, mf, sf) <==> exists j :: 0 <= j < n && data[j].0 == x && Listed(data[j].1, mf, sf)
  {
    FilterIdsSpec(data, n, ListedBy(mf, sf), x);
  }

  /** With both filters on "All", every entry is listed, in order. */
  lemma {:induction false} AllListsEverything(data: Dict, n: nat)
    requires n <= |data|
    ensures ListedIds(data, n, "All", "All") == Keys(data[..n])
  {
    if n > 0 {
      AllListsEverything(data, n - 1);
      assert data[..n][..n - 1] == data[..n - 1];
    }
  }

  // ---------------------------------------------------------------- panel

  /** The container list window. `hasWindow` stands for the window, its
      combo boxes and its list stack, which `show` creates together;
      `listed` is the ids that have a card and `emptyNote` whether the
      "No containers" label is shown. */
  class ContainerPanel {
    var data: Dict
    var hasWindow: bool
    var visible: bool
    var modelOptions: seq<string>
    var modelIdx: int
    var statusIdx: int
    var listed: seq<string>
    var emptyNote: bool

    /** The model options start with "All", and nothing is listed before
        there is a window. */
    predicate Valid()
      reads this
    {
      modelOptions != [] && modelOptions[0] == "All"
      && (!hasWindow ==> listed == [] && !emptyNote)
    }

    /** The list shows the table through the current filters. */
    predicate UpToDate()
      reads this
    {
      listed == ListedIds(data, |data|, ModelFilter(modelOptions, modelIdx), StatusFilter(statusIdx))
      && emptyNote == (listed == [])
    }

    constructor ()
      ensures Valid()
      ensures data == [] && !hasWindow && !visible && modelOptions == ["All"]
      ensures modelIdx == 0 && statusIdx == 0 && listed == [] && !emptyNote
    {
      data := [];
      hasWindow := false;
      visible := false;
      modelOptions := ["All"];
      modelIdx := 0;
      statusIdx := 0;
      listed := [];
      emptyNote := false;
    }

    /** The ids whose record `keep` accepts, in table order. */
    static method SelectIds(data: Dict, keep: Json -> bool) returns (ids: seq<string>)
      ensures ids == FilterIds(data, |data|, keep)
    {
      ids := [];
      var i := 0;
      while i < |data|
        invariant 0 <= i <= |data|
        invariant ids == FilterIds(data, i, keep)
      {
        var (cid, rec) := data[i];
        if keep(rec) {
          ids := ids + [cid];
        }
        i := i + 1;
      }
    }

    /** `refresh`: rebuild the list through the filters; nothing without a
        window. */
    method Refresh()
      requires Valid()
      modifies this
      ensures Valid()
      ensures hasWindow ==> UpToDate()
      ensures !hasWindow ==> listed == old(listed) && emptyNote == old(emptyNote)
      ensures data == old(data) && hasWindow == old(hasWindow) && visible == old(visible)
      ensures modelOptions == old(modelOptions) && modelIdx == old(modelIdx) && statusIdx == old(statusIdx)
    {
      if !hasWindow {
        return;
      }
      listed := SelectIds(data, ListedBy(ModelFilter(modelOptions, modelIdx), StatusFilter(statusIdx)));
      emptyNote := listed == [];
    }

    /** Walk the entries, stopping with `None` at the first one `ok`
        refuses, and assign `f(key, value)` for each. */
    static method MapEntries(ps: Dict, ok: Json -> bool, f: (string, Json) -> Json) returns (r: Option<Dict>)
      ensures r == if forall j :: 0 <= j < |ps| ==> ok(ps[j].1) then Some(PutAll(MapValues(ps, |ps|, f))) else None
    {
      var norm: Dict := [];
      var i := 0;
      while i < |ps|
        invariant 0 <= i <= |ps|
        invariant forall j :: 0 <= j < i ==> ok(ps[j].1)
        invariant norm == PutAll(MapValues(ps, i, f))
      {
        var (cid, v) := ps[i];
        if !ok(v) {
          return None;
        }
        PutAllSnoc(MapValues(ps, i, f), (cid, f(cid, v)));
        norm := Put(norm, cid, f(cid, v));
        i := i + 1;
      }
      return Some(norm);
    }

    /** The table `update_data` builds, or `None` where it raises. */
    static method Normalize(prevAll: Dict, containers: Json) returns (r: Option<Dict>)
      ensures r == NormOf(prevAll, containers)
    {
      r := MapEntries(Pairs(containers), ItemOk, NormValue(prevAll));
    }

    /** `update_data`: replace the table, rebuild the model options keeping
        the chosen label, and refresh. Where it raises nothing changes. */
    method UpdateData(containers: Json) returns (ok: bool)
      requires Valid()
      modifies this
      ensures Valid()
      ensures ok <==> NormOf(old(data), containers).Some?
      ensures !ok ==> data == old(data) && modelOptions == old(modelOptions) && modelIdx == old(modelIdx)
      ensures !ok ==> listed == old(listed) && emptyNote == old(emptyNote)
      ensures ok ==> data == NormOf(old(data), containers).value && modelOptions == ModelOptions(data)
      ensures ok ==> modelIdx == (if hasWindow && modelOptions != old(modelOptions)
                                  then LabelIndex(modelOptions, PrevLabel(true, old(modelOptions), old(modelIdx)))
                                  else old(modelIdx))
      ensures ok && hasWindow ==>
                ModelFilter(modelOptions, modelIdx)
                == (var p := PrevLabel(true, old(modelOptions), old(modelIdx)); if p in modelOptions then p else "All")
      ensures ok && hasWindow ==> UpToDate()
      ensures hasWindow == old(hasWindow) && visible == old(visible) && statusIdx == old(statusIdx)
    {
      var norm := Normalize(data, containers);
      if norm.None? {
        return false;
      }
      data := norm.value;
      var prevLabel := PrevLabel(hasWindow, modelOptions, modelIdx);
      var models := ["All"] + AmrControl.SortByKey(AmrControl.Dedup(ModelCodes(data, |data|)), TextKey);
      if models != modelOptions {
        modelOptions := models;
        if hasWindow {
          modelIdx := LabelIndex(modelOptions, prevLabel);
        }
      }
      Refresh();
      ok := true;
    }

    /** `refresh_from_resolver`; `resolved` is what the resolver returned,
        `None` when none is set. */
    method RefreshFromResolver(resolved: Option<Json>) returns (ok: bool)
      requires Valid()
      modifies this
      ensures Valid()
      ensures resolved.None? ==> ok && data == old(data) && modelOptions == old(modelOptions) && modelIdx == old(modelIdx)
      ensures resolved.Some? ==> (ok <==> NormOf(old(data), Or(resolved.value, JObj([]))).Some?)
      ensures resolved.Some? && ok ==>
                data == NormOf(old(data), Or(resolved.value, JObj([]))).value && modelOptions == ModelOptions(data)
      ensures !ok ==> data == old(data) && modelOptions == old(modelOptions) && modelIdx == old(modelIdx)
      ensures !ok ==> listed == old(listed) && emptyNote == old(emptyNote)
      ensures ok && hasWindow ==> UpToDate()
      ensures hasWindow == old(hasWindow) && visible == old(visible) && statusIdx == old(statusIdx)
    {
      if resolved.Some? {
        ok := UpdateData(Or(resolved.value, JObj([])));
      } else {
        Refresh();
        ok := true;
      }
    }

    /** `show`: create the window with both filters on "All" the first
        time, make it visible and refresh from the resolver. */
    method Show(resolved: Option<Json>) returns (ok: bool)
      requires Valid()
      modifies this
      ensures Valid() && hasWindow && visible
      ensures statusIdx == (if old(hasWindow) then old(statusIdx) else 0)
      ensures resolved.None? ==> ok && data == old(data) && modelOptions == old(modelOptions)
      ensures resolved.None? ==> modelIdx == (if old(hasWindow) then old(modelIdx) else 0)
      ensures resolved.Some? ==> (ok <==> NormOf(old(data), Or(resolved.value, JObj([]))).Some?)
      ensures resolved.Some? && ok ==>
                data == NormOf(old(data), Or(resolved.value, JObj([]))).value && modelOptions == ModelOptions(data)
      ensures ok ==> UpToDate()
    {
      if !hasWindow {
        hasWindow := true;
        modelIdx := 0;
        statusIdx := 0;
      }
      visible := true;
      ok := RefreshFromResolver(resolved);
    }

    /** Choosing a model in the combo box refreshes at once. */
    method SetModelIndex(i: int)
      requires Valid() && hasWindow
      modifies this
      ensures Valid() && modelIdx == i && UpToDate()
      ensures data == old(data) && hasWindow && visible == old(visible)
      ensures modelOptions == old(modelOptions) && statusIdx == old(statusIdx)
    {
      modelIdx := i;
      Refresh();
    }

    /** Choosing a status in the combo box refreshes at once. */
    method SetStatusIndex(i: int)
      requires Valid() && hasWindow
      modifies this
      ensures Valid() && statusIdx == i && UpToDate()
      ensures data == old(data) && hasWindow && visible == old(visible)
      ensures modelOptions == old(modelOptions) && modelIdx == old(modelIdx)
    {
      statusIdx := i;
      Refresh();
    }

    /** `_on_reset`: both filters back to "All"; with a window every
        container is listed, in table order. */
    method OnReset()
      requires Valid()
      modifies this
      ensures Valid()
      ensures hasWindow ==> modelIdx == 0 && statusIdx == 0 && listed == Keys(data) && emptyNote == (data == [])
      ensures !hasWindow ==> modelIdx == old(modelIdx) && statusIdx == old(statusIdx) && listed == old(listed)
      ensures data == old(data) && hasWindow == old(hasWindow) && visible == old(visible)
      ensures modelOptions == old(modelOptions)
    {
      if hasWindow {
        modelIdx := 0;
        statusIdx := 0;
      }
      Refresh();
      if hasWindow {
        AllListsEverything(data, |data|);
        assert data[..|data|] == data;
      }
    }
  }
}
