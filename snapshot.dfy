/** The extension's snapshot aggregation: AMR status codes and counters,
    container map/carry classification, counters and normalisation, the UI
    job queue that hands work to the main thread, and the fleet-server
    pinger. */
module Snapshot {
  import opened PyText
  import opened PyJson
  import opened Client

  const AmrIdle: int := 3
  const AmrInTask: int := 4
  const AmrCharging: int := 5

  // ---------------------------------------------------------------- AMRs

  /** `it.get("status") or it.get("robotStatus") or it.get("state")` */
  function RawStatus(it: Json): Json {
    Or(Or(Get(it, "status"), Get(it, "robotStatus")), Get(it, "state"))
  }

  /** The status names accepted when the value is not an integer. */
  function StatusWord(w: string): int {
    if w == "idle" then AmrIdle
    else if w == "intask" || w == "running" || w == "working" then AmrInTask
    else if w == "charging" then AmrCharging
    else 0
  }

  /** `_status_code` of a piece of text: integer text is parsed, otherwise
      the lower-cased stripped text is looked up, 0 when unknown. */
  function TextCode(t: string): int {
    match ParseInt(t)
    case Some(n) => n
    case None => StatusWord(Lower(Strip(t)))
  }

  /** `_status_code` of a raw status value: a number is truncated to int, a
      string goes through `TextCode`, and `None`, lists and dicts give 0. */
  function StatusCode(s: Json): int {
    if IsNumber(s) then NumberValue(s) else if s.JStr? then TextCode(s.s) else 0
  }

  /** `str(None)`: neither integer text nor a name of the tables. */
  lemma NoneText()
    ensures ParseInt(Str(JNull)).None? && Lower(Strip(Str(JNull))) == "none"
  {
    StripNoEdgeSpace("None");
    assert !IsDigits("None") by { assert !IsDigitChar("None"[0]); }
    assert Lower("None") == "none";
  }

  /** The `str()` of a list or a dict: not integer text, and it starts with
      its bracket once stripped and lower-cased. */
  lemma BracketText(v: Json)
    requires v.JList? || v.JObj?
    ensures ParseInt(Str(v)).None?
    ensures var t := Lower(Strip(Str(v))); |t| > 0 && (t[0] == '[' || t[0] == '{')
  {
    ReprBrackets(v);
    var r := Str(v);
    StripNoEdgeSpace(r);
    assert !IsDigits(r) by { assert !IsDigitChar(r[0]); }
  }

  /** The decimal text of an int is its own `strip()` and, lower-cased, starts
      with a digit or a minus sign. */
  lemma IntText(i: int)
    ensures Strip(IntToStr(i)) == IntToStr(i)
    ensures var t := Lower(IntToStr(i)); |t| > 0 && (t[0] == '-' || IsDigitChar(t[0]))
  {
    var r := IntToStr(i);
    var d := NatToStr(if i < 0 then -i else i);
    assert r[|r| - 1] == d[|d| - 1];
    assert IsDigitChar(d[|d| - 1]);
    StripNoEdgeSpace(r);
    assert r[0] == '-' || r[0] == d[0];
  }

  /** Text that does not start with a lower-case letter names no status. */
  lemma NotAStatusWord(t: string)
    requires |t| > 0 && !IsLowerChar(t[0])
    ensures StatusWord(t) == 0
  {
    assert t != "idle" by { assert "idle"[0] == 'i'; }
    assert t != "intask" by { assert "intask"[0] == 'i'; }
    assert t != "running" by { assert "running"[0] == 'r'; }
    assert t != "working" by { assert "working"[0] == 'w'; }
    assert t != "charging" by { assert "charging"[0] == 'c'; }
  }

  /** The shortcut agrees with Python's `int(str(s).strip())` followed by the
      name lookup, for every value that is not a number. */
  lemma StatusCodeIsTextCode(s: Json)
    requires !IsNumber(s)
    ensures StatusCode(s) == TextCode(Str(s))
  {
    if s == JNull {
      NoneText();
    } else if !s.JStr? {
      BracketText(s);
      NotAStatusWord(Lower(Strip(Str(s))));
    }
  }

  /** A record without any status key has code 0. */
  lemma MissingStatusIsZero()
    ensures TextCode(Str(JNull)) == 0 && StatusCode(JNull) == 0
  {
    NoneText();
  }

  /** The AMR counters shown in the top bar. */
  datatype AmrCounts = AmrCounts(total: nat, working: nat, waiting: nat, charging: nat)

  /** The status code of each of the first `n` items, in order. */
  function Codes(arr: seq<Json>, n: nat): (r: seq<int>)
    requires n <= |arr|
    ensures |r| == n
  {
    if n == 0 then [] else Codes(arr, n - 1) + [StatusCode(RawStatus(arr[n - 1]))]
  }

  /** The counters after one more record with status `code`. */
  function CountCode(c: AmrCounts, code: int): AmrCounts {
    AmrCounts(c.total + 1,
              c.working + (if code == AmrInTask then 1 else 0),
              c.waiting + (if code == AmrIdle then 1 else 0),
              c.charging + (if code == AmrCharging then 1 else 0))
  }

  /** The counters over a sequence of status codes. */
  function TallyCodes(codes: seq<int>): (c: AmrCounts)
    ensures c.total == |codes|
    ensures c.working + c.waiting + c.charging <= c.total
  {
    if codes == [] then AmrCounts(0, 0, 0, 0)
    else CountCode(TallyCodes(codes[..|codes| - 1]), codes[|codes| - 1])
  }

  lemma CodesSnoc(arr: seq<Json>, i: nat)
    requires i < |arr|
    ensures Codes(arr, i + 1) == Codes(arr, i) + [StatusCode(RawStatus(arr[i]))]
  {
  }

  lemma TallyCodesSnoc(codes: seq<int>, code: int)
    ensures TallyCodes(codes + [code]) == CountCode(TallyCodes(codes), code)
  {
    assert (codes + [code])[..|codes|] == codes;
  }

  /** Each counter is the number of records with its status code. */
  lemma {:induction false} TallyCountsCodes(codes: seq<int>)
    ensures var c := TallyCodes(codes);
            var m := multiset(codes);
            c.working == m[AmrInTask] && c.waiting == m[AmrIdle] && c.charging == m[AmrCharging]
  {
    if codes != [] {
      var pre := codes[..|codes| - 1];
      TallyCountsCodes(pre);
      assert codes == pre + [codes[|codes| - 1]];
    }
  }

  /** The counters over the first `n` records, as the loop accumulates them. */
  function AmrTally(arr: seq<Json>, n: nat): AmrCounts
    requires n <= |arr|
  {
    if n == 0 then AmrCounts(0, 0, 0, 0)
    else CountCode(AmrTally(arr, n - 1), StatusCode(RawStatus(arr[n - 1])))
  }

  /** The loop's counters are the tally of the records' status codes: the
      total is the number of records and each counter is the number of
      records with its code. */
  lemma {:induction false} AmrTallyIsTallyCodes(arr: seq<Json>, n: nat)
    requires n <= |arr|
    ensures AmrTally(arr, n) == TallyCodes(Codes(arr, n))
  {
    if n > 0 {
      AmrTallyIsTallyCodes(arr, n - 1);
      CodesSnoc(arr, n - 1);
      TallyCodesSnoc(Codes(arr, n - 1), StatusCode(RawStatus(arr[n - 1])));
    }
  }

  lemma AmrTallyOfCodes(arr: seq<Json>, n: nat)
    requires n <= |arr|
    ensures var c := AmrTally(arr, n);
            var m := multiset(Codes(arr, n));
            c.total == n && c.working == m[AmrInTask] && c.waiting == m[AmrIdle] && c.charging == m[AmrCharging]
  {
    AmrTallyIsTallyCodes(arr, n);
    TallyCountsCodes(Codes(arr, n));
  }

  predicate AllDicts(arr: seq<Json>) {
    forall i :: 0 <= i < |arr| ==> arr[i].JObj?
  }

  /** The list a handler works on: the data when it is a list, else empty. */
  function AsList(data: Json): seq<Json> {
    if data.JList? then data.items else []
  }

  /** The AMRInfo counters; `None` when an item is not a dict (`it.get` raises
      and no counter is posted). */
  function AmrCountsOf(data: Json): (r: Option<AmrCounts>)
    ensures !data.JList? ==> r == Some(AmrCounts(0, 0, 0, 0))
  {
    var arr := AsList(data);
    if AllDicts(arr) then Some(AmrTally(arr, |arr|)) else None
  }

  /** The counting loop of the AMRInfo handler. */
  method CountAmrs(data: Json) returns (r: Option<AmrCounts>)
    ensures r == AmrCountsOf(data)
  {
    var arr := if data.JList? then data.items else [];
    var working, waiting, charging := 0, 0, 0;
    var i := 0;
    while i < |arr|
      invariant 0 <= i <= |arr|
      invariant forall j :: 0 <= j < i ==> arr[j].JObj?
      invariant AmrTally(arr, i) == AmrCounts(i, working, waiting, charging)
    {
      if !arr[i].JObj? {
        return None;
      }
      var code := StatusCode(RawStatus(arr[i]));
      assert AmrTally(arr, i + 1) == CountCode(AmrCounts(i, working, waiting, charging), code);
      if code == AmrIdle {
        waiting := waiting + 1;
      } else if code == AmrInTask {
        working := working + 1;
      } else if code == AmrCharging {
        charging := charging + 1;
      }
      i := i + 1;
    }
    r := Some(AmrCounts(|arr|, working, waiting, charging));
  }



  // ---------------------------------------------------------- containers

  /** The node text is none of "", "none", "off_map", "offmap" once stripped
      and lower-cased. */
  predicate NodeTextOnMap(t: string) {
    Lower(Strip(t)) !in {"", "none", "off_map", "offmap"}
  }

  /** The node test of a value: a string goes through `NodeTextOnMap`, `None`
      is off the map and any other value is on it. */
  predicate NodeOnMap(node: Json) {
    if node.JStr? then NodeTextOnMap(node.s) else node != JNull
  }

  /** Text that starts with neither 'n' nor 'o' is no off-map marker. */
  lemma NotAnOffMapWord(t: string)
    requires |t| > 0 && t[0] != 'n' && t[0] != 'o'
    ensures t !in {"", "none", "off_map", "offmap"}
  {
    assert t != "none" by { assert "none"[0] == 'n'; }
    assert t != "off_map" by { assert "off_map"[0] == 'o'; }
    assert t != "offmap" by { assert "offmap"[0] == 'o'; }
  }

  /** The shortcut agrees with testing `str(node)`. */
  lemma NodeOnMapIsText(node: Json)
    ensures NodeOnMap(node) == NodeTextOnMap(Str(node))
  {
    match node
    case JNull => NoneText();
    case JBool(b) =>
      var t := Str(node);
      assert IsUpperChar(t[0]) && t[|t| - 1] == 'e';
      StripNoEdgeSpace(t);
      NotAnOffMapWord(Lower(t));
    case JInt(i) =>
      IntText(i);
      NotAnOffMapWord(Lower(IntToStr(i)));
    case JStr(_) =>
    case JList(_) =>
      BracketText(node);
      NotAnOffMapWord(Lower(Strip(Str(node))));
    case JObj(_) =>
      BracketText(node);
      NotAnOffMapWord(Lower(Strip(Str(node))));
  }

  /** `_in_map(c)`: an `inMapStatus` key decides, else a non-null `isOffMap`
      negated, else the node code. */
  predicate InMap(c: Json) {
    if HasKey(c, "inMapStatus") then Truthy(Get(c, "inMapStatus"))
    else if Get(c, "isOffMap") != JNull then !Truthy(Get(c, "isOffMap"))
    else NodeOnMap(GetOr(c, "nodeCode", JStr("")))
  }

  datatype CarryKind = Stationary | InHandling

  /** `isCarry`, else `carryStatus or carry`. */
  function CarryValue(c: Json): Json {
    if Get(c, "isCarry") != JNull then Get(c, "isCarry") else Or(Get(c, "carryStatus"), Get(c, "carry"))
  }

  /** `_carry_kind` of the carry value. */
  function TextCarry(t: string): CarryKind {
    match ParseInt(t)
    case Some(n) => if n == 0 then Stationary else InHandling
    case None =>
      if Lower(Strip(t)) in {"0", "stationary", "stay", "parked"} then Stationary else InHandling
  }

  /** `_carry_kind` of the carry value: a bool maps directly, an int is
      stationary iff zero, a string goes through `TextCarry`, anything else
      is in handling. */
  function CarryKindOf(v: Json): CarryKind {
    if v.JBool? then (if v.b then InHandling else Stationary)
    else if v.JInt? then (if v.i == 0 then Stationary else InHandling)
    else if v.JStr? then TextCarry(v.s)
    else InHandling
  }

  /** The shortcut agrees with Python's `int(str(v).strip())` followed by the
      keyword test, for every value that is not a bool. */
  lemma CarryKindIsTextCarry(v: Json)
    requires !v.JBool?
    ensures CarryKindOf(v) == TextCarry(Str(v))
  {
    match v
    case JNull =>
      NoneText();
      NotACarryWord("none");
    case JInt(i) => ParseIntOfIntToStr(i);
    case JStr(_) =>
    case JList(_) =>
      BracketText(v);
      NotACarryWord(Lower(Strip(Str(v))));
    case JObj(_) =>
      BracketText(v);
      NotACarryWord(Lower(Strip(Str(v))));
  }

  /** Text starting with none of '0', 's' and 'p' is no parking keyword. */
  lemma NotACarryWord(t: string)
    requires |t| > 0 && t[0] != '0' && t[0] != 's' && t[0] != 'p'
    ensures t !in {"0", "stationary", "stay", "parked"}
  {
    assert t != "0" by { assert "0"[0] == '0'; }
    assert t != "stationary" by { assert "stationary"[0] == 's'; }
    assert t != "stay" by { assert "stay"[0] == 's'; }
    assert t != "parked" by { assert "parked"[0] == 'p'; }
  }

  /** A carry flag reads the same as a bool, as an int and as its decimal
      text: only zero and `False` are stationary. */
  lemma CarryNumberAndText(n: int)
    ensures CarryKindOf(JInt(n)) == CarryKindOf(JStr(IntToStr(n)))
    ensures CarryKindOf(JInt(n)) == (if n == 0 then Stationary else InHandling)
    ensures CarryKindOf(JBool(false)) == CarryKindOf(JInt(0))
    ensures CarryKindOf(JBool(true)) == CarryKindOf(JInt(1))
  {
    ParseIntOfIntToStr(n);
  }

  /** Text is stationary when it is zero or a parking keyword in any case:
      the "0" keyword is never reached, and every other text, the moving
      keywords included, is in handling. */
  lemma StationaryOnlyFor(t: string)
    ensures TextCarry(t) == Stationary <==>
            ParseInt(t) == Some(0) || (ParseInt(t).None? && Lower(Strip(t)) in {"stationary", "stay", "parked"})
  {
    LowerZero(Strip(t));
  }

  /** The container counters shown in the top bar. */
  datatype ContainerCounts = ContainerCounts(total: nat, offMap: nat, stationary: nat, inHandling: nat)

  /** Where a container is counted. */
  datatype Place = OffMap | OnMap(kind: CarryKind)

  function PlaceOf(c: Json): Place {
    if InMap(c) then OnMap(CarryKindOf(CarryValue(c))) else OffMap
  }

  function Places(arr: seq<Json>, n: nat): (r: seq<Place>)
    requires n <= |arr|
    ensures |r| == n
  {
    if n == 0 then [] else Places(arr, n - 1) + [PlaceOf(arr[n - 1])]
  }

  /** The counters after one more container in place `p`. */
  function CountPlace(c: ContainerCounts, p: Place): ContainerCounts {
    match p
    case OffMap => c.(total := c.total + 1, offMap := c.offMap + 1)
    case OnMap(Stationary) => c.(total := c.total + 1, stationary := c.stationary + 1)
    case OnMap(InHandling) => c.(total := c.total + 1, inHandling := c.inHandling + 1)
  }

  /** The counters over a sequence of places; every container lands in
      exactly one of the three. */
  function TallyPlaces(ps: seq<Place>): (c: ContainerCounts)
    ensures c.total == |ps|
    ensures c.offMap + c.stationary + c.inHandling == c.total
  {
    if ps == [] then ContainerCounts(0, 0, 0, 0)
    else
      CountPlace(TallyPlaces(ps[..|ps| - 1]), ps[|ps| - 1])
  }

  lemma PlacesSnoc(arr: seq<Json>, i: nat)
    requires i < |arr|
    ensures Places(arr, i + 1) == Places(arr, i) + [PlaceOf(arr[i])]
  {
  }

  lemma TallyPlacesSnoc(ps: seq<Place>, p: Place)
    ensures TallyPlaces(ps + [p]) == CountPlace(TallyPlaces(ps), p)
  {
    assert (ps + [p])[..|ps|] == ps;
  }

  /** Each counter is the number of containers in its place. */
  lemma {:induction false} TallyCountsPlaces(ps: seq<Place>)
    ensures var c := TallyPlaces(ps);
            var m := multiset(ps);
            c.offMap == m[OffMap] && c.stationary == m[OnMap(Stationary)] && c.inHandling == m[OnMap(InHandling)]
  {
    if ps != [] {
      var pre := ps[..|ps| - 1];
      TallyCountsPlaces(pre);
      assert ps == pre + [ps[|ps| - 1]];
    }
  }

  /** The counters over the first `n` containers, as the loop accumulates them. */
  function ContainerTally(arr: seq<Json>, n: nat): ContainerCounts
    requires n <= |arr|
  {
    if n == 0 then ContainerCounts(0, 0, 0, 0)
    else CountPlace(ContainerTally(arr, n - 1), PlaceOf(arr[n - 1]))
  }

  /** The loop's counters are the tally of the containers' places: every
      container is counted exactly once, in its own place. */
  lemma {:induction false} ContainerTallyIsTallyPlaces(arr: seq<Json>, n: nat)
    requires n <= |arr|
    ensures ContainerTally(arr, n) == TallyPlaces(Places(arr, n))
  {
    if n > 0 {
      ContainerTallyIsTallyPlaces(arr, n - 1);
      PlacesSnoc(arr, n - 1);
      TallyPlacesSnoc(Places(arr, n - 1), PlaceOf(arr[n - 1]));
    }
  }

  lemma ContainerTallyOfPlaces(arr: seq<Json>, n: nat)
    requires n <= |arr|
    ensures var c := ContainerTally(arr, n);
            var m := multiset(Places(arr, n));
            c.total == n && c.offMap + c.stationary + c.inHandling == n
            && c.offMap == m[OffMap] && c.stationary == m[OnMap(Stationary)] && c.inHandling == m[OnMap(InHandling)]
  {
    ContainerTallyIsTallyPlaces(arr, n);
    TallyCountsPlaces(Places(arr, n));
  }

  /** The ContainerInfo counters; `None` when an item is not a dict. */
  function ContainerCountsOf(data: Json): (r: Option<ContainerCounts>)
    ensures !data.JList? ==> r == Some(ContainerCounts(0, 0, 0, 0))
  {
    var arr := AsList(data);
    if AllDicts(arr) then Some(ContainerTally(arr, |arr|)) else None
  }

  /** The counting loop of the ContainerInfo handler. */
  method CountContainers(data: Json) returns (r: Option<ContainerCounts>)
    ensures r == ContainerCountsOf(data)
  {
    var arr := if data.JList? then data.items else [];
    var offMap, stationary, inHandling := 0, 0, 0;
    var i := 0;
    while i < |arr|
      invariant 0 <= i <= |arr|
      invariant forall j :: 0 <= j < i ==> arr[j].JObj?
      invariant ContainerTally(arr, i) == ContainerCounts(i, offMap, stationary, inHandling)
    {
      if !arr[i].JObj? {
        return None;
      }
      assert ContainerTally(arr, i + 1) == CountPlace(ContainerCounts(i, offMap, stationary, inHandling), PlaceOf(arr[i]));
      if InMap(arr[i]) {
        var kind := CarryKindOf(CarryValue(arr[i]));
        if kind == Stationary {
          stationary := stationary + 1;
        } else {
          inHandling := inHandling + 1;
        }
      } else {
        offMap := offMap + 1;
      }
      i := i + 1;
    }
    r := Some(ContainerCounts(|arr|, offMap, stationary, inHandling));
  }



  type Dict = seq<(string, Json)>

  /** `dict(it or {})`: a dict keeps its fields and a falsy value gives `{}`.
      Any other truthy value is taken as a raise of `dict()`; that is what a
      string, number or boolean does, while a list of key/value pairs,
      which `dict()` accepts, is not modelled. */
  function AsDict(it: Json): Option<Dict> {
    if it.JObj? then Some(it.fields) else if !Truthy(it) then Some([]) else None
  }

  /** The container key: the first truthy of containerCode, id and name, else
      "C" and the 1-based index in three digits. */
  function ContainerKey(d: Dict, i: nat): (cid: string)
    ensures |cid| > 0
  {
    Str(Or(Or(Or(Get(JObj(d), "containerCode"), Get(JObj(d), "id")), Get(JObj(d), "name")),
           JStr("C" + Pad3(i + 1))))
  }

  /** The model text: `str()` of containerModelCode or model, "-" when null. */
  function ModelText(d: Dict): string {
    var model := Or(Get(JObj(d), "containerModelCode"), Get(JObj(d), "model"));
    if model != JNull then Str(model) else "-"
  }

  /** The map flag filled in when `inMapStatus` is missing: `isOffMap` (even
      a null one) negated, else the node code. */
  function MapFlag(d: Dict): bool {
    if KeyIn(d, "isOffMap") then !Truthy(Get(JObj(d), "isOffMap"))
    else NodeOnMap(GetOr(JObj(d), "nodeCode", JStr("")))
  }

  /** One normalised record. */
  function NormEntry(d: Dict, i: nat): Dict {
    var d1 := Put(d, "containerCode", JStr(ContainerKey(d, i)));
    var d2 := Put(d1, "containerModelCode", JStr(ModelText(d1)));
    if KeyIn(d2, "inMapStatus") then d2 else Put(d2, "inMapStatus", JBool(MapFlag(d2)))
  }

  /** A normalised record carries its key and a string model, always has
      `inMapStatus`, and keeps every other field. */
  lemma NormEntryFacts(d: Dict, i: nat, k: string)
    ensures var r := NormEntry(d, i);
            Get(JObj(r), "containerCode") == JStr(ContainerKey(d, i))
            && Get(JObj(r), "containerModelCode") == JStr(ModelText(d))
            && HasKey(JObj(r), "inMapStatus")
            && (k != "containerCode" && k != "containerModelCode" && k != "inMapStatus" ==>
                  Get(JObj(r), k) == Get(JObj(d), k))
  {
    var d1 := Put(d, "containerCode", JStr(ContainerKey(d, i)));
    var d2 := Put(d1, "containerModelCode", JStr(ModelText(d1)));
    PutLookup(d, "containerCode", JStr(ContainerKey(d, i)), "containerModelCode");
    PutLookup(d, "containerCode", JStr(ContainerKey(d, i)), "model");
    PutLookup(d, "containerCode", JStr(ContainerKey(d, i)), "containerCode");
    assert ModelText(d1) == ModelText(d);
    PutLookup(d, "containerCode", JStr(ContainerKey(d, i)), k);
    PutLookup(d1, "containerModelCode", JStr(ModelText(d1)), k);
    PutLookup(d1, "containerModelCode", JStr(ModelText(d1)), "containerCode");
    PutLookup(d1, "containerModelCode", JStr(ModelText(d1)), "containerModelCode");
    if !KeyIn(d2, "inMapStatus") {
      PutLookup(d2, "inMapStatus", JBool(MapFlag(d2)), k);
      PutLookup(d2, "inMapStatus", JBool(MapFlag(d2)), "containerCode");
      PutLookup(d2, "inMapStatus", JBool(MapFlag(d2)), "containerModelCode");
    }
  }

  /** The normalised map flag agrees with the counters' `_in_map` unless the
      record holds an explicit null `isOffMap`. */
  lemma NormKeepsInMap(d: Dict, i: nat)
    requires !(KeyIn(d, "isOffMap") && Get(JObj(d), "isOffMap") == JNull)
    ensures InMap(JObj(NormEntry(d, i))) == InMap(JObj(d))
  {
    var d1 := Put(d, "containerCode", JStr(ContainerKey(d, i)));
    var d2 := Put(d1, "containerModelCode", JStr(ModelText(d1)));
    PutLookup(d, "containerCode", JStr(ContainerKey(d, i)), "inMapStatus");
    PutLookup(d1, "containerModelCode", JStr(ModelText(d1)), "inMapStatus");
    PutLookup(d, "containerCode", JStr(ContainerKey(d, i)), "isOffMap");
    PutLookup(d1, "containerModelCode", JStr(ModelText(d1)), "isOffMap");
    PutLookup(d, "containerCode", JStr(ContainerKey(d, i)), "nodeCode");
    PutLookup(d1, "containerModelCode", JStr(ModelText(d1)), "nodeCode");
    if !KeyIn(d, "isOffMap") {
      LookupMissing(d, "isOffMap");
    }
    if !KeyIn(d2, "inMapStatus") {
      PutLookup(d2, "inMapStatus", JBool(MapFlag(d2)), "inMapStatus");
    }
  }

  /** A container whose only field is a null `isOffMap` is counted off the
      map, yet cached as on the map (`not bool(None)` is true). */
  lemma NullOffMapDisagrees()
    ensures var d := [("isOffMap", JNull)];
            !InMap(JObj(d)) && InMap(JObj(NormEntry(d, 0)))
  {
    var d := [("isOffMap", JNull)];
    GetSingle("isOffMap", JNull, "isOffMap");
    GetSingle("isOffMap", JNull, "inMapStatus");
    GetSingle("isOffMap", JNull, "nodeCode");
    StripNoEdgeSpace("");
    var d1 := Put(d, "containerCode", JStr(ContainerKey(d, 0)));
    var d2 := Put(d1, "containerModelCode", JStr(ModelText(d1)));
    PutLookup(d, "containerCode", JStr(ContainerKey(d, 0)), "inMapStatus");
    PutLookup(d1, "containerModelCode", JStr(ModelText(d1)), "inMapStatus");
    PutLookup(d, "containerCode", JStr(ContainerKey(d, 0)), "isOffMap");
    PutLookup(d1, "containerModelCode", JStr(ModelText(d1)), "isOffMap");
    assert MapFlag(d2);
    PutLookup(d2, "inMapStatus", JBool(true), "inMapStatus");
  }

  /** An item's cache key and normalised record (unused for a non-dict). */
  function Entry(it: Json, i: nat): (string, Json) {
    match AsDict(it)
    case Some(d) => (ContainerKey(d, i), JObj(NormEntry(d, i)))
    case None => ("", JNull)
  }

  lemma EntryOfDict(it: Json, i: nat, d: Dict)
    requires AsDict(it) == Some(d)
    ensures Entry(it, i) == (ContainerKey(d, i), JObj(NormEntry(d, i)))
  {
  }

  /** Every one of the first `n` items converts with `AsDict`. */
  predicate Dictish(items: seq<Json>, n: nat)
    requires n <= |items|
  {
    forall j :: 0 <= j < n ==> AsDict(items[j]).Some?
  }

  /** `_norm_containers`: `None` when `AsDict` fails on some item, else the
      dictionary built by assigning each item's record to its key in turn. */
  function NormContainersOf(items: seq<Json>): Option<Dict> {
    if Dictish(items, |items|) then Some(PutAll(MapIndexed(items, |items|, Entry))) else None
  }

  /** The normalised cache holds exactly the items' keys. */
  lemma NormKeys(items: seq<Json>, x: string)
    requires NormContainersOf(items).Some?
    ensures KeyIn(NormContainersOf(items).value, x) <==> exists j :: 0 <= j < |items| && Entry(items[j], j).0 == x
  {
    var es := MapIndexed(items, |items|, Entry);
    PutAllKeys(es, x);
    forall j | 0 <= j < |items|
      ensures es[j] == Entry(items[j], j)
    {
      MapIndexedAt(items, |items|, Entry, j);
    }
  }

  /** A key holds the normalised record of the last item carrying it. */
  lemma NormLastWins(items: seq<Json>, j: nat)
    requires NormContainersOf(items).Some? && j < |items|
    requires forall l :: j < l < |items| ==> Entry(items[l], l).0 != Entry(items[j], j).0
    ensures Lookup(NormContainersOf(items).value, Entry(items[j], j).0) == JObj(NormEntry(AsDict(items[j]).value, j))
  {
    var es := MapIndexed(items, |items|, Entry);
    forall l | 0 <= l < |items|
      ensures es[l] == Entry(items[l], l)
    {
      MapIndexedAt(items, |items|, Entry, l);
    }
    PutAllLast(es, j);
  }

  /** The normalisation loop. */
  method NormContainers(items: seq<Json>) returns (r: Option<Dict>)
    ensures r == NormContainersOf(items)
  {
    var norm: Dict := [];
    var i := 0;
    while i < |items|
      invariant 0 <= i <= |items|
      invariant Dictish(items, i) && norm == PutAll(MapIndexed(items, i, Entry))
    {
      var d := AsDict(items[i]);
      if d.None? {
        return None;
      }
      var cid := ContainerKey(d.value, i);
      EntryOfDict(items[i], i, d.value);
      PutAllSnoc(MapIndexed(items, i, Entry), Entry(items[i], i));
      norm := Put(norm, cid, JObj(NormEntry(d.value, i)));
      i := i + 1;
    }
    r := Some(norm);
  }


  // --------------------------------------------------------- UI job queue

  /** A queued UI job; `raises` says whether running it throws. */
  datatype Job = Job(id: nat, raises: bool)

  /** What running a job leaves: its effect, or the logged failure. */
  datatype JobRun = Done(id: nat) | Failed(id: nat)

  function RunOf(j: Job): JobRun {
    if j.raises then Failed(j.id) else Done(j.id)
  }

  /** Running jobs one after the other, each failure caught on its own. */
  function Runs(jobs: seq<Job>): (r: seq<JobRun>)
    ensures |r| == |jobs|
  {
    if jobs == [] then [] else Runs(jobs[..|jobs| - 1]) + [RunOf(jobs[|jobs| - 1])]
  }

  /** Every job runs, in order, whether or not an earlier one failed. */
  lemma {:induction false} RunsInOrder(jobs: seq<Job>, i: nat)
    requires i < |jobs|
    ensures Runs(jobs)[i] == RunOf(jobs[i])
  {
    if i < |jobs| - 1 {
      RunsInOrder(jobs[..|jobs| - 1], i);
    }
  }

  /** The queue of UI work; `queue` is `None` before the queue exists and
      after shutdown, and `ran` is what the main thread has executed. */
  class UiJobs {
    var queue: Option<seq<Job>>
    var ran: seq<JobRun>

    constructor (started: bool)
      ensures queue == (if started then Some([]) else None) && ran == []
    {
      queue := if started then Some([]) else None;
      ran := [];
    }

    /** `_post_to_ui`: queue the job, or run it at once while no queue exists. */
    method Post(j: Job)
      modifies this
      ensures old(queue).None? ==> queue == old(queue) && ran == old(ran) + [RunOf(j)]
      ensures old(queue).Some? ==> queue == Some(old(queue).value + [j]) && ran == old(ran)
    {
      if queue.None? {
        ran := ran + [RunOf(j)];
      } else {
        queue := Some(queue.value + [j]);
      }
    }

    /** `_drain_ui_jobs`: run every queued job in FIFO order and leave the
        queue empty. */
    method Drain()
      modifies this
      ensures queue == (if old(queue).None? then None else Some([]))
      ensures ran == old(ran) + (if old(queue).None? then [] else Runs(old(queue).value))
    {
      if queue.None? || queue.value == [] {
        return;
      }
      ghost var q0 := queue.value;
      ghost var ran0 := ran;
      var i := 0;
      while queue.value != []
        invariant 0 <= i <= |q0|
        invariant queue == Some(q0[i..])
        invariant ran == ran0 + Runs(q0[..i])
        decreases |queue.value|
      {
        var j := queue.value[0];
        queue := Some(queue.value[1..]);
        ran := ran + [RunOf(j)];
        assert q0[..i + 1][..i] == q0[..i];
        i := i + 1;
      }
      assert q0[..i] == q0;
    }

    /** `on_shutdown`: a non-empty queue is cleared and dropped; an empty one
        is falsy and is left in place. */
    method Shutdown()
      modifies this
      ensures queue == (if old(queue).Some? && old(queue).value != [] then None else old(queue))
      ensures ran == old(ran)
    {
      if queue.Some? && queue.value != [] {
        queue := None;
      }
    }
  }

  // ------------------------------------------------------- fleet pinger

  /** How one HEAD request ended. */
  datatype Probe = Opened | HttpErrorCode(code: int) | OtherError

  /** Whether a probe counts as alive. */
  function ProbeAlive(treatHttpErrorAsAlive: bool, p: Probe): (alive: bool)
    ensures p.Opened? ==> alive
    ensures p.OtherError? ==> !alive
    ensures p.HttpErrorCode? ==> (alive <==> treatHttpErrorAsAlive || 200 <= p.code < 400)
  {
    match p
    case Opened => true
    case HttpErrorCode(code) => if treatHttpErrorAsAlive then true else 200 <= code < 400
    case OtherError => false
  }

  function Alives(treat: bool, probes: seq<Probe>): (r: seq<bool>)
    ensures |r| == |probes|
    ensures forall i :: 0 <= i < |probes| ==> r[i] == ProbeAlive(treat, probes[i])
  {
    if probes == [] then [] else Alives(treat, probes[..|probes| - 1]) + [ProbeAlive(treat, probes[|probes| - 1])]
  }

  /** The changes a run of probes reports from the previous value `last`; the
      first probe always reports when there is none. */
  function PingReports(last: Option<bool>, alives: seq<bool>): seq<bool> {
    match last
    case None => if alives == [] then [] else [alives[0]] + AliveEdges(alives[0], alives[1..])
    case Some(b) => AliveEdges(b, alives)
  }

  function LastAlive(last: Option<bool>, alives: seq<bool>): Option<bool> {
    if alives == [] then last else Some(alives[|alives| - 1])
  }

  /** One more probe reports exactly when it differs from the last value. */
  lemma PingReportsSnoc(last: Option<bool>, alives: seq<bool>, v: bool)
    ensures PingReports(last, alives + [v]) ==
            PingReports(last, alives) + (if Some(v) != LastAlive(last, alives) then [v] else [])
  {
    match last
    case Some(b) =>
      AliveEdgesSnoc(b, alives, v);
    case None =>
      if alives == [] {
        assert AliveEdges(v, []) == [];
      } else {
        PingReportsSnocFirst(alives, v);
      }
  }

  lemma PingReportsSnocFirst(alives: seq<bool>, v: bool)
    requires alives != []
    ensures PingReports(None, alives + [v]) ==
            PingReports(None, alives) + (if v != alives[|alives| - 1] then [v] else [])
  {
    var w := alives + [v];
    assert w[0] == alives[0] && w[1..] == alives[1..] + [v];
    AliveEdgesSnoc(alives[0], alives[1..], v);
    assert LastOr(alives[0], alives[1..]) == alives[|alives| - 1];
  }

  /** The first probe reports, and reported values alternate. */
  lemma PingReportsAlternate(last: Option<bool>, alives: seq<bool>)
    ensures last.None? && alives != [] ==> PingReports(last, alives) != [] && PingReports(last, alives)[0] == alives[0]
    ensures last.Some? && PingReports(last, alives) != [] ==> PingReports(last, alives)[0] != last.value
    ensures var r := PingReports(last, alives);
            forall i :: 0 <= i < |r| - 1 ==> r[i] != r[i + 1]
  {
    match last
    case Some(b) =>
      AliveEdgesAlternate(b, alives);
    case None =>
      if alives != [] {
        AliveEdgesAlternate(alives[0], alives[1..]);
      }
  }

  class HttpPinger {
    const treatHttpErrorAsAlive: bool
    const hasOnChange: bool
    var last: Option<bool>

    constructor (treatHttpErrorAsAlive: bool, hasOnChange: bool)
      ensures this.treatHttpErrorAsAlive == treatHttpErrorAsAlive && this.hasOnChange == hasOnChange
      ensures last == None
    {
      this.treatHttpErrorAsAlive := treatHttpErrorAsAlive;
      this.hasOnChange := hasOnChange;
      last := None;
    }

    /** `_run` over a finite run of probes: `on_change` is called (its
        exceptions swallowed) whenever the outcome differs from the last one. */
    method Run(probes: seq<Probe>) returns (reported: seq<bool>)
      modifies this
      ensures reported == (if hasOnChange then PingReports(old(last), Alives(treatHttpErrorAsAlive, probes)) else [])
      ensures last == LastAlive(old(last), Alives(treatHttpErrorAsAlive, probes))
    {
      ghost var alives := Alives(treatHttpErrorAsAlive, probes);
      ghost var last0 := last;
      reported := [];
      var i := 0;
      while i < |probes|
        invariant 0 <= i <= |probes|
        invariant last == LastAlive(last0, alives[..i])
        invariant reported == (if hasOnChange then PingReports(last0, alives[..i]) else [])
      {
        var alive := ProbeAlive(treatHttpErrorAsAlive, probes[i]);
        PingReportsSnoc(last0, alives[..i], alive);
        assert alives[..i + 1] == alives[..i] + [alive];
        if Some(alive) != last {
          last := Some(alive);
          if hasOnChange {
            reported := reported + [alive];
          }
        }
        i := i + 1;
      }
      assert alives[..i] == alives;
    }
  }
}
