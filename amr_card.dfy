/** One AMR card of the list panel: five text/progress models filled from a
    robot record by first-non-null key lookup. */
module AmrCard {
  import opened PyText
  import opened PyJson
  import opened Common

  /** `g(*keys)`: the value of the first key that is present with a
      non-`None` value, else `None`. */
  function FirstPresent(src: Json, keys: seq<string>): Json {
    if keys == [] then JNull
    else if Get(src, keys[0]) != JNull then Get(src, keys[0])
    else FirstPresent(src, keys[1..])
  }

  /** Index of the first key that is present with a non-null value, or
      `|keys|` when there is none. */
  function FirstIndex(src: Json, keys: seq<string>): (i: nat)
    ensures i <= |keys|
    ensures forall j :: 0 <= j < i ==> Get(src, keys[j]) == JNull
    ensures i < |keys| ==> Get(src, keys[i]) != JNull
  {
    if keys == [] then 0
    else if Get(src, keys[0]) != JNull then 0
    else
      var i := FirstIndex(src, keys[1..]);
      assert forall j :: 1 <= j < i + 1 ==> keys[j] == keys[1..][j - 1];
      1 + i
  }

  /** The lookup reads the key at the first index, `None` when no key is set. */
  lemma {:induction false} FirstPresentSpec(src: Json, keys: seq<string>)
    ensures var i := FirstIndex(src, keys);
            FirstPresent(src, keys) == (if i < |keys| then Get(src, keys[i]) else JNull)
  {
    if keys != [] && Get(src, keys[0]) == JNull {
      FirstPresentSpec(src, keys[1..]);
    }
  }

  /** With every key absent or null the lookup reads `None`. */
  lemma FirstPresentNone(src: Json, keys: seq<string>)
    requires forall j :: 0 <= j < |keys| ==> Get(src, keys[j]) == JNull
    ensures FirstPresent(src, keys) == JNull
  {
    FirstPresentSpec(src, keys);
  }

  /** A key that is present and non-null decides the lookup when every key
      listed before it is absent or null. */
  lemma {:induction false} FirstPresentPicks(src: Json, keys: seq<string>, i: nat)
    requires i < |keys| && Get(src, keys[i]) != JNull
    requires forall j :: 0 <= j < i ==> Get(src, keys[j]) == JNull
    ensures FirstPresent(src, keys) == Get(src, keys[i])
  {
    if i > 0 {
      assert forall j :: 0 <= j < i - 1 ==> keys[1..][j] == keys[j + 1];
      FirstPresentPicks(src, keys[1..], i - 1);
    }
  }

  const StatusKeys: seq<string> := ["status", "robotStatus", "state"]
  const LiftKeys: seq<string> := ["liftStatus", "lift_state"]
  const RackKeys: seq<string> := ["containerCode", "palletCode", "container", "rack"]
  const BatteryKeys: seq<string> := ["batteryLevel", "battery", "batteryPercent"]

  function Clamp01(x: real): real {
    if x < 0.0 then 0.0 else if x > 1.0 then 1.0 else x
  }

  /** The progress-bar value for a raw battery reading: anything `float()`
      rejects reads as 0, a reading above 1 is a percentage. */
  function BatteryFraction(raw: Json): (b: real)
    ensures 0.0 <= b <= 1.0
  {
    var f := match PyFloat(Or(raw, JInt(0))) case Some(x) => x case None => 0.0;
    Clamp01(if f > 1.0 then f / 100.0 else f)
  }

  /** The battery value of a record. */
  function Battery(src: Json): (b: real)
    ensures 0.0 <= b <= 1.0
  {
    BatteryFraction(FirstPresent(src, BatteryKeys))
  }

  /** Readings already in [0, 1] are kept, percentages up to 100 are scaled,
      unreadable readings show an empty bar. */
  lemma BatteryFractionCases(raw: Json)
    ensures (PyFloat(raw) == None && Truthy(raw)) ==> BatteryFraction(raw) == 0.0
    ensures forall x :: PyFloat(raw) == Some(x) && 0.0 <= x <= 1.0 ==> BatteryFraction(raw) == x
    ensures forall x :: PyFloat(raw) == Some(x) && 1.0 < x <= 100.0 ==> BatteryFraction(raw) == x / 100.0
    ensures forall x :: PyFloat(raw) == Some(x) && x > 100.0 ==> BatteryFraction(raw) == 1.0
    ensures forall x :: PyFloat(raw) == Some(x) && x < 0.0 ==> BatteryFraction(raw) == 0.0
  {
    if !Truthy(raw) {
      assert raw == JNull || raw == JBool(false) || raw == JInt(0) || raw == JStr("")
          || raw == JList([]) || raw == JObj([]);
    }
  }

  /** The rack text: `str()` of the first non-null rack key, "-" when falsy. */
  function Rack(src: Json): string {
    Str(Or(FirstPresent(src, RackKeys), JStr("-")))
  }

  /** The rack line shows the first non-null rack key, and "-" when that is
      missing or falsy. */
  lemma RackFallback(src: Json)
    ensures Truthy(FirstPresent(src, RackKeys)) ==> Rack(src) == Str(FirstPresent(src, RackKeys))
    ensures !Truthy(FirstPresent(src, RackKeys)) ==> Rack(src) == "-"
  {
  }

  /** The working-type text (a one-key lookup is `Get` itself). */
  function WorkingType(src: Json): string {
    var w := Or(FirstPresent(src, ["workingType", "missionType", "mission"]), Get(src, "missionCode"));
    if !Truthy(w) then (if Truthy(Get(src, "isWaiting")) then "Waiting" else "-")
    else Str(w)
  }

  /** The working type falls back from the mission fields to the mission code,
      then to the waiting flag. */
  lemma WorkingTypeFallbacks(src: Json)
    ensures Truthy(FirstPresent(src, ["workingType", "missionType", "mission"])) ==>
              WorkingType(src) == Str(FirstPresent(src, ["workingType", "missionType", "mission"]))
    ensures (!Truthy(FirstPresent(src, ["workingType", "missionType", "mission"]))
             && Truthy(Get(src, "missionCode"))) ==> WorkingType(src) == Str(Get(src, "missionCode"))
    ensures (!Truthy(FirstPresent(src, ["workingType", "missionType", "mission"]))
             && !Truthy(Get(src, "missionCode"))) ==>
              WorkingType(src) == (if Truthy(Get(src, "isWaiting")) then "Waiting" else "-")
  {
  }

  /** An empty string in an earlier key hides a later one: `g` stops at the
      first non-null key, falsy or not. */
  lemma EmptyWorkingTypeHidesMissionType()
    ensures var src := JObj([("workingType", JStr("")), ("missionType", JStr("PICK"))]);
            WorkingType(src) == "-"
  {
    var src := JObj([("workingType", JStr("")), ("missionType", JStr("PICK"))]);
    GetPairAt("workingType", JStr(""), "missionType", JStr("PICK"), "workingType");
    GetPairAt("workingType", JStr(""), "missionType", JStr("PICK"), "missionCode");
    GetPairAt("workingType", JStr(""), "missionType", JStr("PICK"), "isWaiting");
  }

  /** What a card's five models show. */
  datatype CardView = CardView(status: string, lift: string, rack: string, workingType: string, battery: real)

  const BlankView := CardView("-", "-", "-", "-", 0.0)

  /** What a card shows for a robot record. */
  function CardOf(src: Json): (v: CardView)
    ensures 0.0 <= v.battery <= 1.0
  {
    CardView(FmtStatus(FirstPresent(src, StatusKeys)), FmtLift(FirstPresent(src, LiftKeys)),
             Rack(src), WorkingType(src), Battery(src))
  }

  /** The status and lift lines are the shared formatters applied to the
      first non-null status and lift keys. */
  lemma CardFields(src: Json)
    ensures CardOf(src).status == FmtStatus(FirstPresent(src, StatusKeys))
    ensures CardOf(src).lift == FmtLift(FirstPresent(src, LiftKeys))
    ensures CardOf(src).rack == Rack(src) && CardOf(src).workingType == WorkingType(src)
    ensures CardOf(src).battery == Battery(src)
  {
  }

  class Card {
    const amrId: string
    var shown: CardView

    constructor (amrId: string)
      ensures this.amrId == amrId && shown == BlankView
    {
      this.amrId := amrId;
      shown := BlankView;
    }

    /** Refill every model from a robot record. */
    method Update(src: Json)
      modifies this
      ensures shown == CardOf(src)
    {
      shown := CardOf(src);
    }
  }

  /** A record with none of the card's fields set shows blanks. */
  lemma NullRecordIsBlank(src: Json)
    requires FirstPresent(src, StatusKeys) == JNull && FirstPresent(src, LiftKeys) == JNull
    requires FirstPresent(src, RackKeys) == JNull
    requires FirstPresent(src, ["workingType", "missionType", "mission"]) == JNull
    requires Get(src, "missionCode") == JNull && !Truthy(Get(src, "isWaiting"))
    requires !Truthy(FirstPresent(src, BatteryKeys))
    ensures CardOf(src) == BlankView
  {
  }

  /** A card updated from an empty record shows blanks ("-" and an empty bar). */
  lemma BlankRecord()
    ensures CardOf(JObj([])) == BlankView
  {
    var e := JObj([]);
    FirstPresentNone(e, StatusKeys);
    FirstPresentNone(e, LiftKeys);
    FirstPresentNone(e, RackKeys);
    FirstPresentNone(e, ["workingType", "missionType", "mission"]);
    FirstPresentNone(e, BatteryKeys);
    NullRecordIsBlank(e);
  }
}
