/** The AMR details panel: the selected id, text models, the position line,
    the battery bar with its colour and the status dot. */
module AmrDetails {
  import opened PyText
  import opened PyJson
  import opened Common
  import opened AmrCard

  datatype BarColour = Green | Orange | Red
  datatype DotColour = DotCharging | DotWaiting | DotWorking

  /** Battery bar colour by threshold. */
  function BarColourOf(v: real): (c: BarColour)
    ensures c == Green <==> v >= 0.70
    ensures c == Orange <==> 0.20 <= v < 0.70
    ensures c == Red <==> v < 0.20
  {
    if v >= 0.70 then Green else if v >= 0.20 then Orange else Red
  }

  function ColourRank(c: BarColour): nat {
    match c case Red => 0 case Orange => 1 case Green => 2
  }

  /** More charge never gives a more alarming colour. */
  lemma BarColourMonotone(v: real, w: real)
    requires v <= w
    ensures ColourRank(BarColourOf(v)) <= ColourRank(BarColourOf(w))
  {
  }

  /** Status dot colour from the status text, case-insensitively. */
  function DotOf(statusText: string): DotColour {
    var s := Lower(statusText);
    if Contains(s, "charg") then DotCharging
    else if Contains(s, "idle") || Contains(s, "wait") then DotWaiting
    else DotWorking
  }

  lemma LowerUpper(s: string)
    ensures Lower(Upper(s)) == Lower(s)
  {
    forall i | 0 <= i < |s|
      ensures Lower(Upper(s))[i] == Lower(s)[i]
    {
      LowerAt(Upper(s), i);
      LowerAt(s, i);
    }
  }

  /** The dot does not depend on letter case. */
  lemma DotCaseInsensitive(s: string)
    ensures DotOf(Upper(s)) == DotOf(s) && DotOf(Lower(s)) == DotOf(s)
  {
    LowerUpper(s);
    LowerIdempotent(s);
  }

  lemma ContainsPrefix(s: string, p: string)
    requires StartsWith(s, p)
    ensures Contains(s, p)
  {
  }

  /** A pattern with a character the text lacks does not occur in it. */
  lemma {:induction false} MissingCharNotContained(s: string, p: string, k: nat)
    requires k < |p| && p[k] !in s
    ensures !Contains(s, p)
  {
    if |p| <= |s| {
      assert s[..|p|][k] == s[k];
    }
    if s != [] {
      MissingCharNotContained(s[1..], p, k);
    }
  }

  /** The formatted status texts of the code table light the dot as their
      names suggest. */
  lemma ChargingLightsDot()
    ensures DotOf(FmtStatus(JInt(5))) == DotCharging
  {
    assert FmtStatus(JInt(5)) == "CHARGING";
    assert Lower("CHARGING") == "charging";
    ContainsPrefix("charging", "charg");
  }

  lemma IdleLightsDot()
    ensures DotOf(FmtStatus(JInt(3))) == DotWaiting
  {
    assert FmtStatus(JInt(3)) == "IDLE";
    assert Lower("IDLE") == "idle";
    ContainsPrefix("idle", "idle");
    MissingCharNotContained("idle", "charg", 0);
  }

  lemma InTaskLightsDot()
    ensures DotOf(FmtStatus(JInt(4))) == DotWorking
  {
    assert FmtStatus(JInt(4)) == "INTASK";
    InTaskText();
  }

  lemma InTaskText()
    ensures DotOf("INTASK") == DotWorking
  {
    var s := "intask";
    assert Lower("INTASK") == s;
    assert 'c' !in s && 'd' !in s && 'w' !in s;
    MissingCharNotContained(s, "charg", 0);
    MissingCharNotContained(s, "idle", 1);
    MissingCharNotContained(s, "wait", 0);
  }

  /** What the position line shows. The `.2f`/`.1f` rendering of the numbers
      is not modelled; a value that `float()` rejects falls back to the raw
      `str()` of x and y. */
  datatype PosText =
    | NoPos
    | PosXY(x: real, y: real)
    | PosXYTheta(x: real, y: real, theta: real)
    | PosRaw(text: string)

  const ThetaKeys: seq<string> := ["robotOrientation", "theta", "yaw"]

  function Position(data: Json): (p: PosText)
    ensures p == NoPos <==> Get(data, "x") == JNull || Get(data, "y") == JNull
    ensures p.PosXYTheta? ==> FirstPresent(data, ThetaKeys) != JNull
    ensures p.PosXY? ==> FirstPresent(data, ThetaKeys) == JNull
  {
    var x := Get(data, "x");
    var y := Get(data, "y");
    var th := FirstPresent(data, ThetaKeys);
    if x == JNull || y == JNull then NoPos
    else
      var raw := PosRaw("(" + Str(x) + ", " + Str(y) + ")");
      var fx := PyFloat(x);
      var fy := PyFloat(y);
      var ft := PyFloat(th);
      if fx.None? || fy.None? then raw
      else if th == JNull then PosXY(fx.value, fy.value)
      else if ft.None? then raw
      else PosXYTheta(fx.value, fy.value, ft.value)
  }

  /** The selected id changes only when a truthy id key is found. */
  function SelectedId(data: Json, prev: string): (r: string)
    ensures !Truthy(FirstPresent(data, ["robotId", "amrId", "id", "name"])) ==> r == prev
  {
    var rid := FirstPresent(data, ["robotId", "amrId", "id", "name"]);
    if Truthy(rid) then Str(rid) else prev
  }

  /** Mission text: mission code first, then the working-type keys, "-" when falsy. */
  function Mission(data: Json): string {
    Str(Or(FirstPresent(data, ["missionCode", "workingType", "missionType", "mission"]), JStr("-")))
  }

  /** Node text; a one-key lookup is `Get` itself. */
  function Node(data: Json): string {
    Str(Or(Get(data, "nodeCode"), JStr("-")))
  }

  /** The rack, mission and node lines read "-" for a record without them. */
  lemma MissingFieldsShowDash(data: Json)
    requires forall k :: k in RackKeys ==> Get(data, k) == JNull
    requires forall k :: k in ["missionCode", "workingType", "missionType", "mission"] ==> Get(data, k) == JNull
    requires Get(data, "nodeCode") == JNull
    ensures Rack(data) == "-" && Mission(data) == "-" && Node(data) == "-"
  {
    FirstPresentSpec(data, RackKeys);
    FirstPresentSpec(data, ["missionCode", "workingType", "missionType", "mission"]);
  }

  /** Everything the panel shows for a record, given the previous selection
      and colours (kept when the widget is missing). */
  datatype DetailsView = DetailsView(
    selectedId: string, status: string, lift: string, rack: string,
    mission: string, node: string, pos: PosText, battery: real,
    dot: DotColour, barColour: BarColour)

  function DetailsOf(data: Json, prevSelected: string, hasDot: bool, prevDot: DotColour,
                hasBar: bool, prevBar: BarColour): (v: DetailsView)
    ensures 0.0 <= v.battery <= 1.0
    ensures v.dot == (if hasDot then DotOf(v.status) else prevDot)
    ensures v.barColour == (if hasBar then BarColourOf(v.battery) else prevBar)
  {
    var status := FmtStatus(FirstPresent(data, StatusKeys));
    var battery := Battery(data);
    DetailsView(SelectedId(data, prevSelected), status,
                FmtLift(FirstPresent(data, LiftKeys)), Rack(data), Mission(data), Node(data),
                Position(data), battery,
                if hasDot then DotOf(status) else prevDot,
                if hasBar then BarColourOf(battery) else prevBar)
  }

  /** The panel's text lines are its fields' formatters applied to the record. */
  lemma ViewFields(data: Json, prevSelected: string, hasDot: bool, prevDot: DotColour,
                   hasBar: bool, prevBar: BarColour)
    ensures var v := DetailsOf(data, prevSelected, hasDot, prevDot, hasBar, prevBar);
            v.status == FmtStatus(FirstPresent(data, StatusKeys))
            && v.lift == FmtLift(FirstPresent(data, LiftKeys))
            && v.rack == Rack(data) && v.mission == Mission(data) && v.node == Node(data)
            && v.pos == Position(data) && v.battery == Battery(data)
            && (!Truthy(FirstPresent(data, ["robotId", "amrId", "id", "name"])) ==> v.selectedId == prevSelected)
  {
  }

  /** The panel; `shown` holds what its string and float models show and the
      colours of its status dot and battery bar. The dot and the bar are
      widgets that `show` creates with the window: until then (`!hasWindow`)
      their colour fields are placeholders nothing reads. */
  class Panel {
    var hasWindow: bool
    var visible: bool
    var shown: DetailsView

    constructor ()
      ensures !hasWindow && !visible
      ensures shown.selectedId == "-" && shown.status == "-" && shown.lift == "-" && shown.rack == "-"
      ensures shown.mission == "-" && shown.node == "-" && shown.pos == NoPos && shown.battery == 0.0
    {
      hasWindow := false;
      visible := false;
      shown := DetailsView("-", "-", "-", "-", "-", "-", NoPos, 0.0, DotWorking, Red);
    }

    /** `show(amr_id)`: a truthy id becomes the selected id; a built window is
        only made visible again, else it is built with the dot in the waiting
        colour and the bar coloured for the current battery level. */
    method Show(amrId: string)
      modifies this
      ensures hasWindow && visible
      ensures var s1 := if amrId != "" then old(shown).(selectedId := amrId) else old(shown);
              if old(hasWindow) then shown == s1
              else shown == s1.(dot := DotWaiting, barColour := BarColourOf(s1.battery))
    {
      if amrId != "" {
        shown := shown.(selectedId := amrId);
      }
      if hasWindow {
        visible := true;
        return;
      }
      hasWindow := true;
      shown := shown.(dot := DotWaiting, barColour := BarColourOf(shown.battery));
      visible := true;
    }

    /** Refill the panel from a robot record; the dot and the bar are
        recoloured only once they exist. */
    method Update(data: Json)
      modifies this
      ensures hasWindow == old(hasWindow) && visible == old(visible)
      ensures shown == DetailsOf(data, old(shown.selectedId), hasWindow, old(shown.dot), hasWindow, old(shown.barColour))
    {
      shown := DetailsOf(data, shown.selectedId, hasWindow, shown.dot, hasWindow, shown.barColour);
    }

    /** `set_selected_id`: only the selected id changes, and a built window
        is made visible. */
    method SetSelectedId(amrId: string)
      modifies this
      ensures shown == old(shown).(selectedId := amrId)
      ensures hasWindow == old(hasWindow) && visible == (old(visible) || hasWindow)
    {
      shown := shown.(selectedId := amrId);
      if hasWindow {
        visible := true;
      }
    }
  }
}
