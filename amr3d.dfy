/** The AMR pose synchroniser of the 3D scene.

    `Sync` turns a polled robot list into a per-robot target pose and removes
    the prims of robots that disappeared; `Update`, once per frame, moves each
    robot's current pose toward its target at a bounded speed and turn rate,
    snapping when it is close enough.

    The scene graph is reduced to the set of child names under the robot
    group. The transform-op handles are reduced to the set of robot ids whose
    ops are cached. Positions are (u, v) pairs of reals, yaws are degrees. */
module Amr3D {
  import opened PyText
  import opened PyJson

  /** Axis, unit and motion parameters (the constructor's and `init`'s values). */
  datatype Config = Config(
    yawSign: real, yawOffset: real, signV: real, scaleCorr: real,
    offsetU: real, offsetV: real, mmToUnits: real,
    moveSpeed: real, yawSpeed: real, yawEps: real, posEps: real)

  /** The defaults for a stage whose metres per unit read `stageMetersPerUnit`
      (0.01 when that reads 0, which Python's `or` treats as missing):
      900 mm/s, 110 deg/s, a 0.5 degree and a 10 mm snap distance. */
  function DefaultConfig(stageMetersPerUnit: real): (c: Config)
    ensures var m := if stageMetersPerUnit == 0.0 then 0.01 else stageMetersPerUnit;
            c.mmToUnits * m * 1000.0 == 1.0
    ensures stageMetersPerUnit == 0.0 ==> c.mmToUnits == 0.1
    ensures c.posEps == 10.0 * c.mmToUnits
    ensures c.moveSpeed == 900.0 && c.yawSpeed == 110.0 && c.yawEps == 0.5
  {
    var m := if stageMetersPerUnit == 0.0 then 0.01 else stageMetersPerUnit;
    var mm := (1.0 / m) / 1000.0;
    Config(1.0, 0.0, 1.0, 1.0, 0.0, 0.0, mm, 900.0, 110.0, 0.5, 10.0 * mm)
  }

  const GroupPath: string := "/World/AMRs"

  // ---------------------------------------------------------------- names

  function SanitizeChar(c: char): char {
    if IsAlnumChar(c) || c == '_' then c else '_'
  }

  function SanitizeChars(s: string): string {
    if s == [] then [] else [SanitizeChar(s[0])] + SanitizeChars(s[1..])
  }

  lemma {:induction false} SanitizeCharsAt(s: string)
    ensures |SanitizeChars(s)| == |s|
    ensures forall i :: 0 <= i < |s| ==> SanitizeChars(s)[i] == SanitizeChar(s[i])
  {
    if s != [] {
      SanitizeCharsAt(s[1..]);
    }
  }

  predicate IsSegmentChar(c: char) { IsAlnumChar(c) || c == '_' }

  /** The id part of a prim name: every character outside `[A-Za-z0-9_]`
      becomes `_`, and a leading digit gets a `_` in front. */
  function Segment(rid: string): string {
    var t := SanitizeChars(rid);
    if t != [] && IsDigitChar(t[0]) then "_" + t else t
  }

  /** A segment holds only `[A-Za-z0-9_]`, does not start with a digit, and
      is the id or one character longer. */
  lemma SegmentShape(rid: string)
    ensures var r := Segment(rid);
            (forall i :: 0 <= i < |r| ==> IsSegmentChar(r[i]))
            && (r != [] ==> !IsDigitChar(r[0]))
            && (|r| == |rid| || |r| == |rid| + 1)
  {
    SanitizeCharsAt(rid);
  }

  /** A string that is already a segment is its own segment. */
  lemma SegmentIdempotent(s: string)
    ensures Segment(Segment(s)) == Segment(s)
  {
    var t := Segment(s);
    SegmentShape(s);
    SanitizeCharsAt(t);
    assert SanitizeChars(t) == t;
  }

  /** The child name of a robot's prim under the group. */
  function PrimName(rid: Json): string {
    "AMR_" + Segment(Str(rid))
  }

  /** `_amr_path`: the group path, then `/AMR_` and the segment. */
  function AmrPath(rid: Json): (p: string)
    ensures p == GroupPath + "/" + PrimName(rid)
    ensures p[..|GroupPath| + 5] == GroupPath + "/AMR_"
  {
    GroupPath + "/AMR_" + Segment(Str(rid))
  }

  /** `child.GetName()[4:]` (an empty string for a name of four characters or fewer). */
  function Tail4(name: string): string {
    if |name| >= 4 then name[4..] else ""
  }

  /** A name this synchroniser gives a prim: "AMR_" and a segment. */
  predicate IsPrimName(n: string) {
    |n| >= 4 && n[..4] == "AMR_" && Segment(n[4..]) == n[4..]
  }

  lemma PrimNameShape(rid: Json)
    ensures IsPrimName(PrimName(rid)) && Tail4(PrimName(rid)) == Segment(Str(rid))
  {
    var n := PrimName(rid);
    assert n[4..] == Segment(Str(rid));
    SegmentIdempotent(Str(rid));
  }

  // ---------------------------------------------------------------- angles

  /** `((d + 180) % 360) - 180` with Python's floored `%`. */
  function NormDeg(d: real): (r: real)
    ensures -180.0 <= r < 180.0
    ensures DiffersByTurns(d, r)
  {
    var x := d + 180.0;
    var k := (x / 360.0).Floor;
    var r := x - 360.0 * (k as real) - 180.0;
    assert (d - r) / 360.0 == k as real;
    r
  }

  /** `a` and `b` name the same direction: they differ by whole turns. */
  ghost predicate DiffersByTurns(a: real, b: real) {
    ((a - b) / 360.0).Floor as real == (a - b) / 360.0
  }

  /** An angle already in [-180, 180) is left alone. */
  lemma NormDegFixes(d: real)
    requires -180.0 <= d < 180.0
    ensures NormDeg(d) == d
  {
    assert ((d + 180.0) / 360.0).Floor == 0;
  }

  /** Whole turns do not change the normalised angle. */
  lemma NormDegTurns(d: real, k: int)
    ensures NormDeg(d + 360.0 * (k as real)) == NormDeg(d)
  {
    var x := d + 180.0;
    var y := x + 360.0 * (k as real);
    assert y / 360.0 == x / 360.0 + k as real;
    assert (y / 360.0).Floor == (x / 360.0).Floor + k;
  }

  // ---------------------------------------------------------------- targets

  datatype Target = Target(u: real, v: real, yaw: real)

  /** `_map_to_units` for readings x and y in millimetres. */
  function MapToUnits(c: Config, x: real, y: real): (uv: (real, real))
    ensures uv.0 == x * c.mmToUnits * c.scaleCorr + c.offsetU
    ensures uv.1 == y * c.mmToUnits * c.scaleCorr * c.signV + c.offsetV
  {
    (x * c.mmToUnits * c.scaleCorr + c.offsetU, (y * c.mmToUnits * c.scaleCorr) * c.signV + c.offsetV)
  }

  /** `float(it.get(k, 0.0))`: a missing key reads 0, a value `float()`
      rejects (including `None`) raises. */
  function Reading(it: Json, k: string): Option<real> {
    PyFloat(GetOr(it, k, JInt(0)))
  }

  /** Robot id: robotId, else amrId, else id, else the 1-based position. */
  function RidOf(it: Json, i: nat): Json {
    Or(Or(Or(Get(it, "robotId"), Get(it, "amrId")), Get(it, "id")), JStr(IntToStr(i + 1)))
  }

  /** A value Python can use as a dictionary key. */
  predicate Hashable(j: Json) { !j.JList? && !j.JObj? }

  /** The caches, keyed like the source's dictionaries by the raw id value. */
  datatype Tables = Tables(
    prims: set<string>,
    ops: set<Json>,
    pos: map<Json, (real, real)>,
    yaw: map<Json, real>,
    targets: map<Json, Target>)

  /** Invariant: every prim under the group carries a name this synchroniser gives. */
  ghost predicate ValidTables(t: Tables) {
    forall n :: n in t.prims ==> IsPrimName(n)
  }

  /** The target a well-formed item asks for. */
  function TargetOf(c: Config, it: Json): Option<Target> {
    var x := Reading(it, "x");
    var y := Reading(it, "y");
    var th := Reading(it, "robotOrientation");
    if x.None? || y.None? || th.None? then None
    else
      var uv := MapToUnits(c, x.value, y.value);
      Some(Target(uv.0, uv.1, NormDeg(c.yawSign * th.value + c.yawOffset)))
  }

  /** What one list item gives the item loop: nothing when it is not a
      dictionary (`it.get` raises), else its id, its prim name and its target
      (`None` when a reading raises). */
  datatype Step = NotObject | Item(rid: Json, name: string, target: Option<Target>)

  function StepOf(c: Config, it: Json, i: nat): Step {
    if !it.JObj? then NotObject
    else
      var rid := RidOf(it, i);
      Item(rid, PrimName(rid), TargetOf(c, it))
  }

  /** The steps of a whole list, item `i` at its 0-based position. */
  function Steps(c: Config, items: seq<Json>): (r: seq<Step>)
    ensures |r| == |items|
  {
    StepsFrom(c, items, 0)
  }

  /** The steps of the items from position `k` on. */
  function StepsFrom(c: Config, items: seq<Json>, k: nat): (r: seq<Step>)
    requires k <= |items|
    ensures |r| == |items| - k
    decreases |items| - k
  {
    if k == |items| then [] else [StepOf(c, items[k], k)] + StepsFrom(c, items, k + 1)
  }

  lemma {:induction false} StepsFromAt(c: Config, items: seq<Json>, k: nat, i: nat)
    requires k <= i < |items|
    ensures StepsFrom(c, items, k)[i - k] == StepOf(c, items[i], i)
    decreases i - k
  {
    if k < i {
      StepsFromAt(c, items, k + 1, i);
    }
  }

  /** Step `i` of a list is what item `i` gives. */
  lemma StepsAt(c: Config, items: seq<Json>, i: nat)
    requires i < |items|
    ensures Steps(c, items)[i] == StepOf(c, items[i], i)
  {
    StepsFromAt(c, items, 0, i);
  }

  /** A step names its prim as the synchroniser does. */
  ghost predicate WellNamed(steps: seq<Step>) {
    forall i :: 0 <= i < |steps| && steps[i].Item? ==>
      steps[i].name == PrimName(steps[i].rid) && IsPrimName(steps[i].name)
  }

  lemma StepsWellNamed(c: Config, items: seq<Json>)
    ensures WellNamed(Steps(c, items))
  {
    var steps := Steps(c, items);
    forall i | 0 <= i < |steps| && steps[i].Item?
      ensures steps[i].name == PrimName(steps[i].rid) && IsPrimName(steps[i].name)
    {
      StepsAt(c, items, i);
      PrimNameShape(steps[i].rid);
    }
  }

  /** One iteration of the item loop: define the prim, cache its ops, record
      the target. The flag is false where the source raises; the tables then
      hold what was changed before the exception. */
  function Place(t: Tables, s: Step): (r: (Tables, bool))
    ensures r.0.pos == t.pos && r.0.yaw == t.yaw
    ensures s.Item? ==> r.0.prims == t.prims + {s.name}
    ensures s.NotObject? ==> r == (t, false)
    ensures r.1 <==> s.Item? && Hashable(s.rid) && s.target.Some?
    ensures r.1 ==> r.0.ops == t.ops + {s.rid} && r.0.targets == t.targets[s.rid := s.target.value]
  {
    match s
    case NotObject => (t, false)
    case Item(rid, name, target) =>
      var t1 := t.(prims := t.prims + {name});
      if !Hashable(rid) then (t1, false)
      else
        var t2 := t1.(ops := t1.ops + {rid});
        match target
        case None => (t2, false)
        case Some(g) => (t2.(targets := t2.targets[rid := g]), true)
  }

  /** The item loop over the first `n` steps: tables, names seen, no exception yet. */
  function PlacePrefix(t: Tables, steps: seq<Step>, n: nat): (Tables, set<string>, bool)
    requires n <= |steps|
  {
    if n == 0 then (t, {}, true)
    else
      var prev := PlacePrefix(t, steps, n - 1);
      if !prev.2 then prev
      else
        var r := Place(prev.0, steps[n - 1]);
        (r.0, if r.1 then prev.1 + {steps[n - 1].name} else prev.1, r.1)
  }

  /** Cache keys popped for the removed children. */
  function RemovedKeys(prims: set<string>, seen: set<string>): set<Json> {
    set n | n in prims && n !in seen :: JStr(Tail4(n))
  }

  /** The removal pass: every child not seen goes, with its four cache entries
      under the key `name[4:]`. */
  function RemovePass(t: Tables, seen: set<string>): Tables {
    var keys := RemovedKeys(t.prims, seen);
    Tables(t.prims * seen, t.ops - keys, t.pos - keys, t.yaw - keys, t.targets - keys)
  }

  /** `sync(items)`: `items or []`; a truthy non-list raises on its first element. */
  function SyncSpec(c: Config, t: Tables, items: Json): (Tables, bool) {
    if !Truthy(items) then (RemovePass(t, {}), true)
    else if !items.JList? then (t, false)
    else
      var r := PlacePrefix(t, Steps(c, items.items), |items.items|);
      if r.2 then (RemovePass(r.0, r.1), true) else (r.0, false)
  }

  // ---------------------------------------------------------------- sync lemmas

  lemma PlaceKeepsValid(t: Tables, steps: seq<Step>, i: nat)
    requires ValidTables(t) && WellNamed(steps) && i < |steps|
    ensures ValidTables(Place(t, steps[i]).0)
  {
  }

  lemma {:induction false} PlacePrefixValid(t: Tables, steps: seq<Step>, n: nat)
    requires n <= |steps| && ValidTables(t) && WellNamed(steps)
    ensures ValidTables(PlacePrefix(t, steps, n).0)
  {
    if n > 0 {
      var prev := PlacePrefix(t, steps, n - 1);
      PlacePrefixValid(t, steps, n - 1);
      if prev.2 {
        PlaceKeepsValid(prev.0, steps, n - 1);
        assert PlacePrefix(t, steps, n).0 == Place(prev.0, steps[n - 1]).0;
      }
    }
  }

  /** The item loop never touches the pose caches. */
  lemma {:induction false} PlacePrefixPoses(t: Tables, steps: seq<Step>, n: nat)
    requires n <= |steps|
    ensures var r := PlacePrefix(t, steps, n);
            r.0.pos == t.pos && r.0.yaw == t.yaw
  {
    if n > 0 {
      PlacePrefixPoses(t, steps, n - 1);
    }
  }

  /** After an item loop without exception, every item's prim name is seen,
      and every seen name is a prim. */
  lemma {:induction false} PlacePrefixSeen(t: Tables, steps: seq<Step>, n: nat)
    requires n <= |steps|
    ensures var r := PlacePrefix(t, steps, n);
            (r.2 ==> forall i :: 0 <= i < n ==> steps[i].Item? && steps[i].name in r.1)
            && r.1 <= r.0.prims
  {
    if n > 0 {
      PlacePrefixSeen(t, steps, n - 1);
    }
  }

  /** After an item loop without exception the names seen are exactly the
      prim names of the items processed; the loop only adds prims. */
  lemma {:induction false} PlacePrefixSeenExactly(t: Tables, steps: seq<Step>, n: nat)
    requires n <= |steps|
    ensures var r := PlacePrefix(t, steps, n);
            (r.2 ==> r.1 == set i | 0 <= i < n && steps[i].Item? :: steps[i].name)
            && t.prims <= r.0.prims
  {
    if n > 0 {
      PlacePrefixSeenExactly(t, steps, n - 1);
      var prev := PlacePrefix(t, steps, n - 1);
      var r := PlacePrefix(t, steps, n);
      if r.2 {
        assert prev.2;
        assert r.1 == prev.1 + {steps[n - 1].name};
        assert (set i | 0 <= i < n && steps[i].Item? :: steps[i].name)
            == (set i | 0 <= i < n - 1 && steps[i].Item? :: steps[i].name) + {steps[n - 1].name};
      }
    }
  }

  /** A synchroniser name is the prim name of the string after its "AMR_". */
  lemma NameOfTail(n: string)
    requires IsPrimName(n)
    ensures PrimName(JStr(Tail4(n))) == n
  {
    assert n == n[..4] + n[4..];
  }

  /** The key popped for a removed child is never the id of a robot whose prim
      was seen in this sync, provided every child carries a synchroniser name. */
  lemma RemovedKeyNotSeen(prims: set<string>, seen: set<string>, rid: Json)
    requires forall n :: n in prims ==> IsPrimName(n)
    requires PrimName(rid) in seen
    ensures rid !in RemovedKeys(prims, seen)
  {
    forall n | n in prims && n !in seen
      ensures JStr(Tail4(n)) != rid
    {
      NameOfTail(n);
    }
  }

  /** The removal pass keeps every cache entry of a robot whose prim was seen. */
  lemma RemovePassKeeps(t: Tables, seen: set<string>, rid: Json)
    requires ValidTables(t) && PrimName(rid) in seen
    ensures var r := RemovePass(t, seen);
            (rid in t.ops ==> rid in r.ops)
            && (rid in t.pos ==> rid in r.pos && r.pos[rid] == t.pos[rid])
            && (rid in t.yaw ==> rid in r.yaw && r.yaw[rid] == t.yaw[rid])
            && (rid in t.targets ==> rid in r.targets && r.targets[rid] == t.targets[rid])
            && (PrimName(rid) in t.prims ==> PrimName(rid) in r.prims)
            && r.pos.Keys <= t.pos.Keys && r.yaw.Keys <= t.yaw.Keys
  {
    RemovedKeyNotSeen(t.prims, seen, rid);
  }

  /** A sync of a list that does not raise is the item loop, then the
      removal pass over the names it saw. */
  lemma SyncOfList(c: Config, t: Tables, items: seq<Json>)
    requires SyncSpec(c, t, JList(items)).1
    ensures var p := PlacePrefix(t, Steps(c, items), |items|);
            p.2 && SyncSpec(c, t, JList(items)).0 == RemovePass(p.0, p.1)
  {
  }

  /** `sync` leaves the current pose and yaw of every robot in the new list
      untouched, and the pose caches gain no entry. */
  lemma SyncKeepsPosesOfListedRobots(c: Config, t: Tables, items: seq<Json>, i: nat)
    requires ValidTables(t) && i < |items|
    requires SyncSpec(c, t, JList(items)).1
    ensures var r := SyncSpec(c, t, JList(items)).0;
            var rid := RidOf(items[i], i);
            r.pos.Keys <= t.pos.Keys && r.yaw.Keys <= t.yaw.Keys
            && (rid in t.pos ==> rid in r.pos && r.pos[rid] == t.pos[rid])
            && (rid in t.yaw ==> rid in r.yaw && r.yaw[rid] == t.yaw[rid])
  {
    var steps := Steps(c, items);
    var p := PlacePrefix(t, steps, |items|);
    StepsWellNamed(c, items);
    PlacePrefixValid(t, steps, |items|);
    PlacePrefixPoses(t, steps, |items|);
    PlacePrefixSeen(t, steps, |items|);
    StepsAt(c, items, i);
    RemovePassKeeps(p.0, p.1, RidOf(items[i], i));
    SyncOfList(c, t, items);
  }

  /** After a successful loop every step has its target recorded, the one
      its last occurrence asks for, and its ops cached. */
  lemma {:induction false} PlacePrefixTargets(t: Tables, steps: seq<Step>, n: nat, i: nat)
    requires i < n <= |steps| && PlacePrefix(t, steps, n).2 && steps[i].Item?
    requires forall j :: i < j < n && steps[j].Item? ==> steps[j].rid != steps[i].rid
    ensures var r := PlacePrefix(t, steps, n).0;
            steps[i].target.Some?
            && steps[i].rid in r.ops && steps[i].rid in r.targets
            && r.targets[steps[i].rid] == steps[i].target.value
  {
    if i < n - 1 {
      PlacePrefixTargets(t, steps, n - 1, i);
    }
  }

  /** After a successful sync every listed robot has its prim, its cached
      ops and a target, the one its last item asks for. */
  lemma SyncSetsTargets(c: Config, t: Tables, items: seq<Json>, i: nat)
    requires ValidTables(t) && i < |items|
    requires SyncSpec(c, t, JList(items)).1
    requires forall j :: i < j < |items| ==> RidOf(items[j], j) != RidOf(items[i], i)
    ensures var r := SyncSpec(c, t, JList(items)).0;
            var rid := RidOf(items[i], i);
            rid in r.ops && rid in r.targets && Some(r.targets[rid]) == TargetOf(c, items[i])
            && PrimName(rid) in r.prims
  {
    var steps := Steps(c, items);
    var p := PlacePrefix(t, steps, |items|);
    StepsWellNamed(c, items);
    PlacePrefixValid(t, steps, |items|);
    PlacePrefixSeen(t, steps, |items|);
    StepsAt(c, items, i);
    forall j | i < j < |items| && steps[j].Item?
      ensures steps[j].rid != steps[i].rid
    {
      StepsAt(c, items, j);
    }
    PlacePrefixTargets(t, steps, |items|, i);
    RemovePassKeeps(p.0, p.1, RidOf(items[i], i));
    SyncOfList(c, t, items);
  }

  /** The removal half of `sync`: after a successful sync of a list the prims
      under the group are exactly those of the listed robots, and every prim
      there before that is not listed is gone with the four cache entries
      under its `name[4:]`. */
  lemma SyncRemovesUnlisted(c: Config, t: Tables, items: seq<Json>, n: string)
    requires SyncSpec(c, t, JList(items)).1
    ensures var r := SyncSpec(c, t, JList(items)).0;
            r.prims == set i | 0 <= i < |items| :: PrimName(RidOf(items[i], i))
    ensures var r := SyncSpec(c, t, JList(items)).0;
            var key := JStr(Tail4(n));
            n in t.prims && (forall i :: 0 <= i < |items| ==> PrimName(RidOf(items[i], i)) != n) ==>
              n !in r.prims && key !in r.ops && key !in r.pos && key !in r.yaw && key !in r.targets
  {
    var steps := Steps(c, items);
    var p := PlacePrefix(t, steps, |items|);
    SyncOfList(c, t, items);
    PlacePrefixSeen(t, steps, |items|);
    PlacePrefixSeenExactly(t, steps, |items|);
    StepNamesListed(c, items);
    var listed := set i | 0 <= i < |items| :: PrimName(RidOf(items[i], i));
    assert p.1 == listed;
    if n in t.prims && (forall i :: 0 <= i < |items| ==> PrimName(RidOf(items[i], i)) != n) {
      assert n in p.0.prims && n !in p.1;
      assert JStr(Tail4(n)) in RemovedKeys(p.0.prims, p.1);
    }
  }

  /** When every item is a dictionary, the names the steps carry are the prim
      names of the items' ids. */
  lemma StepNamesListed(c: Config, items: seq<Json>)
    requires forall i :: 0 <= i < |items| ==> Steps(c, items)[i].Item?
    ensures var steps := Steps(c, items);
            (set i | 0 <= i < |items| && steps[i].Item? :: steps[i].name)
            == set i | 0 <= i < |items| :: PrimName(RidOf(items[i], i))
  {
    var steps := Steps(c, items);
    forall i | 0 <= i < |items|
      ensures steps[i].Item? && steps[i].name == PrimName(RidOf(items[i], i))
    {
      StepsAt(c, items, i);
    }
  }

  /** An empty or missing list removes every prim. */
  lemma EmptySyncClearsScene(c: Config, t: Tables)
    ensures SyncSpec(c, t, JList([])) == (RemovePass(t, {}), true)
    ensures SyncSpec(c, t, JNull).0.prims == {}
  {
  }

  /** The removal quirk: a robot whose id is not its own segment (an integer
      id, or one with characters outside `[A-Za-z0-9_]`) keeps its target and
      its cached ops after its prim is removed, because the cache key popped
      is `name[4:]`, the segment, not the id. */
  lemma RemovalLeavesStaleTarget(c: Config)
    ensures var g := Target(0.0, 0.0, 0.0);
            var t := Tables({PrimName(JInt(7))}, {JInt(7)}, map[], map[], map[JInt(7) := g]);
            var r := SyncSpec(c, t, JList([])).0;
            r.prims == {} && JInt(7) in r.targets && JInt(7) in r.ops
  {
    var t := Tables({PrimName(JInt(7))}, {JInt(7)}, map[], map[], map[JInt(7) := Target(0.0, 0.0, 0.0)]);
    assert RemovedKeys(t.prims, {}) == {JStr(Tail4(PrimName(JInt(7))))};
  }

  // ---------------------------------------------------------------- stepping

  /** `math.hypot` is a parameter: any function that is the Euclidean length. */
  ghost predicate IsEuclidean(norm: (real, real) -> real) {
    forall a: real, b: real :: EuclidAt(norm, a, b)
  }

  ghost predicate EuclidAt(norm: (real, real) -> real, a: real, b: real) {
    norm(a, b) >= 0.0 && norm(a, b) * norm(a, b) == a * a + b * b
  }

  function Min(a: real, b: real): real { if a <= b then a else b }
  function Max(a: real, b: real): real { if a >= b then a else b }

  /** The position step: move `min(step, dist)` along the direction to the
      target (`cos`/`sin` of `atan2(dv, du)` are du/dist and dv/dist, and 1 and
      0 when dist is 0), or snap onto it within `eps`. */
  function StepPos(norm: (real, real) -> real, cur: (real, real), tgt: (real, real), step: real, eps: real): (real, real)
  {
    var du := tgt.0 - cur.0;
    var dv := tgt.1 - cur.1;
    var dist := norm(du, dv);
    if dist > eps then
      var m := Min(step, dist);
      if dist == 0.0 then (cur.0 + m, cur.1)
      else (cur.0 + du / dist * m, cur.1 + dv / dist * m)
    else tgt
  }

  /** The yaw step: turn by the wrapped difference clamped to the turn rate,
      or snap onto the target within `eps`. */
  function StepYaw(cur: real, tgt: real, step: real, eps: real): real {
    var diff := NormDeg(tgt - cur);
    if (if diff < 0.0 then -diff else diff) > eps then cur + Max(-step, Min(step, diff))
    else tgt
  }

  lemma MulPos(x: real, y: real)
    requires x > 0.0 && y > 0.0
    ensures x * y > 0.0
  {
  }

  lemma SqrtUnique(a: real, b: real)
    requires a >= 0.0 && b >= 0.0 && a * a == b * b
    ensures a == b
  {
    if a != b {
      assert b * b - a * a == (b - a) * (b + a);
      if a < b { MulPos(b - a, b + a); } else { MulPos(a - b, b + a); }
    }
  }

  /** Moving `m` of the way along a vector of length `dist` leaves `dist - m`. */
  lemma ScaledLength(du: real, dv: real, dist: real, m: real, rest: real)
    requires dist > 0.0 && dist * dist == du * du + dv * dv && 0.0 <= m <= dist
    requires rest >= 0.0 && rest * rest == ((1.0 - m / dist) * du) * ((1.0 - m / dist) * du)
                                         + ((1.0 - m / dist) * dv) * ((1.0 - m / dist) * dv)
    ensures rest == dist - m
  {
    var g := 1.0 - m / dist;
    assert g * dist == dist - m;
    assert 0.0 <= g by {
      assert m / dist <= 1.0;
    }
    assert rest * rest == (g * dist) * (g * dist);
    SqrtUnique(rest, g * dist);
  }

  lemma NormZero(norm: (real, real) -> real)
    requires IsEuclidean(norm)
    ensures norm(0.0, 0.0) == 0.0
  {
    var z := norm(0.0, 0.0);
    assert EuclidAt(norm, 0.0, 0.0);
    assert z * z == 0.0 * 0.0;
    SqrtUnique(z, 0.0);
  }

  /** What is left of one coordinate's difference after moving `m` of `dist`. */
  lemma Residual(c: real, t: real, dist: real, m: real)
    requires dist != 0.0
    ensures t - (c + (t - c) / dist * m) == (1.0 - m / dist) * (t - c)
  {
  }

  /** A position step with a non-negative step length and snap distance
      never overshoots: the pose moves `min(step, dist)` straight toward the
      target and the remaining distance is `dist - min(step, dist)`; within
      the snap distance it lands exactly on the target. */
  lemma StepPosApproaches(norm: (real, real) -> real, cur: (real, real), tgt: (real, real), step: real, eps: real)
    requires IsEuclidean(norm) && step >= 0.0 && eps >= 0.0
    ensures var dist := norm(tgt.0 - cur.0, tgt.1 - cur.1);
            var nxt := StepPos(norm, cur, tgt, step, eps);
            (dist <= eps ==> nxt == tgt)
            && (dist > eps ==> norm(tgt.0 - nxt.0, tgt.1 - nxt.1) == dist - Min(step, dist))
  {
    var du := tgt.0 - cur.0;
    var dv := tgt.1 - cur.1;
    var dist := norm(du, dv);
    if dist > eps {
      var m := Min(step, dist);
      var f := m / dist;
      var nxt := StepPos(norm, cur, tgt, step, eps);
      assert nxt.0 == cur.0 + du / dist * m && nxt.1 == cur.1 + dv / dist * m;
      var eu := tgt.0 - nxt.0;
      var ev := tgt.1 - nxt.1;
      Residual(cur.0, tgt.0, dist, m);
      Residual(cur.1, tgt.1, dist, m);
      var rest := norm(eu, ev);
      assert EuclidAt(norm, du, dv) && EuclidAt(norm, eu, ev);
      ScaledLength(du, dv, dist, m, rest);
    }
  }

  /** One step of at least the remaining distance, or a remaining distance
      within the snap distance, puts the pose on the target. */
  lemma StepPosArrives(norm: (real, real) -> real, cur: (real, real), tgt: (real, real), step: real, eps: real)
    requires IsEuclidean(norm) && eps >= 0.0
    requires step >= norm(tgt.0 - cur.0, tgt.1 - cur.1)
    ensures var nxt := StepPos(norm, cur, tgt, step, eps);
            norm(tgt.0 - nxt.0, tgt.1 - nxt.1) == 0.0
  {
    var dist := norm(tgt.0 - cur.0, tgt.1 - cur.1);
    assert EuclidAt(norm, tgt.0 - cur.0, tgt.1 - cur.1);
    StepPosApproaches(norm, cur, tgt, step, eps);
    if dist <= eps {
      NormZero(norm);
      assert tgt.0 - tgt.0 == 0.0 && tgt.1 - tgt.1 == 0.0;
    }
  }

  /** The yaw turns the short way: the remaining wrapped difference shrinks by
      exactly the turn step (keeping its sign) while it exceeds the snap angle. */
  lemma StepYawApproaches(cur: real, tgt: real, step: real, eps: real)
    requires step >= 0.0
    ensures var diff := NormDeg(tgt - cur);
            var nxt := StepYaw(cur, tgt, step, eps);
            var adiff := if diff < 0.0 then -diff else diff;
            (adiff <= eps ==> nxt == tgt)
            && (adiff > eps ==> NormDeg(tgt - nxt) == diff - Max(-step, Min(step, diff)))
  {
    var d := tgt - cur;
    var diff := NormDeg(d);
    var adiff := if diff < 0.0 then -diff else diff;
    if adiff > eps {
      var s := Max(-step, Min(step, diff));
      var nxt := cur + s;
      var k := ((d + 180.0) / 360.0).Floor;
      assert diff == d - 360.0 * (k as real);
      assert tgt - nxt == (diff - s) + 360.0 * (k as real);
      NormDegTurns(diff - s, k);
      NormDegFixes(diff - s);
    }
  }

  /** From 170 degrees toward -170 the synchroniser turns +20 degrees through
      180, not -340; the current yaw is not wrapped and reads 190. */
  lemma YawWrapExample()
    ensures NormDeg(-170.0 - 170.0) == 20.0
    ensures StepYaw(170.0, -170.0, 110.0 * 0.1, 0.5) == 181.0
    ensures StepYaw(181.0, -170.0, 110.0 * 0.1, 0.5) == 190.0
  {
    assert ((-340.0 + 180.0) / 360.0).Floor == -1;
    assert NormDeg(-170.0 - 181.0) == 9.0 by {
      assert ((-351.0 + 180.0) / 360.0).Floor == -1;
    }
  }

  /** The pose a robot is drawn at after one frame: current pose (its target
      when not yet cached) stepped toward the target. */
  function Advance(c: Config, norm: (real, real) -> real, t: Tables, rid: Json, stepU: real, stepYaw: real): ((real, real), real)
    requires rid in t.targets
  {
    var g := t.targets[rid];
    var cur := if rid in t.pos then t.pos[rid] else (g.u, g.v);
    var cyaw := if rid in t.yaw then t.yaw[rid] else g.yaw;
    (StepPos(norm, cur, (g.u, g.v), stepU, c.posEps), StepYaw(cyaw, g.yaw, stepYaw, c.yawEps))
  }

  /** Robots `update` moves: those with a target and cached ops. */
  function Moving(t: Tables): set<Json> {
    t.targets.Keys * t.ops
  }

  /** `Advance` for every id; ids without a target get a dummy pose. */
  function AdvanceAny(c: Config, norm: (real, real) -> real, t: Tables, stepU: real, stepYaw: real, rid: Json): ((real, real), real) {
    if rid in t.targets then Advance(c, norm, t, rid, stepU, stepYaw) else ((0.0, 0.0), 0.0)
  }

  /** The new position and the new yaw of every id, as functions. */
  function PosStep(c: Config, norm: (real, real) -> real, t: Tables, stepU: real, stepYaw: real): Json -> (real, real) {
    (k: Json) => AdvanceAny(c, norm, t, stepU, stepYaw, k).0
  }

  function YawStep(c: Config, norm: (real, real) -> real, t: Tables, stepU: real, stepYaw: real): Json -> real {
    (k: Json) => AdvanceAny(c, norm, t, stepU, stepYaw, k).1
  }

  /** `base` with the entries of `keys` replaced (or added) by `f`. */
  function Overlay<V>(base: map<Json, V>, keys: set<Json>, f: Json -> V): map<Json, V> {
    map k | k in base.Keys + keys :: if k in keys then f(k) else base[k]
  }

  lemma OverlayAt<V>(base: map<Json, V>, keys: set<Json>, f: Json -> V)
    ensures var r := Overlay(base, keys, f);
            r.Keys == base.Keys + keys
            && (forall k :: k in keys ==> r[k] == f(k))
            && (forall k :: k in base && k !in keys ==> r[k] == base[k])
  {
  }

  lemma OverlayAdd<V>(base: map<Json, V>, keys: set<Json>, f: Json -> V, k: Json)
    ensures Overlay(base, keys + {k}, f) == Overlay(base, keys, f)[k := f(k)]
  {
  }

  lemma OverlayNone<V>(base: map<Json, V>, f: Json -> V)
    ensures Overlay(base, {}, f) == base
  {
  }

  /** `update`'s effect on the pose caches: every moving robot advances. */
  function Frame(c: Config, norm: (real, real) -> real, t: Tables, stepU: real, stepYaw: real): Tables {
    t.(pos := Overlay(t.pos, Moving(t), PosStep(c, norm, t, stepU, stepYaw)),
       yaw := Overlay(t.yaw, Moving(t), YawStep(c, norm, t, stepU, stepYaw)))
  }

  /** A frame moves exactly the robots with a target and cached ops, each by
      `Advance`; every other cache entry and table is unchanged. */
  lemma FrameFacts(c: Config, norm: (real, real) -> real, t: Tables, stepU: real, stepYaw: real)
    ensures var r := Frame(c, norm, t, stepU, stepYaw);
            r.prims == t.prims && r.ops == t.ops && r.targets == t.targets
            && r.pos.Keys == t.pos.Keys + Moving(t) && r.yaw.Keys == t.yaw.Keys + Moving(t)
            && (forall rid :: rid in Moving(t) ==> (r.pos[rid], r.yaw[rid]) == Advance(c, norm, t, rid, stepU, stepYaw))
            && (forall rid :: rid in t.pos && rid !in Moving(t) ==> r.pos[rid] == t.pos[rid])
            && (forall rid :: rid in t.yaw && rid !in Moving(t) ==> r.yaw[rid] == t.yaw[rid])
  {
    OverlayAt(t.pos, Moving(t), PosStep(c, norm, t, stepU, stepYaw));
    OverlayAt(t.yaw, Moving(t), YawStep(c, norm, t, stepU, stepYaw));
  }

  /** A frame of `d` seconds: the speeds in units per second and degrees per
      second give the step lengths. */
  function FrameAfter(c: Config, norm: (real, real) -> real, t: Tables, d: real): Tables {
    Frame(c, norm, t, StepU(c, d), StepDeg(c, d))
  }

  /** The distance in stage units and the angle in degrees covered in `d` seconds. */
  function StepU(c: Config, d: real): real { c.moveSpeed * c.mmToUnits * d }
  function StepDeg(c: Config, d: real): real { c.yawSpeed * d }

  /** An uncached robot starts at its target, so its first frame draws it
      exactly there. */
  lemma FirstFrameAtTarget(c: Config, norm: (real, real) -> real, t: Tables, rid: Json, stepU: real, stepYaw: real)
    requires IsEuclidean(norm) && c.posEps >= 0.0 && c.yawEps >= 0.0
    requires rid in Moving(t) && rid !in t.pos && rid !in t.yaw
    ensures var g := t.targets[rid];
            var r := Frame(c, norm, t, stepU, stepYaw);
            r.pos[rid] == (g.u, g.v) && r.yaw[rid] == g.yaw
  {
    var g := t.targets[rid];
    FrameFacts(c, norm, t, stepU, stepYaw);
    NormZero(norm);
    assert g.u - g.u == 0.0 && g.v - g.v == 0.0;
    NormDegFixes(0.0);
    assert g.yaw - g.yaw == 0.0;
  }

  /** `update`'s step sizes: an omitted frame time is the time since the last
      tick clamped into [0, 0.1]; a given one is used as it is. */
  function FrameTime(now: real, lastTick: real, dt: Option<real>): (d: real)
    ensures dt.None? ==> 0.0 <= d <= 0.1
    ensures dt.None? && 0.0 <= now - lastTick <= 0.1 ==> d == now - lastTick
    ensures dt.Some? ==> d == dt.value
  {
    match dt
    case Some(d) => d
    case None => Max(0.0, Min(0.1, now - lastTick))
  }

  // ---------------------------------------------------------------- the class

  class Synchroniser {
    const cfg: Config
    var tables: Tables
    var lastTick: real

    ghost predicate Valid()
      reads this
    {
      ValidTables(tables)
    }

    constructor (cfg: Config, now: real)
      ensures Valid() && this.cfg == cfg && lastTick == now
      ensures tables == Tables({}, {}, map[], map[], map[])
    {
      this.cfg := cfg;
      tables := Tables({}, {}, map[], map[], map[]);
      lastTick := now;
    }

    /** `sync(items)`; `ok` is false where the source raises. */
    method Sync(items: Json) returns (ok: bool)
      requires Valid()
      modifies this
      ensures Valid()
      ensures (tables, ok) == SyncSpec(cfg, old(tables), items)
      ensures lastTick == old(lastTick)
    {
      if !Truthy(items) {
        RemoveUnseen({});
        return true;
      }
      if !items.JList? {
        return false;
      }
      var seen;
      seen, ok := PlaceAll(items.items);
      if ok {
        RemoveUnseen(seen);
      }
    }

    /** The item loop of `sync`: stops at the first item that raises. */
    method PlaceAll(list: seq<Json>) returns (seen: set<string>, ok: bool)
      requires Valid()
      modifies this
      ensures Valid()
      ensures (tables, seen, ok) == PlacePrefix(old(tables), Steps(cfg, list), |list|)
      ensures lastTick == old(lastTick)
    {
      ghost var steps := Steps(cfg, list);
      var t := tables;
      seen := {};
      var i := 0;
      ok := true;
      while i < |list| && ok
        invariant 0 <= i <= |list|
        invariant PlacePrefix(old(tables), steps, i) == (t, seen, ok)
        invariant lastTick == old(lastTick)
      {
        var s := ReadItem(list, i);
        var r := Place(t, s);
        t := r.0;
        ok := r.1;
        if ok {
          seen := seen + {s.name};
        }
        i := i + 1;
      }
      if !ok {
        PlacePrefixUnchangedAfterFailure(old(tables), steps, i);
      }
      StepsWellNamed(cfg, list);
      PlacePrefixValid(old(tables), steps, i);
      tables := t;
    }

    /** The id, prim name and target of item `i`. */
    method ReadItem(list: seq<Json>, i: nat) returns (s: Step)
      requires i < |list|
      ensures s == Steps(cfg, list)[i]
    {
      s := StepOf(cfg, list[i], i);
      StepsAt(cfg, list, i);
    }

    /** The removal pass over the children not seen. */
    method RemoveUnseen(seen: set<string>)
      requires Valid()
      modifies this
      ensures Valid()
      ensures tables == RemovePass(old(tables), seen)
      ensures lastTick == old(lastTick)
    {
      ghost var t0 := tables;
      var todo := tables.prims - seen;
      ghost var done: set<string> := {};
      while todo != {}
        invariant todo + done == t0.prims - seen && todo !! done
        invariant tables == Dropped(t0, done)
        invariant ValidTables(tables)
        invariant lastTick == old(lastTick)
        decreases todo
      {
        var child :| child in todo;
        var key := JStr(Tail4(child));
        tables := Tables(tables.prims - {child}, tables.ops - {key}, tables.pos - {key},
                         tables.yaw - {key}, tables.targets - {key});
        todo := todo - {child};
        DroppedAdd(t0, done, child);
        done := done + {child};
      }
      assert t0.prims - done == t0.prims * seen;
      assert RemovedKeys(done, {}) == RemovedKeys(t0.prims, seen);
    }

    /** `update(dt)` at time `now`. */
    method Update(now: real, dt: Option<real>, norm: (real, real) -> real)
      modifies this
      ensures old(tables.targets) == map[] ==> tables == old(tables)
      ensures old(tables.targets) != map[] ==>
                tables == FrameAfter(cfg, norm, old(tables), FrameTime(now, old(lastTick), dt))
      ensures lastTick == now
      ensures Valid() <==> old(Valid())
    {
      if tables.targets == map[] {
        lastTick := now;
        return;
      }
      var d := FrameTime(now, lastTick, dt);
      lastTick := now;
      StepAll(d, norm);
    }

    /** The loop of `update` over the robots with a target: each one with
        cached ops moves one step. */
    method StepAll(d: real, norm: (real, real) -> real)
      modifies this
      ensures tables == FrameAfter(cfg, norm, old(tables), d)
      ensures lastTick == old(lastTick)
    {
      var stepU := StepU(cfg, d);
      var stepYaw := StepDeg(cfg, d);
      var t0 := tables;
      var fp := PosStep(cfg, norm, t0, stepU, stepYaw);
      var fy := YawStep(cfg, norm, t0, stepU, stepYaw);
      var pos := t0.pos;
      var yaw := t0.yaw;
      var todo := t0.targets.Keys;
      ghost var done: set<Json> := {};
      OverlayNone(t0.pos, fp);
      OverlayNone(t0.yaw, fy);
      while todo != {}
        invariant todo + done == t0.targets.Keys && todo !! done
        invariant pos == Overlay(t0.pos, done * t0.ops, fp)
        invariant yaw == Overlay(t0.yaw, done * t0.ops, fy)
        invariant lastTick == old(lastTick)
        decreases todo
      {
        var rid :| rid in todo;
        if rid in t0.ops {
          OverlayAdd(t0.pos, done * t0.ops, fp, rid);
          OverlayAdd(t0.yaw, done * t0.ops, fy, rid);
          assert (done + {rid}) * t0.ops == done * t0.ops + {rid};
          pos := pos[rid := fp(rid)];
          yaw := yaw[rid := fy(rid)];
        } else {
          assert (done + {rid}) * t0.ops == done * t0.ops;
        }
        todo := todo - {rid};
        done := done + {rid};
      }
      assert done * t0.ops == Moving(t0);
      assert pos == Overlay(t0.pos, Moving(t0), fp);
      assert yaw == Overlay(t0.yaw, Moving(t0), fy);
      tables := t0.(pos := pos, yaw := yaw);
    }
  }

  lemma RemovedKeysAdd(done: set<string>, child: string)
    ensures RemovedKeys(done + {child}, {}) == RemovedKeys(done, {}) + {JStr(Tail4(child))}
  {
  }

  /** The tables once the children in `done` and their cache entries are gone. */
  function Dropped(t: Tables, done: set<string>): Tables {
    var keys := RemovedKeys(done, {});
    Tables(t.prims - done, t.ops - keys, t.pos - keys, t.yaw - keys, t.targets - keys)
  }

  /** Dropping one more child is one more removal from each table. */
  lemma DroppedAdd(t: Tables, done: set<string>, child: string)
    ensures var d := Dropped(t, done);
            var key := JStr(Tail4(child));
            Dropped(t, done + {child})
              == Tables(d.prims - {child}, d.ops - {key}, d.pos - {key}, d.yaw - {key}, d.targets - {key})
  {
    RemovedKeysAdd(done, child);
  }

  lemma {:induction false} PlacePrefixUnchangedAfterFailure(t: Tables, steps: seq<Step>, n: nat)
    requires n <= |steps| && !PlacePrefix(t, steps, n).2
    ensures PlacePrefix(t, steps, |steps|) == PlacePrefix(t, steps, n)
    decreases |steps| - n
  {
    if n < |steps| {
      PlacePrefixUnchangedAfterFailure(t, steps, n + 1);
    }
  }
}
