/** The AMR command panel: the id dropdown (sorted options, a selection
    that survives refreshes), the command list with its read-only matrix,
    node-code clean-up and the dispatch payload. */
module AmrControl {
  import opened PyText
  import opened PyJson

  // ---------------------------------------------------------------- id sort

  /** `keyf`: integer text sorts by its value before every other id, which
      sorts by its stripped text. */
  datatype SortKey = Num(n: nat) | Word(t: string)

  function KeyOf(s: string): SortKey {
    var t := Strip(s);
    if IsDigits(t) then Num(DigitsValue(t)) else Word(t)
  }

  /** Python's tuple order on `(0, int)` / `(1, str)` keys. */
  predicate KeyLess(a: SortKey, b: SortKey) {
    match (a, b)
    case (Num(m), Num(n)) => m < n
    case (Num(_), Word(_)) => true
    case (Word(_), Num(_)) => false
    case (Word(s), Word(t)) => Less(s, t)
  }

  lemma KeyLessIrreflexive(a: SortKey)
    ensures !KeyLess(a, a)
  {
    if a.Word? { LessIrreflexive(a.t); }
  }

  lemma KeyLessTransitive(a: SortKey, b: SortKey, c: SortKey)
    requires KeyLess(a, b) && KeyLess(b, c)
    ensures KeyLess(a, c)
  {
    if a.Word? && b.Word? && c.Word? { LessTransitive(a.t, b.t, c.t); }
  }

  lemma KeyLessTotal(a: SortKey, b: SortKey)
    ensures a == b || KeyLess(a, b) || KeyLess(b, a)
  {
    if a.Word? && b.Word? { LessTotal(a.t, b.t); }
  }

  /** Ordered by key; ids with equal keys may come in either order. */
  predicate SortedByKey(xs: seq<string>, key: string -> SortKey) {
    forall i, j :: 0 <= i < j < |xs| ==> !KeyLess(key(xs[j]), key(xs[i]))
  }

  predicate Distinct(xs: seq<string>) {
    forall i, j :: 0 <= i < j < |xs| ==> xs[i] != xs[j]
  }

  /** `set(ids)` in order of first occurrence. */
  function Dedup(ids: seq<string>): seq<string> {
    if ids == [] then []
    else
      var pre := Dedup(ids[..|ids| - 1]);
      if ids[|ids| - 1] in pre then pre else pre + [ids[|ids| - 1]]
  }

  lemma {:induction false} DedupFacts(ids: seq<string>)
    ensures Distinct(Dedup(ids))
    ensures forall x :: x in Dedup(ids) <==> x in ids
  {
    if ids != [] {
      var pre := ids[..|ids| - 1];
      DedupFacts(pre);
      assert ids == pre + [ids[|ids| - 1]];
    }
  }

  /** Where `x` goes in a sorted list: before the first id with a larger key. */
  function InsertPos(x: string, xs: seq<string>, key: string -> SortKey): (k: nat)
    ensures k <= |xs|
    ensures forall i :: 0 <= i < k ==> !KeyLess(key(x), key(xs[i]))
    ensures k < |xs| ==> KeyLess(key(x), key(xs[k]))
  {
    if xs == [] || KeyLess(key(x), key(xs[0])) then 0
    else
      var k := InsertPos(x, xs[1..], key);
      assert forall i :: 1 <= i < k + 1 ==> xs[i] == xs[1..][i - 1];
      k + 1
  }

  function InsertSorted(x: string, xs: seq<string>, key: string -> SortKey): seq<string> {
    var k := InsertPos(x, xs, key);
    xs[..k] + [x] + xs[k..]
  }

  lemma InsertSortedFacts(x: string, xs: seq<string>, key: string -> SortKey)
    requires SortedByKey(xs, key)
    ensures SortedByKey(InsertSorted(x, xs, key), key)
    ensures multiset(InsertSorted(x, xs, key)) == multiset(xs) + multiset{x}
  {
    var k := InsertPos(x, xs, key);
    InsertSortedSorted(x, xs, key, k);
    assert xs == xs[..k] + xs[k..];
  }

  lemma InsertSortedSorted(x: string, xs: seq<string>, key: string -> SortKey, k: nat)
    requires SortedByKey(xs, key) && k == InsertPos(x, xs, key)
    ensures SortedByKey(xs[..k] + [x] + xs[k..], key)
  {
    var r := xs[..k] + [x] + xs[k..];
    forall i, j | 0 <= i < j < |r|
      ensures !KeyLess(key(r[j]), key(r[i]))
    {
      if j < k {
        assert r[i] == xs[i] && r[j] == xs[j];
      } else if j == k {
        assert r[i] == xs[i] && r[j] == x;
      } else if i < k {
        assert r[i] == xs[i] && r[j] == xs[j - 1];
      } else if i == k {
        assert r[j] == xs[j - 1];
        KeyLessBehind(x, xs, key, k, j - 1);
      } else {
        assert r[i] == xs[i - 1] && r[j] == xs[j - 1];
      }
    }
  }

  lemma KeyLessAsym(a: SortKey, b: SortKey)
    requires KeyLess(a, b)
    ensures !KeyLess(b, a)
  {
    if a.Word? && b.Word? { LessAsymmetric(a.t, b.t); }
  }

  /** Every id from the insertion point on has a key above `x`'s. */
  lemma KeyLessBehind(x: string, xs: seq<string>, key: string -> SortKey, k: nat, j: nat)
    requires SortedByKey(xs, key) && k <= j < |xs| && k < |xs| && KeyLess(key(x), key(xs[k]))
    ensures !KeyLess(key(xs[j]), key(x))
  {
    if j > k {
      KeyLessTotal(key(xs[k]), key(xs[j]));
      if key(xs[k]) != key(xs[j]) {
        KeyLessTransitive(key(x), key(xs[k]), key(xs[j]));
      }
    }
    KeyLessAsym(key(x), key(xs[j]));
  }

  /** A stable insertion sort by key. */
  function SortByKey(xs: seq<string>, key: string -> SortKey): seq<string> {
    if xs == [] then [] else InsertSorted(xs[|xs| - 1], SortByKey(xs[..|xs| - 1], key), key)
  }

  lemma {:induction false} SortByKeyFacts(xs: seq<string>, key: string -> SortKey)
    ensures SortedByKey(SortByKey(xs, key), key)
    ensures multiset(SortByKey(xs, key)) == multiset(xs)
  {
    if xs != [] {
      var pre := xs[..|xs| - 1];
      SortByKeyFacts(pre, key);
      InsertSortedFacts(xs[|xs| - 1], SortByKey(pre, key), key);
      assert xs == pre + [xs[|xs| - 1]];
    }
  }

  /** `_numeric_sort(ids)`: `sorted(set(ids), key=keyf)`. */
  function NumericSort(ids: seq<string>): seq<string> {
    SortByKey(Dedup(ids), KeyOf)
  }

  lemma DistinctOfMultiset(a: seq<string>, b: seq<string>)
    requires Distinct(a) && multiset(a) == multiset(b)
    ensures Distinct(b)
  {
    forall i, j | 0 <= i < j < |b|
      ensures b[i] != b[j]
    {
      if b[i] == b[j] {
        assert b == b[..i] + [b[i]] + b[i + 1..j] + [b[j]] + b[j + 1..];
        assert multiset(b)[b[i]] >= 2;
        DistinctCount(a, b[i]);
      }
    }
  }

  lemma {:induction false} DistinctCount(a: seq<string>, x: string)
    requires Distinct(a)
    ensures multiset(a)[x] <= 1
  {
    if a != [] {
      var pre := a[..|a| - 1];
      assert a == pre + [a[|a| - 1]];
      DistinctCount(pre, x);
      if x == a[|a| - 1] {
        assert x !in pre;
      }
    }
  }

  /** Sorting the distinct ids by any key gives each input id once, in key
      order. */
  lemma SortDistinctSpec(ids: seq<string>, key: string -> SortKey)
    ensures var r := SortByKey(Dedup(ids), key);
            SortedByKey(r, key) && Distinct(r) && (forall x :: x in r <==> x in ids)
  {
    var r := SortByKey(Dedup(ids), key);
    DedupFacts(ids);
    SortByKeyFacts(Dedup(ids), key);
    DistinctOfMultiset(Dedup(ids), r);
    forall x
      ensures x in r <==> x in ids
    {
      assert x in r <==> x in multiset(r);
      assert x in Dedup(ids) <==> x in multiset(Dedup(ids));
    }
  }

  /** The sorted ids are the distinct input ids, each once, ordered by key. */
  lemma NumericSortSpec(ids: seq<string>)
    ensures var r := NumericSort(ids);
            SortedByKey(r, KeyOf) && Distinct(r) && (forall x :: x in r <==> x in ids)
  {
    SortDistinctSpec(ids, KeyOf);
  }

  /** Integer ids come first, in numeric order; the others follow in text
      order. */
  lemma NumericIdsFirst(ids: seq<string>, i: nat, j: nat)
    requires i < j < |NumericSort(ids)|
    ensures var r := NumericSort(ids);
            (IsDigits(Strip(r[j])) ==> IsDigits(Strip(r[i])) && DigitsValue(Strip(r[i])) <= DigitsValue(Strip(r[j])))
            && (!IsDigits(Strip(r[i])) ==> !IsDigits(Strip(r[j])) && !Less(Strip(r[j]), Strip(r[i])))
  {
    NumericSortSpec(ids);
  }

  // ---------------------------------------------------------------- id list

  /** `str(it.get("robotId") or it.get("amrId") or it.get("id") or "").strip()`
      for an item (a falsy item reads as `{}`). */
  function IdOfItem(it: Json): string {
    Strip(Str(Or(Or(Or(Get(it, "robotId"), Get(it, "amrId")), Get(it, "id")), JStr(""))))
  }

  /** What `update_amr_list` iterates: a dict's values, a list's items,
      nothing for a falsy value. */
  function Source(items: Json): seq<Json> {
    if items.JObj? then Values(items.fields) else if items.JList? then items.items else []
  }

  function Values(fields: seq<(string, Json)>): (r: seq<Json>)
    ensures |r| == |fields|
  {
    if fields == [] then [] else Values(fields[..|fields| - 1]) + [fields[|fields| - 1].1]
  }

  /** The items `it.get` can be called on: dicts, and falsy values (read as `{}`). */
  predicate ReadableItems(items: Json) {
    (items.JObj? || items.JList? || !Truthy(items))
    && forall i :: 0 <= i < |Source(items)| ==> Source(items)[i].JObj? || !Truthy(Source(items)[i])
  }

  /** The non-blank values of `f` on the first `n` items, in order. */
  function Collect(src: seq<Json>, n: nat, f: Json -> string): seq<string>
    requires n <= |src|
  {
    if n == 0 then []
    else Collect(src, n - 1, f) + (if f(src[n - 1]) != "" then [f(src[n - 1])] else [])
  }

  lemma {:induction false} CollectNonBlank(src: seq<Json>, n: nat, f: Json -> string)
    requires n <= |src|
    ensures forall x :: x in Collect(src, n, f) ==> x != ""
  {
    if n > 0 {
      CollectNonBlank(src, n - 1, f);
    }
  }

  /** The non-blank ids of the first `n` items, in order. */
  function RawIds(src: seq<Json>, n: nat): (r: seq<string>)
    requires n <= |src|
  {
    Collect(src, n, IdOfItem)
  }

  /** The dropdown options: the sorted ids, or `["-"]` when there is none. */
  function OptionsOf(items: Json): (r: seq<string>)
    ensures r != []
  {
    var src := Source(items);
    var ids := NumericSort(RawIds(src, |src|));
    if ids == [] then ["-"] else ids
  }

  /** The options are exactly the non-blank ids, each once and in key order,
      or the lone `"-"`. */
  lemma OptionsSpec(items: Json)
    ensures var src := Source(items);
            var raw := RawIds(src, |src|);
            var r := OptionsOf(items);
            (raw == [] ==> r == ["-"])
            && (raw != [] ==> SortedByKey(r, KeyOf) && Distinct(r) && (forall x :: x in r <==> x in raw))
  {
    var src := Source(items);
    var raw := RawIds(src, |src|);
    NumericSortSpec(raw);
    if raw != [] {
      assert raw[0] in NumericSort(raw);
    }
  }

  /** `_index_of(rid)`: the first position of a non-empty `rid`, else 0. */
  function IndexOf(ids: seq<string>, rid: string): (k: nat)
    ensures rid != "" && rid in ids ==> k < |ids| && ids[k] == rid && rid !in ids[..k]
    ensures !(rid != "" && rid in ids) ==> k == 0
  {
    if rid != "" && rid in ids then FirstIndex(ids, rid) else 0
  }

  function FirstIndex(ids: seq<string>, x: string): (k: nat)
    requires x in ids
    ensures k < |ids| && ids[k] == x && x !in ids[..k]
  {
    if ids[0] == x then 0
    else
      var k := FirstIndex(ids[1..], x);
      assert ids[..k + 1] == [ids[0]] + ids[1..][..k];
      k + 1
  }

  /** `_sync_selected_string`: the option at the index, "-" out of range. */
  function SelectedText(ids: seq<string>, idx: int): string {
    if 0 <= idx < |ids| then ids[idx] else "-"
  }

  /** `(self._amr_id_str.as_string or "-").strip()` */
  function PrevId(s: string): string {
    Strip(if s == "" then "-" else s)
  }

  /** After a refresh the selection is the previous id when it is still an
      option, and the first option otherwise. */
  lemma SelectionKept(items: Json, prev: string)
    ensures var ids := OptionsOf(items);
            var p := PrevId(prev);
            SelectedText(ids, IndexOf(ids, p)) == (if p != "" && p in ids then p else ids[0])
  {
  }

  // ---------------------------------------------------------------- commands

  const Commands: seq<string> := ["Move", "Rack Move", "Pause", "Resume", "Cancel"]

  /** `_COMMANDS[i]`, with Python's negative indices; `None` is the
      `IndexError`. */
  function CommandAt(i: int): (r: Option<string>)
    ensures r.Some? <==> -|Commands| <= i < |Commands|
  {
    if 0 <= i < |Commands| then Some(Commands[i])
    else if -|Commands| <= i < 0 then Some(Commands[|Commands| + i])
    else None
  }

  /** `_DATATYPE_MAP.get(cmd, "ManualMove")` */
  function DataTypeOf(cmd: string): string {
    if cmd == "Move" then "ManualMove"
    else if cmd == "Rack Move" then "ManualRackMove"
    else if cmd == "Pause" then "AMRPause"
    else if cmd == "Resume" then "AMRResume"
    else if cmd == "Cancel" then "MissionCancel"
    else "ManualMove"
  }

  /** Each listed command has its own data type; anything else is sent as
      a manual move. */
  lemma DataTypesDistinct(i: nat, j: nat)
    requires i < j < |Commands|
    ensures DataTypeOf(Commands[i]) != DataTypeOf(Commands[j])
  {
  }

  lemma UnknownCommandIsMove(cmd: string)
    requires cmd !in Commands
    ensures DataTypeOf(cmd) == "ManualMove"
  {
  }

  /** Which of the container, node and mission fields are read-only. */
  datatype ReadOnly = ReadOnly(container: bool, node: bool, mission: bool)

  /** The read-only matrix of `_refresh_fields`. */
  function ReadOnlyFor(cmd: string): ReadOnly {
    if cmd == "Move" then ReadOnly(true, false, true)
    else if cmd == "Rack Move" then ReadOnly(false, false, true)
    else if cmd == "Pause" || cmd == "Resume" then ReadOnly(true, true, true)
    else ReadOnly(true, true, false)
  }

  /** A field is editable exactly when the command's data type can send it. */
  lemma EditableIffSent(cmd: string)
    requires cmd in Commands
    ensures var ro := ReadOnlyFor(cmd);
            var dt := DataTypeOf(cmd);
            (!ro.node <==> dt == "ManualMove" || dt == "ManualRackMove")
            && (!ro.container <==> dt == "ManualRackMove")
            && (!ro.mission <==> dt == "MissionCancel")
  {
  }

  // ---------------------------------------------------------------- node code

  /** `_canon_node(s)`: stripped, upper-cased, spaces removed, a leading "."
      turned into "_". */
  function CanonNode(s: string): string {
    DotFix(ReplaceChar(Upper(Strip(s)), ' ', ""))
  }

  /** A leading "." becomes "_". */
  function DotFix(v: string): string {
    if StartsWith(v, ".") then "_" + v[1..] else v
  }

  lemma {:induction false} ReplaceCharLast(s: string, c: char)
    requires s != [] && s[|s| - 1] != c
    ensures var r := ReplaceChar(s, c, "");
            r != [] && r[|r| - 1] == s[|s| - 1]
  {
    if |s| > 1 {
      ReplaceCharLast(s[1..], c);
    }
  }

  lemma UpperNoLower(s: string)
    ensures forall i :: 0 <= i < |Upper(s)| ==> !IsLowerChar(Upper(s)[i])
  {
  }

  lemma UpperNotSpace(c: char)
    requires !IsSpace(c)
    ensures !IsSpace(UpperChar(c)) && UpperChar(c) != ' '
  {
  }

  /** Upper-casing and dropping spaces from a text without edge whitespace
      leaves no space, no lower-case letter and no edge whitespace. */
  lemma SpacesDropped(t: string)
    requires t == [] || (!IsSpace(t[0]) && !IsSpace(t[|t| - 1]))
    ensures var v := ReplaceChar(Upper(t), ' ', "");
            ' ' !in v && (forall i :: 0 <= i < |v| ==> !IsLowerChar(v[i]))
            && (v != [] ==> !IsSpace(v[0]) && !IsSpace(v[|v| - 1]))
  {
    var u := Upper(t);
    var v := ReplaceChar(u, ' ', "");
    UpperNoLower(t);
    ReplaceCharFacts(u, ' ', "");
    forall i | 0 <= i < |v| ensures !IsLowerChar(v[i]) {
      assert v[i] in u;
    }
    if t != [] {
      UpperNotSpace(t[0]);
      UpperNotSpace(t[|t| - 1]);
      ReplaceCharLast(u, ' ');
    }
  }

  /** Clean node shape: no space, no lower-case letter, no leading "." and
      no whitespace at either end. */
  predicate CleanNode(r: string) {
    ' ' !in r && (forall i :: 0 <= i < |r| ==> !IsLowerChar(r[i]))
    && (r != [] ==> r[0] != '.' && !IsSpace(r[0]) && !IsSpace(r[|r| - 1]))
  }

  lemma DotFixClean(v: string)
    requires ' ' !in v && (forall i :: 0 <= i < |v| ==> !IsLowerChar(v[i]))
    requires v != [] ==> !IsSpace(v[0]) && !IsSpace(v[|v| - 1])
    ensures CleanNode(DotFix(v))
  {
    if StartsWith(v, ".") {
      var r := "_" + v[1..];
      assert forall i :: 1 <= i < |r| ==> r[i] == v[i];
    }
  }

  /** The clean node code has the clean shape. */
  lemma CanonNodeShape(s: string)
    ensures CleanNode(CanonNode(s))
  {
    SpacesDropped(Strip(s));
    DotFixClean(ReplaceChar(Upper(Strip(s)), ' ', ""));
  }

  /** A node code of the clean shape is its own clean form. */
  lemma CleanNodeFixed(r: string)
    requires CleanNode(r)
    ensures CanonNode(r) == r
  {
    StripNoEdgeSpace(r);
    assert Upper(r) == r by {
      forall i | 0 <= i < |r| ensures Upper(r)[i] == r[i] {
      }
    }
    ReplaceCharAbsent(r, ' ', "");
  }

  /** Cleaning a clean node code changes nothing. */
  lemma CanonNodeIdempotent(s: string)
    ensures CanonNode(CanonNode(s)) == CanonNode(s)
  {
    CanonNodeShape(s);
    CleanNodeFixed(CanonNode(s));
  }

  // ---------------------------------------------------------------- dispatch

  type Fields = seq<(string, Json)>

  /** The payload `_on_dispatch` posts, for a data type and the cleaned
      AMR id, container, node and mission texts. Each optional key is new
      when it is assigned, so assigning it appends it. */
  function Payload(dt: string, mapCode: string, amrId: string, cont: string, nd: string, ms: string): Fields {
    var base := [("dataType", JStr(dt)), ("mapCode", JStr(mapCode)), ("amrId", JStr(amrId))];
    if dt == "ManualMove" then
      base + (if nd != "" then [("targetNodeCode", JStr(nd))] else [])
    else if dt == "ManualRackMove" then
      base + (if cont != "" then [("containerCode", JStr(cont))] else [])
           + (if nd != "" then [("targetNodeCode", JStr(nd))] else [])
    else if dt == "MissionCancel" then
      base + (if ms != "" then [("cancelMissionCode", JStr(ms))] else [])
    else base
  }

  /** `_on_dispatch` on the raw widget texts. */
  function PayloadOf(mapCode: string, amrIdText: string, cmd: string,
                     container: string, node: string, mission: string): Fields
  {
    Payload(DataTypeOf(cmd), mapCode, Strip(amrIdText), Strip(container), CanonNode(node), Strip(mission))
  }

  /** The payload starts with the data type, the map code and the AMR id,
      and every later key is one of the three optional ones. */
  lemma PayloadBase(dt: string, mapCode: string, amrId: string, cont: string, nd: string, ms: string)
    ensures var p := Payload(dt, mapCode, amrId, cont, nd, ms);
            |p| >= 3 && p[..3] == [("dataType", JStr(dt)), ("mapCode", JStr(mapCode)), ("amrId", JStr(amrId))]
            && (forall i :: 3 <= i < |p| ==> p[i].0 in {"targetNodeCode", "containerCode", "cancelMissionCode"})
  {
  }

  /** The target node is sent exactly for the two move types and a
      non-empty node. */
  lemma PayloadNode(dt: string, mapCode: string, amrId: string, cont: string, nd: string, ms: string)
    ensures var p := Payload(dt, mapCode, amrId, cont, nd, ms);
            (exists i :: 3 <= i < |p| && p[i].0 == "targetNodeCode") <==>
              (dt == "ManualMove" || dt == "ManualRackMove") && nd != ""
    ensures var p := Payload(dt, mapCode, amrId, cont, nd, ms);
            forall i :: 3 <= i < |p| && p[i].0 == "targetNodeCode" ==> p[i].1 == JStr(nd)
  {
    var p := Payload(dt, mapCode, amrId, cont, nd, ms);
    if (dt == "ManualMove" || dt == "ManualRackMove") && nd != "" {
      assert p[|p| - 1].0 == "targetNodeCode";
    }
  }

  /** The container is sent exactly for a rack move with a non-empty
      container. */
  lemma PayloadContainer(dt: string, mapCode: string, amrId: string, cont: string, nd: string, ms: string)
    ensures var p := Payload(dt, mapCode, amrId, cont, nd, ms);
            (exists i :: 3 <= i < |p| && p[i].0 == "containerCode") <==> dt == "ManualRackMove" && cont != ""
    ensures var p := Payload(dt, mapCode, amrId, cont, nd, ms);
            forall i :: 3 <= i < |p| && p[i].0 == "containerCode" ==> p[i].1 == JStr(cont)
  {
    var p := Payload(dt, mapCode, amrId, cont, nd, ms);
    if dt == "ManualRackMove" && cont != "" {
      assert p[3].0 == "containerCode";
    }
  }

  /** The mission to cancel is sent exactly for a cancel with a non-empty
      mission code. */
  lemma PayloadMission(dt: string, mapCode: string, amrId: string, cont: string, nd: string, ms: string)
    ensures var p := Payload(dt, mapCode, amrId, cont, nd, ms);
            (exists i :: 3 <= i < |p| && p[i].0 == "cancelMissionCode") <==> dt == "MissionCancel" && ms != ""
    ensures var p := Payload(dt, mapCode, amrId, cont, nd, ms);
            forall i :: 3 <= i < |p| && p[i].0 == "cancelMissionCode" ==> p[i].1 == JStr(ms)
  {
    var p := Payload(dt, mapCode, amrId, cont, nd, ms);
    if dt == "MissionCancel" && ms != "" {
      assert p[3].0 == "cancelMissionCode";
    }
  }

  /** Pause and Resume send only the three fixed keys. */
  lemma PauseResumeBare(mapCode: string, amrIdText: string, cmd: string,
                        container: string, node: string, mission: string)
    requires cmd == "Pause" || cmd == "Resume"
    ensures |PayloadOf(mapCode, amrIdText, cmd, container, node, mission)| == 3
  {
  }

  /** A key beyond the fixed three is always one whose field is editable for
      the command. */
  lemma OptionalKeysEditable(mapCode: string, amrIdText: string, cmd: string,
                             container: string, node: string, mission: string, i: nat)
    requires cmd in Commands
    requires 3 <= i < |PayloadOf(mapCode, amrIdText, cmd, container, node, mission)|
    ensures var k := PayloadOf(mapCode, amrIdText, cmd, container, node, mission)[i].0;
            var ro := ReadOnlyFor(cmd);
            (k == "targetNodeCode" ==> !ro.node) && (k == "containerCode" ==> !ro.container)
            && (k == "cancelMissionCode" ==> !ro.mission)
  {
    var dt := DataTypeOf(cmd);
    var cont, nd, ms := Strip(container), CanonNode(node), Strip(mission);
    var p := Payload(dt, mapCode, Strip(amrIdText), cont, nd, ms);
    PayloadNode(dt, mapCode, Strip(amrIdText), cont, nd, ms);
    PayloadContainer(dt, mapCode, Strip(amrIdText), cont, nd, ms);
    PayloadMission(dt, mapCode, Strip(amrIdText), cont, nd, ms);
    EditableIffSent(cmd);
  }

  // ---------------------------------------------------------------- the panel

  /** The control panel's models. `hasFields` is whether `show` has built
      the text fields, `sent` the payloads handed to the client. */
  class ControlPanel {
    const mapCode: string
    const hasClient: bool
    var amrIds: seq<string>
    var amrIdx: int
    var amrIdStr: string
    var cmdIdx: int
    var container: string
    var node: string
    var mission: string
    var hasFields: bool
    var readOnly: ReadOnly
    var visible: bool
    var sent: seq<Fields>

    /** The options are never empty and the id text follows the index. */
    predicate Valid()
      reads this
    {
      amrIds != [] && amrIdStr == SelectedText(amrIds, amrIdx)
    }

    constructor (mapCode: string, hasClient: bool)
      ensures Valid()
      ensures this.mapCode == mapCode && this.hasClient == hasClient
      ensures amrIds == ["-"] && amrIdx == 0 && amrIdStr == "-" && cmdIdx == 0
      ensures container == "" && node == "" && mission == ""
      ensures !hasFields && readOnly == ReadOnly(false, false, false) && !visible && sent == []
    {
      this.mapCode := mapCode;
      this.hasClient := hasClient;
      amrIds := ["-"];
      amrIdx := 0;
      amrIdStr := "-";
      cmdIdx := 0;
      container, node, mission := "", "", "";
      hasFields := false;
      readOnly := ReadOnly(false, false, false);
      visible := false;
      sent := [];
    }

    /** `_sync_selected_string` */
    method SyncSelectedString()
      modifies this
      ensures amrIdStr == SelectedText(amrIds, amrIdx)
      ensures amrIds == old(amrIds) && amrIdx == old(amrIdx) && cmdIdx == old(cmdIdx)
      ensures container == old(container) && node == old(node) && mission == old(mission)
      ensures hasFields == old(hasFields) && readOnly == old(readOnly)
      ensures visible == old(visible) && sent == old(sent)
    {
      var v := SelectedText(amrIds, amrIdx);
      if amrIdStr != v {
        amrIdStr := v;
      }
    }

    /** Setting the combo index, which fires `_sync_selected_string`. */
    method SetAmrIndex(i: int)
      requires amrIds != []
      modifies this
      ensures Valid() && amrIdx == i
      ensures amrIds == old(amrIds) && cmdIdx == old(cmdIdx)
      ensures container == old(container) && node == old(node) && mission == old(mission)
      ensures hasFields == old(hasFields) && readOnly == old(readOnly)
      ensures visible == old(visible) && sent == old(sent)
    {
      amrIdx := i;
      SyncSelectedString();
    }

    /** The non-blank values of `f` on the items, in order. */
    static method CollectIds(src: seq<Json>, f: Json -> string) returns (ids: seq<string>)
      ensures ids == Collect(src, |src|, f)
    {
      ids := [];
      var i := 0;
      while i < |src|
        invariant i <= |src|
        invariant ids == Collect(src, i, f)
      {
        var rid := f(src[i]);
        if rid != "" {
          ids := ids + [rid];
        }
        i := i + 1;
      }
    }

    /** `update_amr_list`: the options become the sorted ids and the
        previously selected id stays selected when it is still offered. */
    method UpdateAmrList(items: Json)
      requires ReadableItems(items)
      modifies this
      ensures Valid()
      ensures amrIds == OptionsOf(items)
      ensures amrIdx == IndexOf(amrIds, PrevId(old(amrIdStr)))
      ensures var p := PrevId(old(amrIdStr));
              amrIdStr == (if p != "" && p in amrIds then p else amrIds[0])
      ensures cmdIdx == old(cmdIdx) && container == old(container) && node == old(node)
      ensures mission == old(mission) && hasFields == old(hasFields) && readOnly == old(readOnly)
      ensures visible == old(visible) && sent == old(sent)
    {
      var raw := CollectIds(Source(items), IdOfItem);
      var ids := NumericSort(raw);
      if ids == [] {
        ids := ["-"];
      }
      var prev := PrevId(amrIdStr);
      if ids != amrIds {
        amrIds := ids;
      }
      var idx := IndexOf(amrIds, prev);
      if amrIdx != idx {
        SetAmrIndex(idx);
      }
      SyncSelectedString();
      SelectionKept(items, old(amrIdStr));
    }

    /** `_refresh_fields`: the read-only flags follow the command once the
        fields exist; `ok` is false for the `IndexError` of a command index
        out of range. */
    method RefreshFields() returns (ok: bool)
      modifies this
      ensures ok <==> CommandAt(cmdIdx).Some?
      ensures readOnly == (if ok && hasFields then ReadOnlyFor(CommandAt(cmdIdx).value) else old(readOnly))
      ensures amrIds == old(amrIds) && amrIdx == old(amrIdx) && amrIdStr == old(amrIdStr)
      ensures cmdIdx == old(cmdIdx) && container == old(container) && node == old(node)
      ensures mission == old(mission) && hasFields == old(hasFields)
      ensures visible == old(visible) && sent == old(sent)
    {
      var cmd := CommandAt(cmdIdx);
      if cmd.None? {
        return false;
      }
      ok := true;
      if !hasFields {
        return;
      }
      readOnly := ReadOnlyFor(cmd.value);
    }

    /** Choosing a command, which fires `_refresh_fields`. */
    method SetCommand(i: int) returns (ok: bool)
      modifies this
      ensures cmdIdx == i && (ok <==> CommandAt(i).Some?)
      ensures readOnly == (if ok && hasFields then ReadOnlyFor(CommandAt(i).value) else old(readOnly))
      ensures amrIds == old(amrIds) && amrIdx == old(amrIdx) && amrIdStr == old(amrIdStr)
      ensures container == old(container) && node == old(node)
      ensures mission == old(mission) && hasFields == old(hasFields)
      ensures visible == old(visible) && sent == old(sent)
    {
      cmdIdx := i;
      ok := RefreshFields();
    }

    /** `show(amr_id)`: select a truthy id (the first option when it is not
        offered), build the fields once, and show the window. */
    method Show(amrId: string) returns (ok: bool)
      requires Valid()
      modifies this
      ensures Valid() && visible && hasFields
      ensures amrIds == old(amrIds)
      ensures amrIdx == (if amrId != "" then IndexOf(amrIds, amrId) else old(amrIdx))
      ensures ok <==> CommandAt(cmdIdx).Some?
      ensures readOnly == (if ok then ReadOnlyFor(CommandAt(cmdIdx).value) else old(readOnly))
      ensures cmdIdx == old(cmdIdx) && container == old(container) && node == old(node)
      ensures mission == old(mission) && sent == old(sent)
    {
      if amrId != "" {
        SetAmrIndex(IndexOf(amrIds, amrId));
      }
      if !hasFields {
        hasFields := true;
      }
      visible := true;
      ok := RefreshFields();
    }

    /** The payload dict, filled in key by key. */
    static method BuildPayload(dataType: string, mapCode: string, amrId: string,
                               cont: string, nd: string, ms: string) returns (p: Fields)
      ensures p == Payload(dataType, mapCode, amrId, cont, nd, ms)
    {
      p := [("dataType", JStr(dataType)), ("mapCode", JStr(mapCode)), ("amrId", JStr(amrId))];
      if dataType == "ManualMove" {
        if nd != "" {
          p := p + [("targetNodeCode", JStr(nd))];
        }
      } else if dataType == "ManualRackMove" {
        if cont != "" {
          p := p + [("containerCode", JStr(cont))];
        }
        if nd != "" {
          p := p + [("targetNodeCode", JStr(nd))];
        }
      } else if dataType == "MissionCancel" {
        if ms != "" {
          p := p + [("cancelMissionCode", JStr(ms))];
        }
      }
    }

    /** The payload for the widget texts: the texts are cleaned, then the
        dict is filled. */
    static method PayloadFor(mapCode: string, amrIdText: string, cmd: string,
                             container: string, node: string, mission: string) returns (p: Fields)
      ensures p == PayloadOf(mapCode, amrIdText, cmd, container, node, mission)
    {
      var amrId := Strip(amrIdText);
      var dataType := DataTypeOf(cmd);
      var cont := Strip(container);
      var nd := CanonNode(node);
      var ms := Strip(mission);
      p := BuildPayload(dataType, mapCode, amrId, cont, nd, ms);
    }

    /** `_on_dispatch`: build the payload from the models, hand it to the
        client when there is one, and close the window. `None` is the
        `IndexError` of a command index out of range. */
    method Dispatch() returns (payload: Option<Fields>)
      modifies this
      ensures payload.None? <==> CommandAt(cmdIdx).None?
      ensures payload.Some? ==>
                payload.value == PayloadOf(mapCode, amrIdStr, CommandAt(cmdIdx).value, container, node, mission)
      ensures sent == (if payload.Some? && hasClient then old(sent) + [payload.value] else old(sent))
      ensures visible == (if payload.Some? then false else old(visible))
      ensures amrIds == old(amrIds) && amrIdx == old(amrIdx) && amrIdStr == old(amrIdStr)
      ensures cmdIdx == old(cmdIdx) && container == old(container) && node == old(node)
      ensures mission == old(mission) && hasFields == old(hasFields) && readOnly == old(readOnly)
    {
      var cmd := CommandAt(cmdIdx);
      if cmd.None? {
        return None;
      }
      var p := PayloadFor(mapCode, amrIdStr, cmd.value, container, node, mission);
      payload := Some(p);
      if hasClient {
        sent := sent + [p];
      }
      visible := false;
    }
  }
}
