/** The mission list panel: row keys, the keyed add / update / remove
    reconciliation of the three sections, the section counts, the cancel
    button and the cell text. */
module MissionList {
  import opened PyText
  import opened PyJson

  // ---------------------------------------------------------------- cells

  /** `_t(v)`: `None` and the empty text read "-", anything else its `str`. */
  function Cell(v: Json): (r: string)
    ensures r != ""
    ensures v.JNull? || v == JStr("") ==> r == "-"
    ensures v.JStr? && v.s != "" ==> r == v.s
  {
    if v.JNull? then "-"
    else
      var s := Str(v);
      if s == "" then "-" else s
  }

  /** Zero is shown as "0", not as the placeholder. */
  lemma CellOfZero()
    ensures Cell(JInt(0)) == "0"
  {
    assert Repr(JInt(0)) == IntToStr(0);
    assert NatToStr(0) == "0";
  }

  /** False is shown as its `str`, not as the placeholder. */
  lemma CellOfFalse()
    ensures Cell(JBool(false)) == "False"
  {
    assert Repr(JBool(false)) == "False";
  }

  /** The five cells of a row, in column order. */
  function Cells(row: Json): (r: seq<string>)
    ensures |r| == 5
  {
    [Cell(Get(row, "missionStatus")), Cell(Get(row, "process")), Cell(Get(row, "missionCode")),
     Cell(Get(row, "amrId")), Cell(Get(row, "targetNode"))]
  }

  // ---------------------------------------------------------------- keys

  /** `(tag, id)`: "R" with the process for reservations, "M" with the
      mission code otherwise. */
  datatype Key = Key(tag: string, id: Json)

  /** `(row.get("missionStatus") or "").lower()`; `None` where `.get` or
      `.lower` raises (a row that is not a dict, a truthy status that is
      not text). */
  function StatusOf(row: Json): Option<string> {
    var st := Get(row, "missionStatus");
    if !row.JObj? || (Truthy(st) && !st.JStr?) then None
    else Some(if Truthy(st) then Lower(st.s) else "")
  }

  /** A key Python can hash: no list or dict inside. */
  predicate Hashable(v: Json) {
    !v.JList? && !v.JObj?
  }

  /** `_make_key(row)`; `None` where it raises, or where the key cannot be
      looked up in a dict. */
  function KeyOf(row: Json): Option<Key> {
    match StatusOf(row)
    case None => None
    case Some(status) =>
      var k := if status == "reservation" then Key("R", Or(Get(row, "process"), JStr("")))
               else Key("M", Or(Get(row, "missionCode"), JStr("")));
      if Hashable(k.id) then Some(k) else None
  }

  /** A reservation is keyed by its process, any other row by its mission
      code, a missing one reading "". */
  lemma KeyOfSpec(row: Json)
    requires KeyOf(row).Some?
    ensures var k := KeyOf(row).value;
            var status := StatusOf(row).value;
            (k.tag == "R" <==> status == "reservation")
            && k.id == (if status == "reservation" then Or(Get(row, "process"), JStr(""))
                        else Or(Get(row, "missionCode"), JStr("")))
            && (!Truthy(k.id) ==> k.id == JStr(""))
  {
  }

  /** The status test ignores case. */
  lemma ReservationAnyCase(row: Json, s: string)
    requires row.JObj? && Get(row, "missionStatus") == JStr(s) && Lower(s) == "reservation"
    requires Hashable(Or(Get(row, "process"), JStr("")))
    ensures KeyOf(row) == Some(Key("R", Or(Get(row, "process"), JStr(""))))
  {
    assert s != "" by { assert |Lower(s)| == |s|; }
  }

  // ---------------------------------------------------------------- rows

  /** A rendered row: its frame, the row its Cancel button was bound to
      when it was rendered, and the row its labels show now. */
  datatype Row = Row(frame: nat, origin: Json, latest: Json)

  /** `current_rows` in insertion order. */
  type Rows = seq<(Key, Row)>

  /** The position of `k`, or `|rows|`. */
  function Find(rows: Rows, k: Key): (r: nat)
    ensures r <= |rows|
    ensures r < |rows| ==> rows[r].0 == k
    ensures r == |rows| ==> forall i :: 0 <= i < |rows| ==> rows[i].0 != k
  {
    if rows == [] then 0
    else if rows[0].0 == k then 0
    else 1 + Find(rows[1..], k)
  }

  function RowOf(rows: Rows, k: Key): Option<Row> {
    var i := Find(rows, k);
    if i < |rows| then Some(rows[i].1) else None
  }

  /** Each key once, every frame below the frame counter. */
  predicate WellFormed(rows: Rows, next: nat) {
    (forall i, j :: 0 <= i < j < |rows| ==> rows[i].0 != rows[j].0)
    && (forall i :: 0 <= i < |rows| ==> rows[i].1.frame < next)
  }

  /** In a well-formed table a key's row is the one at its position. */
  lemma RowOfAt(rows: Rows, next: nat, i: nat)
    requires WellFormed(rows, next) && i < |rows|
    ensures RowOf(rows, rows[i].0) == Some(rows[i].1)
  {
  }

  /** One row of the first loop: an existing key keeps its frame and its
      bound row and shows the new row; a new key renders a new frame. */
  function Upsert(rows: Rows, next: nat, k: Key, row: Json): (Rows, nat) {
    var i := Find(rows, k);
    if i < |rows| then (rows[i := (k, Row(rows[i].1.frame, rows[i].1.origin, row))], next)
    else (rows + [(k, Row(next, row, row))], next + 1)
  }

  lemma UpsertFacts(rows: Rows, next: nat, k: Key, row: Json, x: Key)
    requires WellFormed(rows, next)
    ensures var (r2, n2) := Upsert(rows, next, k, row);
            WellFormed(r2, n2)
            && n2 == (if RowOf(rows, k).Some? then next else next + 1)
            && RowOf(r2, x) == (if x != k then RowOf(rows, x)
                                else if RowOf(rows, k).Some? then Some(Row(RowOf(rows, k).value.frame, RowOf(rows, k).value.origin, row))
                                else Some(Row(next, row, row)))
  {
    var (r2, n2) := Upsert(rows, next, k, row);
    var i := Find(rows, k);
    assert forall j :: 0 <= j < |rows| ==> r2[j].0 == rows[j].0;
    assert WellFormed(r2, n2);
    var fx := Find(rows, x);
    if fx < |rows| {
      RowOfAt(r2, n2, fx);
    } else if x == k {
      RowOfAt(r2, n2, |rows|);
    } else {
      assert forall j :: 0 <= j < |r2| ==> r2[j].0 != x;
    }
  }

  /** Every row of the first `n` desired rows has a key. */
  predicate AllKeyed(desired: seq<Json>, n: nat, key: Json -> Option<Key>)
    requires n <= |desired|
  {
    forall j :: 0 <= j < n ==> key(desired[j]).Some?
  }

  /** The state of a section during a sync: its rows, its frame counter,
      `desired_keys` so far, and whether no key has raised. */
  datatype Pass = Pass(rows: Rows, next: nat, keys: seq<Key>, ok: bool)

  /** The first loop of `_sync_section` over the first `n` desired rows,
      with `key` for `_make_key`; it stops at the first row whose key
      raises. */
  function AddPass(rows: Rows, next: nat, desired: seq<Json>, n: nat, key: Json -> Option<Key>): Pass
    requires n <= |desired|
  {
    if n == 0 then Pass(rows, next, [], true)
    else
      var p := AddPass(rows, next, desired, n - 1, key);
      if !p.ok then p
      else match key(desired[n - 1])
        case None => Pass(p.rows, p.next, p.keys, false)
        case Some(k) =>
          var (r2, n2) := Upsert(p.rows, p.next, k, desired[n - 1]);
          Pass(r2, n2, p.keys + [k], true)
  }

  /** The pass runs to the end iff every row has a key. */
  lemma {:induction false} AddPassOk(rows: Rows, next: nat, desired: seq<Json>, n: nat, key: Json -> Option<Key>)
    requires n <= |desired|
    ensures AddPass(rows, next, desired, n, key).ok <==> AllKeyed(desired, n, key)
  {
    if n > 0 {
      AddPassOk(rows, next, desired, n - 1, key);
    }
  }

  /** Once a key has raised, the later rows change nothing. */
  lemma {:induction false} AddPassStops(rows: Rows, next: nat, desired: seq<Json>, i: nat, n: nat, key: Json -> Option<Key>)
    requires i <= n <= |desired| && !AddPass(rows, next, desired, i, key).ok
    ensures AddPass(rows, next, desired, n, key) == AddPass(rows, next, desired, i, key)
  {
    if n > i {
      AddPassStops(rows, next, desired, i, n - 1, key);
    }
  }

  /** `desired_keys` holds the key of each row, in order. */
  lemma {:induction false} AddPassKeyAt(rows: Rows, next: nat, desired: seq<Json>, n: nat, key: Json -> Option<Key>, j: nat)
    requires j < n <= |desired| && AllKeyed(desired, n, key)
    ensures var p := AddPass(rows, next, desired, n, key);
            |p.keys| == n && p.keys[j] == key(desired[j]).value
  {
    AddPassOk(rows, next, desired, n - 1, key);
    if j < n - 1 {
      AddPassKeyAt(rows, next, desired, n - 1, key, j);
    } else if n > 1 {
      AddPassKeyAt(rows, next, desired, n - 1, key, 0);
    }
  }

  /** What the first loop does to one key: a key already there keeps its
      frame and bound row, a new desired key gets a fresh frame, the others
      are untouched. */
  lemma {:induction false} AddPassRow(rows: Rows, next: nat, desired: seq<Json>, n: nat, key: Json -> Option<Key>, x: Key)
    requires n <= |desired| && AllKeyed(desired, n, key) && WellFormed(rows, next)
    ensures var p := AddPass(rows, next, desired, n, key);
            WellFormed(p.rows, p.next) && next <= p.next
            && (RowOf(p.rows, x).Some? <==> RowOf(rows, x).Some? || x in p.keys)
            && (x !in p.keys ==> RowOf(p.rows, x) == RowOf(rows, x))
            && (RowOf(rows, x).Some? ==> RowOf(p.rows, x).value.frame == RowOf(rows, x).value.frame
                                         && RowOf(p.rows, x).value.origin == RowOf(rows, x).value.origin)
            && (RowOf(rows, x).None? && RowOf(p.rows, x).Some? ==> next <= RowOf(p.rows, x).value.frame < p.next)
  {
    if n > 0 {
      AddPassRow(rows, next, desired, n - 1, key, x);
      var p := AddPass(rows, next, desired, n - 1, key);
      AddPassOk(rows, next, desired, n - 1, key);
      var k := key(desired[n - 1]).value;
      UpsertFacts(p.rows, p.next, k, desired[n - 1], x);
    }
  }

  /** A desired key shows the last desired row with that key. */
  lemma {:induction false} AddPassLatest(rows: Rows, next: nat, desired: seq<Json>, n: nat, key: Json -> Option<Key>, j: nat)
    requires j < n <= |desired| && AllKeyed(desired, n, key) && WellFormed(rows, next)
    requires forall l :: j < l < n ==> key(desired[l]) != key(desired[j])
    ensures var p := AddPass(rows, next, desired, n, key);
            RowOf(p.rows, key(desired[j]).value).Some?
            && RowOf(p.rows, key(desired[j]).value).value.latest == desired[j]
  {
    var x := key(desired[j]).value;
    var p := AddPass(rows, next, desired, n - 1, key);
    AddPassOk(rows, next, desired, n - 1, key);
    AddPassRow(rows, next, desired, n - 1, key, x);
    var k := key(desired[n - 1]).value;
    UpsertFacts(p.rows, p.next, k, desired[n - 1], x);
    if j < n - 1 {
      AddPassLatest(rows, next, desired, n - 1, key, j);
    }
  }

  /** The second loop: the rows whose key is not desired are popped. */
  function Prune(rows: Rows, keys: seq<Key>): Rows {
    if rows == [] then []
    else
      var pre := Prune(rows[..|rows| - 1], keys);
      if rows[|rows| - 1].0 in keys then pre + [rows[|rows| - 1]] else pre
  }

  /** Pruning keeps a subsequence of the rows. */
  lemma {:induction false} PruneSub(rows: Rows, keys: seq<Key>)
    ensures |Prune(rows, keys)| <= |rows|
    ensures forall i :: 0 <= i < |Prune(rows, keys)| ==> Prune(rows, keys)[i] in rows
  {
    if rows != [] {
      var init := rows[..|rows| - 1];
      PruneSub(init, keys);
      assert forall e :: e in init ==> e in rows;
    }
  }

  /** A key that is not in a table is not found in it. */
  lemma Absent(rows: Rows, x: Key)
    requires forall i :: 0 <= i < |rows| ==> rows[i].0 != x
    ensures RowOf(rows, x).None?
  {
  }

  /** Pruning keeps exactly the desired keys, each with its row. */
  lemma {:induction false} PruneRow(rows: Rows, next: nat, keys: seq<Key>, x: Key)
    requires WellFormed(rows, next)
    ensures WellFormed(Prune(rows, keys), next)
    ensures RowOf(Prune(rows, keys), x) == if x in keys then RowOf(rows, x) else None
  {
    if rows != [] {
      var init := rows[..|rows| - 1];
      var last := rows[|rows| - 1];
      assert WellFormed(init, next);
      PruneRow(init, next, keys, x);
      PruneSub(init, keys);
      var pre := Prune(init, keys);
      forall i | 0 <= i < |pre|
        ensures pre[i].0 != last.0
      {
        var m :| 0 <= m < |init| && init[m] == pre[i];
      }
      if last.0 in keys {
        PruneLast(rows, next, keys, x);
      } else if x == last.0 {
        RowOfAt(rows, next, |rows| - 1);
        Absent(pre, x);
      } else {
        InitRow(rows, next, x);
      }
    }
  }

  /** Dropping the last row keeps every other key's row. */
  lemma InitRow(rows: Rows, next: nat, x: Key)
    requires WellFormed(rows, next) && rows != [] && x != rows[|rows| - 1].0
    ensures RowOf(rows[..|rows| - 1], x) == RowOf(rows, x)
  {
    var init := rows[..|rows| - 1];
    var g := Find(init, x);
    if g < |init| {
      RowOfAt(rows, next, g);
      RowOfAt(init, next, g);
    } else {
      Absent(rows, x);
    }
  }

  /** The step of `PruneRow` where the last row is kept. */
  lemma PruneLast(rows: Rows, next: nat, keys: seq<Key>, x: Key)
    requires WellFormed(rows, next) && rows != [] && rows[|rows| - 1].0 in keys
    requires var pre := Prune(rows[..|rows| - 1], keys);
             WellFormed(pre, next) && (forall i :: 0 <= i < |pre| ==> pre[i].0 != rows[|rows| - 1].0)
             && RowOf(pre, x) == if x in keys then RowOf(rows[..|rows| - 1], x) else None
    ensures WellFormed(Prune(rows, keys), next)
    ensures RowOf(Prune(rows, keys), x) == if x in keys then RowOf(rows, x) else None
  {
    var pre := Prune(rows[..|rows| - 1], keys);
    var last := rows[|rows| - 1];
    var r := Prune(rows, keys);
    assert r == pre + [last];
    assert WellFormed(r, next);
    if x == last.0 {
      RowOfAt(rows, next, |rows| - 1);
      RowOfAt(r, next, |r| - 1);
    } else {
      InitRow(rows, next, x);
      InitRow(r, next, x);
      assert r[..|r| - 1] == pre;
    }
  }

  /** `_sync_section` with `key` for `_make_key`: the first loop, then,
      when it ran to the end, the removal of the keys no desired row has. */
  function SyncOf(rows: Rows, next: nat, desired: seq<Json>, key: Json -> Option<Key>): Pass {
    var p := AddPass(rows, next, desired, |desired|, key);
    if p.ok then Pass(Prune(p.rows, p.keys), p.next, p.keys, true) else p
  }

  /** After a sync that runs to the end the section holds exactly the
      desired keys; a key it held before keeps its frame and bound row,
      a new key has a fresh frame. */
  lemma SyncSpec(rows: Rows, next: nat, desired: seq<Json>, key: Json -> Option<Key>, x: Key)
    requires WellFormed(rows, next)
    ensures var s := SyncOf(rows, next, desired, key);
            WellFormed(s.rows, s.next)
            && (s.ok <==> forall j :: 0 <= j < |desired| ==> key(desired[j]).Some?)
            && (s.ok ==> (RowOf(s.rows, x).Some? <==> exists j :: 0 <= j < |desired| && key(desired[j]) == Some(x)))
            && (s.ok && RowOf(rows, x).Some? && RowOf(s.rows, x).Some? ==>
                  RowOf(s.rows, x).value.frame == RowOf(rows, x).value.frame
                  && RowOf(s.rows, x).value.origin == RowOf(rows, x).value.origin)
            && (s.ok && RowOf(rows, x).None? && RowOf(s.rows, x).Some? ==> next <= RowOf(s.rows, x).value.frame)
  {
    var n := |desired|;
    AddPassOk(rows, next, desired, n, key);
    var p := AddPass(rows, next, desired, n, key);
    if p.ok {
      AddPassRow(rows, next, desired, n, key, x);
      PruneRow(p.rows, p.next, p.keys, x);
      PassKeys(rows, next, desired, key, x);
    } else {
      SyncFailed(rows, next, desired, key);
    }
  }

  /** A key is desired iff some desired row has it. */
  lemma PassKeys(rows: Rows, next: nat, desired: seq<Json>, key: Json -> Option<Key>, x: Key)
    requires AllKeyed(desired, |desired|, key)
    ensures var p := AddPass(rows, next, desired, |desired|, key);
            x in p.keys <==> exists j :: 0 <= j < |desired| && key(desired[j]) == Some(x)
  {
    var n := |desired|;
    var p := AddPass(rows, next, desired, n, key);
    if n > 0 {
      AddPassKeyAt(rows, next, desired, n, key, 0);
      forall j | 0 <= j < n
        ensures p.keys[j] == key(desired[j]).value
      {
        AddPassKeyAt(rows, next, desired, n, key, j);
      }
    }
  }

  /** A failed first pass leaves the rows well formed. */
  lemma {:induction false} SyncFailed(rows: Rows, next: nat, desired: seq<Json>, key: Json -> Option<Key>)
    requires WellFormed(rows, next)
    ensures var p := AddPass(rows, next, desired, |desired|, key);
            WellFormed(p.rows, p.next)
  {
    PassWellFormed(rows, next, desired, |desired|, key);
  }

  lemma {:induction false} PassWellFormed(rows: Rows, next: nat, desired: seq<Json>, n: nat, key: Json -> Option<Key>)
    requires n <= |desired| && WellFormed(rows, next)
    ensures WellFormed(AddPass(rows, next, desired, n, key).rows, AddPass(rows, next, desired, n, key).next)
  {
    if n > 0 {
      PassWellFormed(rows, next, desired, n - 1, key);
      var p := AddPass(rows, next, desired, n - 1, key);
      if p.ok && key(desired[n - 1]).Some? {
        UpsertFacts(p.rows, p.next, key(desired[n - 1]).value, desired[n - 1], key(desired[n - 1]).value);
      }
    }
  }

  /** After a sync that runs to the end each key shows the last desired row
      with that key. */
  lemma SyncLatest(rows: Rows, next: nat, desired: seq<Json>, key: Json -> Option<Key>, j: nat)
    requires WellFormed(rows, next) && j < |desired|
    requires forall l :: 0 <= l < |desired| ==> key(desired[l]).Some?
    requires forall l :: j < l < |desired| ==> key(desired[l]) != key(desired[j])
    ensures var s := SyncOf(rows, next, desired, key);
            RowOf(s.rows, key(desired[j]).value).Some?
            && RowOf(s.rows, key(desired[j]).value).value.latest == desired[j]
  {
    var n := |desired|;
    var x := key(desired[j]).value;
    AddPassOk(rows, next, desired, n, key);
    AddPassLatest(rows, next, desired, n, key, j);
    var p := AddPass(rows, next, desired, n, key);
    AddPassRow(rows, next, desired, n, key, x);
    AddPassKeyAt(rows, next, desired, n, key, j);
    PruneRow(p.rows, p.next, p.keys, x);
  }

  // ---------------------------------------------------------------- cancel

  /** The two cancel requests: by mission code, or by node for a
      reservation. */
  datatype Cancel = CancelMission(missionCode: Json) | CancelNode(nodeCode: Json)

  /** `_on_click_cancel(row)` with a callback set; `None` when nothing is
      sent (a mission row without a truthy mission code). */
  function CancelOf(row: Json): Option<Cancel>
    requires StatusOf(row).Some?
  {
    if StatusOf(row).value == "reservation" then Some(CancelNode(Get(row, "process")))
    else
      var code := Get(row, "missionCode");
      if Truthy(code) then Some(CancelMission(code)) else None
  }

  /** The request of a row agrees with its key: a reservation cancels the
      node its key names, a mission row cancels its key's mission code,
      and a row keyed by the empty code sends nothing. */
  lemma CancelMatchesKey(row: Json)
    requires KeyOf(row).Some?
    ensures var k := KeyOf(row).value;
            (k.tag == "R" ==> CancelOf(row).Some? && CancelOf(row).value.CancelNode?
                              && Or(CancelOf(row).value.nodeCode, JStr("")) == k.id)
            && (k.tag == "M" ==> (CancelOf(row).Some? <==> Truthy(k.id))
                                 && (CancelOf(row).Some? ==> CancelOf(row).value == CancelMission(k.id)))
  {
  }

  // ---------------------------------------------------------------- refresh

  /** `list(v or [])`: a list's items, a dict's keys, a text's characters;
      `None` where `list()` raises. */
  function ListOf(v: Json): Option<seq<Json>> {
    if !Truthy(v) then Some([])
    else match v
      case JList(items) => Some(items)
      case JObj(fields) => Some(TextItems(Keys(fields)))
      case JStr(s) => Some(TextItems(Chars(s)))
      case _ => None
  }

  function Chars(s: string): (r: seq<string>)
    ensures |r| == |s| && forall i :: 0 <= i < |s| ==> r[i] == [s[i]]
  {
    if s == [] then [] else [[s[0]]] + Chars(s[1..])
  }

  function TextItems(ts: seq<string>): (r: seq<Json>)
    ensures |r| == |ts| && forall i :: 0 <= i < |ts| ==> r[i] == JStr(ts[i])
  {
    if ts == [] then [] else [JStr(ts[0])] + TextItems(ts[1..])
  }

  /** The three sections `refresh` reads from the resolver's snapshot. */
  datatype Sections = Sections(working: seq<Json>, waiting: seq<Json>, reserved: seq<Json>)

  function SectionsOf(resolved: Json): Option<Sections> {
    var snap := Or(resolved, JObj([]));
    if !snap.JObj? then None
    else match (ListOf(Get(snap, "working")), ListOf(Get(snap, "waiting")), ListOf(Get(snap, "reserved")))
      case (Some(w), Some(t), Some(r)) => Some(Sections(w, t, r))
      case _ => None
  }

  /** A missing or empty section reads as no rows. */
  lemma EmptySnapshot()
    ensures SectionsOf(JNull) == Some(Sections([], [], []))
  {
  }

  // ---------------------------------------------------------------- panel

  /** The four count labels. */
  datatype Counts = Counts(total: string, working: string, waiting: string, reserved: string)

  function CountsOf(w: nat, t: nat, r: nat): Counts {
    Counts("Total: " + NatToStr(w + t + r), "Working: " + NatToStr(w),
           "Waiting: " + NatToStr(t), "Reserved: " + NatToStr(r))
  }

  /** The total label is the sum of the three section counts. */
  lemma TotalIsSum(w: nat, t: nat, r: nat)
    ensures IsDigits(CountsOf(w, t, r).total[7..])
    ensures DigitsValue(CountsOf(w, t, r).total[7..]) == w + t + r
  {
    NatToStrDigits(w + t + r);
    DigitsValueOfNatToStr(w + t + r);
    assert CountsOf(w, t, r).total[7..] == NatToStr(w + t + r);
  }

  /** The rows of one section, a dict `_sync_section` changes in place. */
  class Section {
    var rows: Rows
    var next: nat

    predicate Valid()
      reads this
    {
      WellFormed(rows, next)
    }

    constructor ()
      ensures Valid() && rows == [] && next == 0
    {
      rows := [];
      next := 0;
    }

    /** `_sync_section(vstack, rows, desired, color)` with `key` for
        `_make_key`; `ok` is false where a key raises, and the rows then
        stay as the first loop left them. */
    method Sync(desired: seq<Json>, key: Json -> Option<Key>) returns (ok: bool)
      requires Valid()
      modifies this
      ensures Valid()
      ensures var s := SyncOf(old(rows), old(next), desired, key);
              rows == s.rows && next == s.next && ok == s.ok
    {
      ghost var rows0 := rows;
      ghost var next0 := next;
      var keys: seq<Key> := [];
      var i := 0;
      while i < |desired|
        invariant 0 <= i <= |desired|
        invariant AddPass(rows0, next0, desired, i, key) == Pass(rows, next, keys, true)
        invariant WellFormed(rows, next)
      {
        var k := key(desired[i]);
        if k.None? {
          AddPassStops(rows0, next0, desired, i + 1, |desired|, key);
          return false;
        }
        keys := keys + [k.value];
        UpsertFacts(rows, next, k.value, desired[i], k.value);
        var f := Find(rows, k.value);
        if f == |rows| {
          rows := rows + [(k.value, Row(next, desired[i], desired[i]))];
          next := next + 1;
        } else {
          rows := rows[f := (k.value, Row(rows[f].1.frame, rows[f].1.origin, desired[i]))];
        }
        i := i + 1;
      }
      Remove(keys);
      ok := true;
    }

    /** The removal loop. */
    method Remove(keys: seq<Key>)
      requires Valid()
      modifies this
      ensures Valid()
      ensures rows == Prune(old(rows), keys) && next == old(next)
    {
      PruneRow(rows, next, keys, Key("", JNull));
      rows := PopAll(rows, keys);
    }

    /** Pop every key not in `keys`, walking a copy of the keys in order. */
    static method PopAll(current: Rows, keys: seq<Key>) returns (rows: Rows)
      ensures rows == Prune(current, keys)
    {
      rows := current;
      var snapKeys := KeysOf(current);
      var i := 0;
      var p := 0;
      while i < |snapKeys|
        invariant 0 <= i <= |snapKeys| && |snapKeys| == |current|
        invariant rows == Prune(current[..i], keys) + current[i..]
        invariant p == |Prune(current[..i], keys)|
      {
        var k := snapKeys[i];
        PopStep(current, i, keys, rows);
        if k !in keys {
          rows := rows[..p] + rows[p + 1..];
        } else {
          p := p + 1;
        }
        i := i + 1;
      }
      assert current[..|current|] == current;
    }
  }

  lemma PruneStep(rows: Rows, i: nat, keys: seq<Key>)
    requires i < |rows|
    ensures Prune(rows[..i + 1], keys) == Prune(rows[..i], keys) + (if rows[i].0 in keys then [rows[i]] else [])
  {
    assert rows[..i + 1][..i] == rows[..i];
  }

  /** One step of the removal loop: the row at the pruned prefix's end is
      the next snapshot row, and popping it (or keeping it) extends the
      pruned prefix. */
  lemma PopStep(snap: Rows, i: nat, keys: seq<Key>, rows: Rows)
    requires i < |snap| && rows == Prune(snap[..i], keys) + snap[i..]
    ensures var p := |Prune(snap[..i], keys)|;
            p < |rows| && rows[p] == snap[i]
            && (snap[i].0 !in keys ==> rows[..p] + rows[p + 1..] == Prune(snap[..i + 1], keys) + snap[i + 1..]
                                       && p == |Prune(snap[..i + 1], keys)|)
            && (snap[i].0 in keys ==> rows == Prune(snap[..i + 1], keys) + snap[i + 1..]
                                      && p + 1 == |Prune(snap[..i + 1], keys)|)
  {
    var pre := Prune(snap[..i], keys);
    PruneStep(snap, i, keys);
    assert snap[i..] == [snap[i]] + snap[i + 1..];
    assert rows == pre + [snap[i]] + snap[i + 1..];
    assert rows[..|pre|] == pre && rows[|pre| + 1..] == snap[i + 1..];
  }

  function KeysOf(rows: Rows): (r: seq<Key>)
    ensures |r| == |rows| && forall i :: 0 <= i < |rows| ==> r[i] == rows[i].0
  {
    if rows == [] then [] else [rows[0].0] + KeysOf(rows[1..])
  }

  /** The mission list window. `hasWindow` stands for the window with its
      labels and the three section stacks, which `show` creates together;
      `cancels` and `resets` record the callback calls. */
  class MissionPanel {
    var hasWindow: bool
    var visible: bool
    var counts: Counts
    const work: Section
    const wait: Section
    const resv: Section
    const hasCancel: bool
    const hasResetAll: bool
    var cancels: seq<Cancel>
    var resets: nat

    predicate Valid()
      reads this, work, wait, resv
    {
      work != wait && wait != resv && work != resv
      && work.Valid() && wait.Valid() && resv.Valid()
    }

    constructor (hasCancel: bool, hasResetAll: bool)
      ensures Valid() && fresh(work) && fresh(wait) && fresh(resv)
      ensures !hasWindow && !visible && cancels == [] && resets == 0
      ensures this.hasCancel == hasCancel && this.hasResetAll == hasResetAll
      ensures work.rows == [] && wait.rows == [] && resv.rows == []
    {
      hasWindow := false;
      visible := false;
      counts := CountsOf(0, 0, 0);
      work := new Section();
      wait := new Section();
      resv := new Section();
      this.hasCancel := hasCancel;
      this.hasResetAll := hasResetAll;
      cancels := [];
      resets := 0;
    }

    /** `update_data`: the count labels, then the three sections in order;
        a section whose key raises stops the rest. Nothing without a
        window. */
    method UpdateData(working: seq<Json>, waiting: seq<Json>, reserved: seq<Json>) returns (ok: bool)
      requires Valid()
      modifies this, work, wait, resv
      ensures Valid()
      ensures hasWindow == old(hasWindow) && visible == old(visible)
      ensures cancels == old(cancels) && resets == old(resets)
      ensures !hasWindow ==> ok && counts == old(counts)
      ensures !hasWindow ==> work.rows == old(work.rows) && wait.rows == old(wait.rows) && resv.rows == old(resv.rows)
      ensures !hasWindow ==> work.next == old(work.next) && wait.next == old(wait.next) && resv.next == old(resv.next)
      ensures hasWindow ==> counts == CountsOf(|working|, |waiting|, |reserved|)
      ensures hasWindow ==>
                var s1 := SyncOf(old(work.rows), old(work.next), working, KeyOf);
                var s2 := SyncOf(old(wait.rows), old(wait.next), waiting, KeyOf);
                var s3 := SyncOf(old(resv.rows), old(resv.next), reserved, KeyOf);
                work.rows == s1.rows && work.next == s1.next
                && (if s1.ok then wait.rows == s2.rows && wait.next == s2.next
                    else wait.rows == old(wait.rows) && wait.next == old(wait.next))
                && (if s1.ok && s2.ok then resv.rows == s3.rows && resv.next == s3.next
                    else resv.rows == old(resv.rows) && resv.next == old(resv.next))
                && ok == (s1.ok && s2.ok && s3.ok)
    {
      if !hasWindow {
        return true;
      }
      counts := CountsOf(|working|, |waiting|, |reserved|);
      ok := work.Sync(working, KeyOf);
      if !ok {
        return;
      }
      ok := wait.Sync(waiting, KeyOf);
      if !ok {
        return;
      }
      ok := resv.Sync(reserved, KeyOf);
    }

    /** `refresh`; `resolved` is what the resolver returned, `None` when
        none is set. */
    method Refresh(resolved: Option<Json>) returns (ok: bool)
      requires Valid()
      modifies this, work, wait, resv
      ensures Valid()
      ensures hasWindow == old(hasWindow) && visible == old(visible)
      ensures cancels == old(cancels) && resets == old(resets)
      ensures resolved.None? ==> ok
      ensures resolved.Some? && SectionsOf(resolved.value).None? ==> !ok
      ensures resolved.Some? && SectionsOf(resolved.value).Some? && !hasWindow ==> ok
      ensures resolved.None? || SectionsOf(resolved.value).None? || !hasWindow ==>
                counts == old(counts)
                && work.rows == old(work.rows) && wait.rows == old(wait.rows) && resv.rows == old(resv.rows)
                && work.next == old(work.next) && wait.next == old(wait.next) && resv.next == old(resv.next)
      ensures resolved.Some? && SectionsOf(resolved.value).Some? && hasWindow ==>
                var sec := SectionsOf(resolved.value).value;
                var s1 := SyncOf(old(work.rows), old(work.next), sec.working, KeyOf);
                var s2 := SyncOf(old(wait.rows), old(wait.next), sec.waiting, KeyOf);
                var s3 := SyncOf(old(resv.rows), old(resv.next), sec.reserved, KeyOf);
                counts == CountsOf(|sec.working|, |sec.waiting|, |sec.reserved|)
                && work.rows == s1.rows && work.next == s1.next
                && (if s1.ok then wait.rows == s2.rows && wait.next == s2.next
                    else wait.rows == old(wait.rows) && wait.next == old(wait.next))
                && (if s1.ok && s2.ok then resv.rows == s3.rows && resv.next == s3.next
                    else resv.rows == old(resv.rows) && resv.next == old(resv.next))
                && ok == (s1.ok && s2.ok && s3.ok)
    {
      if resolved.None? {
        return true;
      }
      var sec := SectionsOf(resolved.value);
      if sec.None? {
        return false;
      }
      ok := UpdateData(sec.value.working, sec.value.waiting, sec.value.reserved);
    }

    /** `show`: a shown window is only made visible again; the first call
        creates it with zero counts and refreshes. */
    method Show(resolved: Option<Json>) returns (ok: bool)
      requires Valid()
      modifies this, work, wait, resv
      ensures Valid() && hasWindow && visible
      ensures cancels == old(cancels) && resets == old(resets)
      ensures old(hasWindow) ==> ok && counts == old(counts)
      ensures !old(hasWindow) && resolved.None? ==> ok
      ensures !old(hasWindow) && resolved.Some? && SectionsOf(resolved.value).None? ==> !ok
      ensures old(hasWindow) || resolved.None? || SectionsOf(resolved.value).None? ==>
                work.rows == old(work.rows) && wait.rows == old(wait.rows) && resv.rows == old(resv.rows)
                && work.next == old(work.next) && wait.next == old(wait.next) && resv.next == old(resv.next)
      ensures !old(hasWindow) && (resolved.None? || SectionsOf(resolved.value).None?) ==>
                counts == CountsOf(0, 0, 0)
      ensures !old(hasWindow) && resolved.Some? && SectionsOf(resolved.value).Some? ==>
                var sec := SectionsOf(resolved.value).value;
                var s1 := SyncOf(old(work.rows), old(work.next), sec.working, KeyOf);
                var s2 := SyncOf(old(wait.rows), old(wait.next), sec.waiting, KeyOf);
                var s3 := SyncOf(old(resv.rows), old(resv.next), sec.reserved, KeyOf);
                counts == CountsOf(|sec.working|, |sec.waiting|, |sec.reserved|)
                && work.rows == s1.rows && work.next == s1.next
                && (if s1.ok then wait.rows == s2.rows && wait.next == s2.next
                    else wait.rows == old(wait.rows) && wait.next == old(wait.next))
                && (if s1.ok && s2.ok then resv.rows == s3.rows && resv.next == s3.next
                    else resv.rows == old(resv.rows) && resv.next == old(resv.next))
                && ok == (s1.ok && s2.ok && s3.ok)
    {
      if hasWindow {
        visible := true;
        return true;
      }
      hasWindow := true;
      visible := true;
      counts := CountsOf(0, 0, 0);
      ok := Refresh(resolved);
    }

    /** `_on_click_cancel(row)` for the row a Cancel button was bound to. */
    method ClickCancel(row: Json)
      requires Valid() && KeyOf(row).Some?
      modifies this
      ensures Valid()
      ensures cancels == old(cancels) + (if hasCancel && CancelOf(row).Some? then [CancelOf(row).value] else [])
      ensures hasWindow == old(hasWindow) && visible == old(visible) && counts == old(counts) && resets == old(resets)
    {
      if !hasCancel {
        return;
      }
      var status := StatusOf(row).value;
      if status == "reservation" {
        cancels := cancels + [CancelNode(Get(row, "process"))];
      } else {
        var code := Get(row, "missionCode");
        if Truthy(code) {
          cancels := cancels + [CancelMission(code)];
        }
      }
    }

    /** `_on_click_reset_all`. */
    method ClickResetAll()
      requires Valid()
      modifies this
      ensures Valid()
      ensures resets == old(resets) + (if hasResetAll then 1 else 0)
      ensures hasWindow == old(hasWindow) && visible == old(visible) && counts == old(counts) && cancels == old(cancels)
    {
      if hasResetAll {
        resets := resets + 1;
      }
    }
  }
}
