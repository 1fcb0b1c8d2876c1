/** The main window's own state: the five-line error log that merges
    repeats, and the dictionary of AMR cards kept in step with the AMRInfo
    list (with the placeholder cards shown before the first data). */
module Layout {
  import opened PyText
  import opened PyJson
  import opened AmrCard

  // ---------------------------------------------------------------- error log

  const MaxLines := 5
  const MaxRepeat := 5
  const MergeSeconds: real := 20.0

  /** The text of a log line: a repeat count above one shows as " (xN)". */
  function ErrorLine(text: string, count: int): (r: string)
    ensures StartsWith(r, "[Error] " + text)
    ensures count <= 1 ==> r == "[Error] " + text
  {
    "[Error] " + text + (if count > 1 then " (x" + IntToStr(count) + ")" else "")
  }

  /** What the log holds: its lines, the last text, when it came and how
      often it came in a row. */
  datatype LogState = LogState(lines: seq<string>, last: Option<string>, lastTime: real, lastCount: int)

  const EmptyLog := LogState([], None, 0.0, 0)

  /** Invariant: at most five lines, a repeat count of at most five, and once
      a text came the last line shows it with its count. */
  predicate ValidLog(s: LogState) {
    |s.lines| <= MaxLines && 0 <= s.lastCount <= MaxRepeat
    && (s.last.Some? ==> s.lines != [] && 1 <= s.lastCount
                         && s.lines[|s.lines| - 1] == ErrorLine(s.last.value, s.lastCount))
  }

  /** The same text again, within the merge window, with a line to rewrite. */
  predicate IsRepeat(s: LogState, text: string, now: real) {
    s.last == Some(text) && now - s.lastTime < MergeSeconds && s.lines != []
  }

  /** One `_append_error_line(text)` at time `now`, on a log with a stack. */
  function Appended(s: LogState, text: string, now: real): LogState {
    if IsRepeat(s, text, now) then
      var c := if s.lastCount < MaxRepeat then s.lastCount + 1 else s.lastCount;
      LogState(s.lines[..|s.lines| - 1] + [ErrorLine(text, c)], s.last, now, c)
    else if |s.lines| < MaxLines then
      LogState(s.lines + [ErrorLine(text, 1)], Some(text), now, 1)
    else
      LogState(s.lines[1..] + [ErrorLine(text, 1)], Some(text), now, 1)
  }

  /** Appending keeps the invariant. */
  lemma AppendedValid(s: LogState, text: string, now: real)
    requires ValidLog(s)
    ensures ValidLog(Appended(s, text, now))
  {
  }

  /** A repeat rewrites only the last line; the count grows by one up to five. */
  lemma RepeatRewritesLast(s: LogState, text: string, now: real)
    requires ValidLog(s) && IsRepeat(s, text, now)
    ensures var r := Appended(s, text, now);
            |r.lines| == |s.lines| && r.lines[..|r.lines| - 1] == s.lines[..|s.lines| - 1]
            && r.lastCount == (if s.lastCount < MaxRepeat then s.lastCount + 1 else MaxRepeat)
            && r.lines[|r.lines| - 1] == ErrorLine(text, r.lastCount) && r.lastTime == now
  {
  }

  /** New text starts a new line with no suffix: appended while there is
      room, otherwise the oldest line goes and the rest move up. */
  lemma NewTextAddsLine(s: LogState, text: string, now: real)
    requires ValidLog(s) && !IsRepeat(s, text, now)
    ensures var r := Appended(s, text, now);
            r.last == Some(text) && r.lastCount == 1
            && r.lines == (if |s.lines| < MaxLines then s.lines else s.lines[1..]) + ["[Error] " + text]
  {
  }

  /** `k` appends of the same text at the given times. */
  function AppendTimes(s: LogState, text: string, times: seq<real>): LogState {
    if times == [] then s else Appended(AppendTimes(s, text, times[..|times| - 1]), text, times[|times| - 1])
  }

  /** Repeats that each come within the window of the one before, the first
      within the window of `start`. */
  predicate CloseTimes(start: real, times: seq<real>) {
    times == [] ||
    (CloseTimes(start, times[..|times| - 1])
     && times[|times| - 1] - (if |times| == 1 then start else times[|times| - 2]) < MergeSeconds)
  }

  /** A burst of repeats keeps the line count, and the count reaches at most
      five: the last line reads the text with `min(count + k, 5)`. */
  lemma {:induction false} BurstCapsCount(s: LogState, text: string, times: seq<real>)
    requires ValidLog(s) && s.last == Some(text) && CloseTimes(s.lastTime, times)
    ensures var r := AppendTimes(s, text, times);
            var c := if s.lastCount + |times| < MaxRepeat then s.lastCount + |times| else MaxRepeat;
            ValidLog(r) && |r.lines| == |s.lines| && r.last == Some(text) && r.lastCount == c
            && r.lines[..|r.lines| - 1] == s.lines[..|s.lines| - 1]
            && r.lines[|r.lines| - 1] == ErrorLine(text, c)
            && (times != [] ==> r.lastTime == times[|times| - 1])
  {
    if times != [] {
      var pre := times[..|times| - 1];
      BurstCapsCount(s, text, pre);
      var m := AppendTimes(s, text, pre);
      assert m.lastTime == if pre == [] then s.lastTime else pre[|pre| - 1];
      RepeatRewritesLast(m, text, times[|times| - 1]);
    }
  }

  /** The error log of the main window; without its stack every append is
      ignored. */
  class ErrorLog {
    const hasStack: bool
    var lines: seq<string>
    var last: Option<string>
    var lastTime: real
    var lastCount: int

    function State(): LogState
      reads this
    {
      LogState(lines, last, lastTime, lastCount)
    }

    ghost predicate Valid()
      reads this
    {
      ValidLog(State())
    }

    constructor (hasStack: bool)
      ensures this.hasStack == hasStack && State() == EmptyLog && Valid()
    {
      this.hasStack := hasStack;
      lines := [];
      last := None;
      lastTime := 0.0;
      lastCount := 0;
    }

    /** `_append_error_line(text)` at time `now`. */
    method Append(text: string, now: real)
      requires Valid()
      modifies this
      ensures Valid()
      ensures State() == if hasStack then Appended(old(State()), text, now) else old(State())
    {
      ghost var s0 := State();
      AppendedValid(s0, text, now);
      if !hasStack {
        return;
      }
      if last == Some(text) && now - lastTime < MergeSeconds && lines != [] {
        lastTime := now;
        if lastCount < MaxRepeat {
          lastCount := lastCount + 1;
        }
        lines := lines[|lines| - 1 := ErrorLine(text, lastCount)];
        assert lines == s0.lines[..|s0.lines| - 1] + [ErrorLine(text, lastCount)];
        return;
      }
      last := Some(text);
      lastTime := now;
      lastCount := 1;
      if |lines| < MaxLines {
        lines := lines + [ErrorLine(text, 1)];
        return;
      }
      // The log is full: each of the first four lines takes the next one's text.
      ghost var prev := lines;
      var i := 0;
      while i < MaxLines - 1
        invariant 0 <= i <= MaxLines - 1 && |lines| == MaxLines
        invariant last == Some(text) && lastTime == now && lastCount == 1
        invariant forall j :: 0 <= j < i ==> lines[j] == prev[j + 1]
        invariant forall j :: i <= j < MaxLines ==> lines[j] == prev[j]
      {
        lines := lines[i := lines[i + 1]];
        i := i + 1;
      }
      lines := lines[MaxLines - 1 := ErrorLine(text, 1)];
      assert lines == prev[1..] + [ErrorLine(text, 1)];
    }
  }

  // ---------------------------------------------------------------- AMR cards

  /** `_amr_id_of(it, idx)`: the first truthy id key, else "AMR-{idx+1}". */
  function AmrIdOf(it: Json, idx: nat): (r: string)
    ensures |r| > 0
  {
    Str(Or(Or(Or(Or(Get(it, "robotId"), Get(it, "amrId")), Get(it, "id")), Get(it, "name")),
           JStr("AMR-" + NatToStr(idx + 1))))
  }

  /** The id keys are tried in order; the first truthy one is shown with
      `str()`, and a record with none of them is named by its position. */
  lemma AmrIdFallbacks(it: Json, idx: nat)
    ensures Truthy(Get(it, "robotId")) ==> AmrIdOf(it, idx) == Str(Get(it, "robotId"))
    ensures !Truthy(Get(it, "robotId")) && Truthy(Get(it, "amrId")) ==> AmrIdOf(it, idx) == Str(Get(it, "amrId"))
    ensures !Truthy(Get(it, "robotId")) && !Truthy(Get(it, "amrId")) && Truthy(Get(it, "id")) ==>
              AmrIdOf(it, idx) == Str(Get(it, "id"))
    ensures (!Truthy(Get(it, "robotId")) && !Truthy(Get(it, "amrId")) && !Truthy(Get(it, "id"))
             && Truthy(Get(it, "name"))) ==> AmrIdOf(it, idx) == Str(Get(it, "name"))
    ensures (!Truthy(Get(it, "robotId")) && !Truthy(Get(it, "amrId")) && !Truthy(Get(it, "id"))
             && !Truthy(Get(it, "name"))) ==> AmrIdOf(it, idx) == "AMR-" + NatToStr(idx + 1)
  {
  }

  /** A card: the id it was built with and the record it was last updated
      with; its models show `CardOf` of that record. */
  datatype CardState = CardState(amrId: string, record: Json)

  function ViewOf(c: CardState): CardView {
    CardOf(c.record)
  }

  type Cards = map<string, CardState>

  const PlaceholderPrefix := "__placeholder_"

  predicate IsPlaceholder(key: string) {
    StartsWith(key, PlaceholderPrefix)
  }

  /** The record a placeholder card is filled from. */
  const PlaceholderRecord := JObj([("status", JNull), ("liftStatus", JNull), ("containerCode", JNull),
                                   ("batteryLevel", JInt(0))])

  /** A placeholder card shows blanks and an empty bar. */
  lemma PlaceholderRecordIsBlank()
    ensures CardOf(PlaceholderRecord) == BlankView
  {
    PlaceholderGets();
    FirstPresentNone(PlaceholderRecord, StatusKeys);
    FirstPresentNone(PlaceholderRecord, LiftKeys);
    FirstPresentNone(PlaceholderRecord, RackKeys);
    FirstPresentNone(PlaceholderRecord, ["workingType", "missionType", "mission"]);
    assert FirstPresent(PlaceholderRecord, BatteryKeys) == JInt(0);
    NullRecordIsBlank(PlaceholderRecord);
  }

  /** The placeholder record binds only `batteryLevel` to a non-null value. */
  lemma PlaceholderGets()
    ensures forall k :: k != "batteryLevel" ==> Get(PlaceholderRecord, k) == JNull
    ensures Get(PlaceholderRecord, "batteryLevel") == JInt(0)
  {
    var pre := [("status", JNull), ("liftStatus", JNull), ("containerCode", JNull)];
    assert PlaceholderRecord.fields == pre + [("batteryLevel", JInt(0))];
    forall k | k != "batteryLevel"
      ensures Get(PlaceholderRecord, k) == JNull
    {
      LookupSnoc(pre, "batteryLevel", JInt(0), k);
      LookupAllNull(pre, k);
    }
    LookupSnoc(pre, "batteryLevel", JInt(0), "batteryLevel");
  }

  lemma {:induction false} LookupAllNull(fields: seq<(string, Json)>, k: string)
    requires forall i :: 0 <= i < |fields| ==> fields[i].1 == JNull
    ensures Lookup(fields, k) == JNull
  {
    if fields != [] {
      LookupAllNull(fields[..|fields| - 1], k);
    }
  }

  /** The key of the `i`-th placeholder (from 1). */
  function PlaceholderKey(i: nat): string {
    PlaceholderPrefix + NatToStr(i)
  }

  lemma PlaceholderKeyIsPlaceholder(i: nat)
    ensures IsPlaceholder(PlaceholderKey(i))
  {
    assert PlaceholderKey(i)[..|PlaceholderPrefix|] == PlaceholderPrefix;
  }

  /** `_show_placeholder_amr_cards(count)` over its first `n` steps. */
  function Placeholders(cards: Cards, n: nat): Cards {
    if n == 0 then cards
    else
      var c := Placeholders(cards, n - 1);
      if PlaceholderKey(n) in c then c
      else c[PlaceholderKey(n) := CardState("AMR " + NatToStr(n), PlaceholderRecord)]
  }

  /** Placeholders only add cards: every old card stays as it was, the keys
      `__placeholder_1` .. `__placeholder_n` are all present, and no other key
      is added. */
  lemma {:induction false} PlaceholdersAdd(cards: Cards, n: nat)
    ensures var r := Placeholders(cards, n);
            (forall k :: k in cards ==> k in r && r[k] == cards[k])
            && (forall k :: k in r <==> k in cards || exists i :: 1 <= i <= n && k == PlaceholderKey(i))
  {
    if n > 0 {
      PlaceholdersAdd(cards, n - 1);
    }
  }

  /** A record dictionary's id and the record itself. */
  function IdEntry(it: Json, i: nat): (string, Json) {
    (AmrIdOf(it, i), it)
  }

  /** One step of the item loop: the card under the id is kept (or built
      with that id) and updated with the record. */
  function Insert(c: Cards, p: (string, Json)): Cards {
    c[p.0 := CardState(if p.0 in c then c[p.0].amrId else p.0, p.1)]
  }

  /** The item loop over a sequence of (id, record) pairs. */
  function InsertAll(c: Cards, ps: seq<(string, Json)>): Cards {
    if ps == [] then c else Insert(InsertAll(c, ps[..|ps| - 1]), ps[|ps| - 1])
  }

  /** The ids of the pairs. */
  function Firsts(ps: seq<(string, Json)>): set<string> {
    if ps == [] then {} else Firsts(ps[..|ps| - 1]) + {ps[|ps| - 1].0}
  }

  lemma InsertAllSnoc(c: Cards, ps: seq<(string, Json)>, p: (string, Json))
    ensures InsertAll(c, ps + [p]) == Insert(InsertAll(c, ps), p)
    ensures Firsts(ps + [p]) == Firsts(ps) + {p.0}
  {
    assert (ps + [p])[..|ps|] == ps;
  }

  lemma {:induction false} FirstsAt(ps: seq<(string, Json)>, k: string)
    ensures k in Firsts(ps) <==> exists j :: 0 <= j < |ps| && ps[j].0 == k
  {
    if ps != [] {
      var pre := ps[..|ps| - 1];
      FirstsAt(pre, k);
      assert forall j :: 0 <= j < |pre| ==> pre[j] == ps[j];
    }
  }

  /** After the item loop the keys are the old keys and the ids, and a card
      whose key is no id is as it was. */
  lemma {:induction false} InsertAllKeys(c: Cards, ps: seq<(string, Json)>, k: string)
    ensures k in InsertAll(c, ps) <==> k in c || k in Firsts(ps)
    ensures k in c && k !in Firsts(ps) ==> InsertAll(c, ps)[k] == c[k]
  {
    if ps != [] {
      InsertAllKeys(c, ps[..|ps| - 1], k);
    }
  }

  /** An id's card holds the last record with that id. */
  lemma {:induction false} InsertAllLast(c: Cards, ps: seq<(string, Json)>, j: nat)
    requires j < |ps|
    requires forall l :: j < l < |ps| ==> ps[l].0 != ps[j].0
    ensures ps[j].0 in InsertAll(c, ps) && InsertAll(c, ps)[ps[j].0].record == ps[j].1
  {
    if j < |ps| - 1 {
      var pre := ps[..|ps| - 1];
      assert pre[j] == ps[j];
      assert forall l :: j < l < |pre| ==> pre[l] == ps[l];
      InsertAllLast(c, pre, j);
    }
  }

  /** The clean-up after a non-empty list: placeholders go, then every real
      id that was not seen. */
  function Prune(c: Cards, seen: set<string>): Cards {
    map k | k in c && !IsPlaceholder(k) && k in seen :: c[k]
  }

  /** Every remaining card rebuilt under its key and updated with `{}`. */
  function Rebuilt(c: Cards): Cards {
    map k | k in c :: CardState(k, JObj([]))
  }

  predicate HasPlaceholder(c: Cards) {
    exists k :: k in c && IsPlaceholder(k)
  }

  /** Pruning, then rebuilding when a placeholder was among the cards. */
  function Cleanup(c: Cards, seen: set<string>): Cards {
    if HasPlaceholder(c) then Rebuilt(Prune(c, seen)) else Prune(c, seen)
  }

  /** The clean-up keeps exactly the seen real ids; a kept card holds its
      record, or `{}` after a rebuild. */
  lemma CleanupFacts(c: Cards, seen: set<string>, k: string)
    ensures k in Cleanup(c, seen) <==> k in c && !IsPlaceholder(k) && k in seen
    ensures k in Cleanup(c, seen) ==>
              Cleanup(c, seen)[k].record == (if HasPlaceholder(c) then JObj([]) else c[k].record)
  {
  }

  /** `_sync_amr_cards(items)` on the card table; without the list stack it
      does nothing. */
  function SyncSpec(hasStack: bool, cards: Cards, items: Json): Cards
    requires items.JList? ==> forall i :: 0 <= i < |items.items| ==> items.items[i].JObj?
  {
    var arr := if items.JList? then items.items else [];
    var ps := MapIndexed(arr, |arr|, IdEntry);
    if !hasStack then cards
    else if arr == [] then InsertAll(cards, ps)
    else Cleanup(InsertAll(cards, ps), Firsts(ps))
  }

  /** After a non-empty list the cards are exactly the list's ids that are not
      placeholder keys. */
  lemma SyncKeys(cards: Cards, items: Json, k: string)
    requires items.JList? && items.items != []
    requires forall i :: 0 <= i < |items.items| ==> items.items[i].JObj?
    ensures k in SyncSpec(true, cards, items) <==>
              !IsPlaceholder(k) && exists i :: 0 <= i < |items.items| && AmrIdOf(items.items[i], i) == k
  {
    var arr := items.items;
    var ps := MapIndexed(arr, |arr|, IdEntry);
    InsertAllKeys(cards, ps, k);
    FirstsAt(ps, k);
    CleanupFacts(InsertAll(cards, ps), Firsts(ps), k);
    if exists j :: 0 <= j < |ps| && ps[j].0 == k {
      var j :| 0 <= j < |ps| && ps[j].0 == k;
      MapIndexedAt(arr, |arr|, IdEntry, j);
    }
    if exists i :: 0 <= i < |arr| && AmrIdOf(arr[i], i) == k {
      var i :| 0 <= i < |arr| && AmrIdOf(arr[i], i) == k;
      MapIndexedAt(arr, |arr|, IdEntry, i);
    }
  }

  /** An empty or non-list input changes nothing. */
  lemma SyncEmptyKeepsCards(hasStack: bool, cards: Cards, items: Json)
    requires !items.JList? || items.items == []
    ensures SyncSpec(hasStack, cards, items) == cards
  {
  }

  /** When placeholders were on show, the first real list rebuilds every
      card from `{}`, so it shows blanks; otherwise a listed id shows its last
      record. */
  lemma SyncViews(cards: Cards, items: Json, j: nat)
    requires items.JList? && j < |items.items|
    requires forall i :: 0 <= i < |items.items| ==> items.items[i].JObj?
    requires forall l :: j < l < |items.items| ==> AmrIdOf(items.items[l], l) != AmrIdOf(items.items[j], j)
    requires !IsPlaceholder(AmrIdOf(items.items[j], j))
    ensures var id := AmrIdOf(items.items[j], j);
            var c := InsertAll(cards, MapIndexed(items.items, |items.items|, IdEntry));
            var r := SyncSpec(true, cards, items);
            id in r
            && ViewOf(r[id]) == (if HasPlaceholder(c) then BlankView else CardOf(items.items[j]))
  {
    var arr := items.items;
    var ps := MapIndexed(arr, |arr|, IdEntry);
    var id := AmrIdOf(arr[j], j);
    forall l | j < l < |ps|
      ensures ps[l].0 != ps[j].0
    {
      MapIndexedAt(arr, |arr|, IdEntry, l);
      MapIndexedAt(arr, |arr|, IdEntry, j);
    }
    MapIndexedAt(arr, |arr|, IdEntry, j);
    InsertAllLast(cards, ps, j);
    FirstsAt(ps, id);
    CleanupFacts(InsertAll(cards, ps), Firsts(ps), id);
    BlankRecord();
  }

  /** The card table of the main window. */
  class CardTable {
    const hasStack: bool
    var cards: Cards

    constructor (hasStack: bool)
      ensures this.hasStack == hasStack && cards == map[]
    {
      this.hasStack := hasStack;
      cards := map[];
    }

    /** `_show_placeholder_amr_cards(count)` */
    method ShowPlaceholders(count: nat)
      modifies this
      ensures cards == if hasStack then Placeholders(old(cards), count) else old(cards)
    {
      if !hasStack {
        return;
      }
      ghost var c0 := cards;
      var i := 0;
      while i < count
        invariant 0 <= i <= count && cards == Placeholders(c0, i)
      {
        var pid := PlaceholderKey(i + 1);
        if pid !in cards {
          cards := cards[pid := CardState("AMR " + NatToStr(i + 1), PlaceholderRecord)];
        }
        i := i + 1;
      }
    }

    /** `_sync_amr_cards(items)` */
    method Sync(items: Json)
      requires items.JList? ==> forall i :: 0 <= i < |items.items| ==> items.items[i].JObj?
      modifies this
      ensures cards == SyncSpec(hasStack, old(cards), items)
    {
      if !hasStack {
        return;
      }
      var arr := if items.JList? then items.items else [];
      var seen := UpdateCards(arr);
      if arr != [] {
        var removedPlaceholder := HasPlaceholder(cards);
        cards := Prune(cards, seen);
        if removedPlaceholder {
          cards := Rebuilt(cards);
        }
      }
    }

    /** The item loop of `_sync_amr_cards`: a card per record id, created
        when missing, updated with each record in turn; returns the ids. */
    method UpdateCards(arr: seq<Json>) returns (seen: set<string>)
      modifies this
      ensures cards == InsertAll(old(cards), MapIndexed(arr, |arr|, IdEntry))
      ensures seen == Firsts(MapIndexed(arr, |arr|, IdEntry))
    {
      ghost var c0 := cards;
      seen := {};
      var i := 0;
      while i < |arr|
        invariant 0 <= i <= |arr|
        invariant cards == InsertAll(c0, MapIndexed(arr, i, IdEntry))
        invariant seen == Firsts(MapIndexed(arr, i, IdEntry))
      {
        var amrId := AmrIdOf(arr[i], i);
        InsertAllSnoc(c0, MapIndexed(arr, i, IdEntry), IdEntry(arr[i], i));
        seen := seen + {amrId};
        var built := if amrId in cards then cards[amrId].amrId else amrId;
        cards := cards[amrId := CardState(built, arr[i])];
        i := i + 1;
      }
    }
  }
}
