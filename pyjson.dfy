/** Polled JSON values as the Python code sees them: `None`, `bool`, `int`,
    `str`, `list` and `dict`, with Python truthiness, `dict.get`, `str()` and
    the numeric conversions `int()` and `float()`.

    A `dict` keeps its insertion order (seq of key/value pairs), as Python's
    dictionaries do. */
module PyJson {
  import opened PyText

  datatype Json =
    | JNull
    | JBool(b: bool)
    | JInt(i: int)
    | JStr(s: string)
    | JList(items: seq<Json>)
    | JObj(fields: seq<(string, Json)>)

  /** Python truthiness: `None`, `False`, `0`, `""`, `[]` and `{}` are falsy. */
  predicate Truthy(j: Json) {
    match j
    case JNull => false
    case JBool(b) => b
    case JInt(i) => i != 0
    case JStr(s) => s != ""
    case JList(l) => l != []
    case JObj(f) => f != []
  }

  /** Python `a or b`. */
  function Or(a: Json, b: Json): Json {
    if Truthy(a) then a else b
  }

  /** `isinstance(v, (int, float))`: `bool` is a subclass of `int`. */
  predicate IsNumber(j: Json) { j.JInt? || j.JBool? }

  /** Python `int(v)` for a number. */
  function NumberValue(j: Json): int
    requires IsNumber(j)
  {
    match j
    case JInt(i) => i
    case JBool(b) => if b then 1 else 0
  }

  /** `k in d` over the entries. */
  predicate KeyIn(fields: seq<(string, Json)>, k: string) {
    fields != [] && (fields[|fields| - 1].0 == k || KeyIn(fields[..|fields| - 1], k))
  }

  /** `k in d` */
  predicate HasKey(o: Json, k: string) {
    o.JObj? && KeyIn(o.fields, k)
  }

  /** The value bound to `k`, `None` when it is missing; a repeated key reads
      its last binding. */
  function Lookup(fields: seq<(string, Json)>, k: string): Json {
    if fields == [] then JNull
    else if fields[|fields| - 1].0 == k then fields[|fields| - 1].1
    else Lookup(fields[..|fields| - 1], k)
  }

  /** A missing key reads `None`. */
  lemma {:induction false} LookupMissing(fields: seq<(string, Json)>, k: string)
    requires !KeyIn(fields, k)
    ensures Lookup(fields, k) == JNull
  {
    if fields != [] {
      LookupMissing(fields[..|fields| - 1], k);
    }
  }

  /** Reading a dictionary after a new last entry `(k, v)`. */
  lemma LookupSnoc(fields: seq<(string, Json)>, k: string, v: Json, x: string)
    ensures Lookup(fields + [(k, v)], x) == if x == k then v else Lookup(fields, x)
    ensures KeyIn(fields + [(k, v)], x) <==> x == k || KeyIn(fields, x)
  {
    assert (fields + [(k, v)])[..|fields|] == fields;
  }

  /** Reading a one-entry dictionary. */
  lemma GetSingle(k: string, v: Json, x: string)
    ensures Get(JObj([(k, v)]), x) == if x == k then v else JNull
    ensures HasKey(JObj([(k, v)]), x) <==> x == k
  {
    assert [(k, v)] == [] + [(k, v)];
    LookupSnoc([], k, v, x);
  }

  /** Reading a two-entry dictionary with distinct keys. */
  lemma GetPair(k1: string, v1: Json, k2: string, v2: Json)
    requires k1 != k2
    ensures Get(JObj([(k1, v1), (k2, v2)]), k1) == v1 && Get(JObj([(k1, v1), (k2, v2)]), k2) == v2
    ensures HasKey(JObj([(k1, v1), (k2, v2)]), k1) && HasKey(JObj([(k1, v1), (k2, v2)]), k2)
    ensures Keys([(k1, v1), (k2, v2)]) == [k1, k2]
  {
    assert [(k1, v1), (k2, v2)] == [(k1, v1)] + [(k2, v2)];
    GetSingle(k1, v1, k1);
    GetSingle(k1, v1, k2);
    LookupSnoc([(k1, v1)], k2, v2, k1);
    LookupSnoc([(k1, v1)], k2, v2, k2);
    assert Keys([(k1, v1), (k2, v2)]) == [k1, k2];
  }

  /** Reading any key of a two-entry dictionary with distinct keys. */
  lemma GetPairAt(k1: string, v1: Json, k2: string, v2: Json, x: string)
    requires k1 != k2
    ensures Get(JObj([(k1, v1), (k2, v2)]), x) == if x == k1 then v1 else if x == k2 then v2 else JNull
    ensures HasKey(JObj([(k1, v1), (k2, v2)]), x) <==> x == k1 || x == k2
  {
    assert [(k1, v1), (k2, v2)] == [(k1, v1)] + [(k2, v2)];
    GetSingle(k1, v1, x);
    LookupSnoc([(k1, v1)], k2, v2, x);
  }

  /** `d.get(k)`: `None` for a missing key. Only called on dictionaries. */
  function Get(o: Json, k: string): Json {
    if o.JObj? then Lookup(o.fields, k) else JNull
  }

  /** `d.get(k, default)` */
  function GetOr(o: Json, k: string, default: Json): Json {
    if HasKey(o, k) then Get(o, k) else default
  }

  /** `d[k] = v` on an ordered dictionary: an existing key keeps its place,
      a new key goes last. */
  function Put(fields: seq<(string, Json)>, k: string, v: Json): seq<(string, Json)> {
    if KeyIn(fields, k) then Rebind(fields, k, v) else fields + [(k, v)]
  }

  /** Every entry for `k` rebound to `v`, in place. */
  function Rebind(fields: seq<(string, Json)>, k: string, v: Json): (r: seq<(string, Json)>)
    ensures |r| == |fields|
  {
    if fields == [] then []
    else
      var l := fields[|fields| - 1];
      Rebind(fields[..|fields| - 1], k, v) + [if l.0 == k then (k, v) else l]
  }

  /** Rebinding keeps the keys and changes what `k` reads, when present. */
  lemma {:induction false} RebindFacts(fields: seq<(string, Json)>, k: string, v: Json, x: string)
    ensures KeyIn(Rebind(fields, k, v), x) <==> KeyIn(fields, x)
    ensures Lookup(Rebind(fields, k, v), x) == if x == k && KeyIn(fields, k) then v else Lookup(fields, x)
  {
    if fields != [] {
      var pre := fields[..|fields| - 1];
      var l := fields[|fields| - 1];
      var r := Rebind(fields, k, v);
      assert r[..|r| - 1] == Rebind(pre, k, v);
      RebindFacts(pre, k, v, x);
      if x == k && !KeyIn(fields, k) {
        LookupMissing(fields, k);
      }
    }
  }

  /** After `d[k] = v`, `k` reads `v`, every other key reads as before, and
      `k` is the only key added. */
  lemma PutLookup(fields: seq<(string, Json)>, k: string, v: Json, x: string)
    ensures Lookup(Put(fields, k, v), x) == if x == k then v else Lookup(fields, x)
    ensures KeyIn(Put(fields, k, v), x) <==> KeyIn(fields, x) || x == k
  {
    if KeyIn(fields, k) {
      RebindFacts(fields, k, v, x);
    } else {
      LookupSnoc(fields, k, v, x);
    }
  }

  /** `dict(pairs)`: each pair assigned in turn. */
  function PutAll(ps: seq<(string, Json)>): seq<(string, Json)> {
    if ps == [] then [] else Put(PutAll(ps[..|ps| - 1]), ps[|ps| - 1].0, ps[|ps| - 1].1)
  }

  /** One more pair is one more assignment. */
  lemma PutAllSnoc(ps: seq<(string, Json)>, p: (string, Json))
    ensures PutAll(ps + [p]) == Put(PutAll(ps), p.0, p.1)
  {
    assert (ps + [p])[..|ps|] == ps;
  }

  /** `dict(pairs)` holds exactly the keys of its pairs. */
  lemma {:induction false} PutAllKeys(ps: seq<(string, Json)>, x: string)
    ensures KeyIn(PutAll(ps), x) <==> exists j :: 0 <= j < |ps| && ps[j].0 == x
  {
    if ps != [] {
      var pre := ps[..|ps| - 1];
      PutAllKeys(pre, x);
      PutLookup(PutAll(pre), ps[|ps| - 1].0, ps[|ps| - 1].1, x);
      assert forall j :: 0 <= j < |pre| ==> pre[j] == ps[j];
    }
  }

  /** In `dict(pairs)` a repeated key holds the value of its last pair. */
  lemma {:induction false} PutAllLast(ps: seq<(string, Json)>, j: nat)
    requires j < |ps|
    requires forall l :: j < l < |ps| ==> ps[l].0 != ps[j].0
    ensures Lookup(PutAll(ps), ps[j].0) == ps[j].1
  {
    var pre := ps[..|ps| - 1];
    PutLookup(PutAll(pre), ps[|ps| - 1].0, ps[|ps| - 1].1, ps[j].0);
    if j < |ps| - 1 {
      assert pre[j] == ps[j];
      assert forall l :: j < l < |pre| ==> pre[l] == ps[l];
      PutAllLast(pre, j);
    }
  }

  /** `f(xs[j], j)` for the first `n` items, in order. */
  function MapIndexed(xs: seq<Json>, n: nat, f: (Json, nat) -> (string, Json)): (r: seq<(string, Json)>)
    requires n <= |xs|
    ensures |r| == n
  {
    if n == 0 then [] else MapIndexed(xs, n - 1, f) + [f(xs[n - 1], n - 1)]
  }

  lemma {:induction false} MapIndexedAt(xs: seq<Json>, n: nat, f: (Json, nat) -> (string, Json), j: nat)
    requires j < n <= |xs|
    ensures MapIndexed(xs, n, f)[j] == f(xs[j], j)
  {
    if j < n - 1 {
      MapIndexedAt(xs, n - 1, f, j);
    }
  }

  /** Keys in insertion order. */
  function Keys(fields: seq<(string, Json)>): (r: seq<string>)
    ensures |r| == |fields|
    ensures forall i :: 0 <= i < |fields| ==> r[i] == fields[i].0
  {
    if fields == [] then [] else Keys(fields[..|fields| - 1]) + [fields[|fields| - 1].0]
  }

  /** Python `repr(v)`; string escapes and the choice of quote are not modelled. */
  function Repr(j: Json): string
    decreases j, 1
  {
    match j
    case JNull => "None"
    case JBool(b) => if b then "True" else "False"
    case JInt(i) => IntToStr(i)
    case JStr(s) => "'" + s + "'"
    case JList(items) => "[" + ReprItems(j, 0) + "]"
    case JObj(fields) => "{" + ReprFields(j, 0) + "}"
  }

  /** The items of list `j` from index `k` on, comma separated. */
  function ReprItems(j: Json, k: nat): string
    requires j.JList?
    decreases j, 0, |j.items| - k
  {
    if k >= |j.items| then ""
    else (if k > 0 then ", " else "") + Repr(j.items[k]) + ReprItems(j, k + 1)
  }

  /** The entries of dictionary `j` from index `k` on, comma separated. */
  function ReprFields(j: Json, k: nat): string
    requires j.JObj?
    decreases j, 0, |j.fields| - k
  {
    if k >= |j.fields| then ""
    else (if k > 0 then ", " else "") + "'" + j.fields[k].0 + "': " + Repr(j.fields[k].1) + ReprFields(j, k + 1)
  }

  /** A list or a dict prints between its brackets. */
  lemma ReprBrackets(j: Json)
    requires j.JList? || j.JObj?
    ensures var r := Repr(j);
            |r| >= 2 && r[0] == (if j.JList? then '[' else '{') && r[|r| - 1] == (if j.JList? then ']' else '}')
  {
  }

  /** Python `str(v)` */
  function Str(j: Json): (r: string)
    ensures j != JStr("") ==> |r| > 0
  {
    if j.JStr? then j.s else Repr(j)
  }

  /** Python `float(v)`; `None` stands for the `TypeError`/`ValueError` it raises. */
  function PyFloat(j: Json): Option<real> {
    match j
    case JBool(b) => Some(if b then 1.0 else 0.0)
    case JInt(i) => Some(i as real)
    case JStr(s) => ParseReal(s)
    case _ => None
  }

  function StrJ(s: string): Json { JStr(s) }
}
