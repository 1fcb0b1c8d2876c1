/** The polling client of the operation server: base-URL and interval
    normalisation, the alive flag with its change events, the outcome of one
    POST, the ConnectionInfo fan-out and the callback emitters.

    The network is a parameter: each POST is given its `HttpOutcome`. Callbacks
    are identified by the number they were registered under; an emitter
    records which callback it called with which event. */
module Client {
  import opened PyText
  import opened PyJson

  const DefaultBaseUrl: string := "http://172.16.110.67:49000/"
  const DefaultInterval: real := 0.5
  const DefaultMapCode: string := "RR_Floor"

  /** `url.rstrip("/") + "/"` */
  function NormBaseUrl(url: string): (r: string)
    ensures |r| > 0 && r[|r| - 1] == '/'
    ensures |r| == 1 || r[|r| - 2] != '/'
    ensures r[..|r| - 1] == RStripChar(url, '/')
  {
    RStripChar(url, '/') + "/"
  }

  /** Normalising twice is normalising once. */
  lemma NormBaseUrlIdempotent(url: string)
    ensures NormBaseUrl(NormBaseUrl(url)) == NormBaseUrl(url)
  {
    var r := NormBaseUrl(url);
    var s := RStripChar(url, '/');
    assert r[..|r| - 1] == s;
    if s == [] {
      assert r == "/";
    } else {
      assert RStripChar(r[..|r| - 1], '/') == s;
    }
  }

  /** A URL differing only in its trailing slashes normalises the same. */
  lemma NormBaseUrlIgnoresTrailingSlashes(url: string, n: nat)
    ensures NormBaseUrl(url + Slashes(n)) == NormBaseUrl(url)
  {
    RStripSlashes(url, n);
  }

  function Slashes(n: nat): (r: string)
    ensures |r| == n && forall i :: 0 <= i < n ==> r[i] == '/'
  {
    if n == 0 then [] else Slashes(n - 1) + "/"
  }

  lemma {:induction false} RStripSlashes(url: string, n: nat)
    ensures RStripChar(url + Slashes(n), '/') == RStripChar(url, '/')
  {
    if n > 0 {
      var s := url + Slashes(n);
      assert Slashes(n) == Slashes(n - 1) + "/";
      assert s[|s| - 1] == '/';
      assert s[..|s| - 1] == url + Slashes(n - 1);
      assert RStripChar(s, '/') == RStripChar(s[..|s| - 1], '/');
      RStripSlashes(url, n - 1);
    } else {
      assert url + Slashes(n) == url;
    }
  }

  /** `max(0.05, float(interval))` */
  function PollInterval(interval: real): (r: real)
    ensures r >= 0.05
    ensures interval >= 0.05 ==> r == interval
    ensures interval < 0.05 ==> r == 0.05
  {
    if 0.05 >= interval then 0.05 else interval
  }

  /** The wait after one round: the rest of the interval, never negative. */
  function SleepFor(interval: real, elapsed: real): (r: real)
    ensures r >= 0.0
    ensures elapsed >= 0.0 ==> r <= interval || r == 0.0
    ensures elapsed <= interval ==> r + elapsed == interval
  {
    if 0.0 >= interval - elapsed then 0.0 else interval - elapsed
  }

  /** The URL of a POST: the base URL and the endpoint without leading slashes. */
  function RequestUrl(base: string, endpoint: string): (r: string)
    ensures |r| == |base| + |LStripChar(endpoint, '/')|
    ensures r[..|base|] == base
    ensures r[|base|..] == LStripChar(endpoint, '/')
  {
    base + LStripChar(endpoint, '/')
  }

  // ---------------------------------------------------------------- payloads

  const ConnectionInfo: string := "ConnectionInfo"
  const AmrInfo: string := "AMRInfo"
  const ContainerInfo: string := "ContainerInfo"
  const WorkingInfo: string := "WorkingInfo"
  const MissionInfo: string := "MissionInfo"
  const ReservationInfo: string := "ReservationInfo"

  /** `{"dataType": t, "mapCode": map}` */
  function SimplePayload(dataType: string, mapCode: string): Json {
    JObj([("dataType", JStr(dataType)), ("mapCode", JStr(mapCode))])
  }

  lemma SimplePayloadFields(dataType: string, mapCode: string)
    ensures var p := SimplePayload(dataType, mapCode);
            p.JObj? && Keys(p.fields) == ["dataType", "mapCode"]
            && Get(p, "dataType") == JStr(dataType) && Get(p, "mapCode") == JStr(mapCode)
  {
    GetPair("dataType", JStr(dataType), "mapCode", JStr(mapCode));
  }

  /** The object whose `kMReSStatus` decides the fan-out: `data[0]` of a
      non-empty list, `data` itself when it is a dictionary. */
  function InfoObject(data: Json): Json {
    if data.JList? && data.items != [] then data.items[0]
    else if data.JObj? then data
    else JNull
  }

  /** The requests `_post_connection_info` issues after the ConnectionInfo
      POST answered `res`, in order, or `None` where it raises (`res` truthy
      but not a dictionary: `res.get` fails). */
  function FollowUps(res: Option<Json>, mapCode: string): (r: Option<seq<Json>>)
    ensures res.None? || !Truthy(res.value) ==> r == Some([])
    ensures r.None? <==> res.Some? && Truthy(res.value) && !res.value.JObj?
  {
    match res
    case None => Some([])
    case Some(v) =>
      if !Truthy(v) then Some([])
      else if !v.JObj? then None
      else if !Truthy(GetOr(v, "success", JBool(false))) then Some([])
      else Some(FanOutList(KmresUp(v), mapCode))
  }

  /** `kmres_ok`: the info object is a dictionary with a truthy `kMReSStatus`. */
  predicate KmresUp(res: Json) {
    var info := InfoObject(Get(res, "data"));
    info.JObj? && Truthy(GetOr(info, "kMReSStatus", JBool(false)))
  }

  /** The follow-ups sent only while KMReS is up. */
  function KmresList(mapCode: string): seq<Json> {
    [SimplePayload(AmrInfo, mapCode), SimplePayload(ContainerInfo, mapCode), SimplePayload(WorkingInfo, mapCode)]
  }

  /** The follow-ups always sent. */
  function TailList(mapCode: string): seq<Json> {
    [SimplePayload(MissionInfo, mapCode), SimplePayload(ReservationInfo, mapCode)]
  }

  /** The fan-out after a successful ConnectionInfo answer. */
  function FanOutList(kmres: bool, mapCode: string): seq<Json> {
    (if kmres then KmresList(mapCode) else []) + TailList(mapCode)
  }

  /** A successful answer always leads to MissionInfo then ReservationInfo,
      preceded by AMRInfo, ContainerInfo and WorkingInfo exactly when the
      KMReS status of the info object is truthy. */
  lemma FollowUpsOrder(v: Json, mapCode: string)
    requires v.JObj? && Truthy(v) && Truthy(GetOr(v, "success", JBool(false)))
    ensures var r := FollowUps(Some(v), mapCode).value;
            var info := InfoObject(Get(v, "data"));
            var kmres := info.JObj? && Truthy(GetOr(info, "kMReSStatus", JBool(false)));
            |r| == (if kmres then 5 else 2)
            && r[|r| - 2] == SimplePayload(MissionInfo, mapCode)
            && r[|r| - 1] == SimplePayload(ReservationInfo, mapCode)
            && (kmres ==> r[..3] == [SimplePayload(AmrInfo, mapCode), SimplePayload(ContainerInfo, mapCode),
                                     SimplePayload(WorkingInfo, mapCode)])
  {
  }

  /** An unsuccessful answer issues nothing further. */
  lemma FailedAnswerStops(v: Json, mapCode: string)
    requires v.JObj? && !Truthy(GetOr(v, "success", JBool(false)))
    ensures FollowUps(Some(v), mapCode) == Some([])
  {
  }

  /** With `kMReSStatus` true on the first element of a data list, all five
      follow-ups go out. */
  lemma KmresOnFirstElement(mapCode: string)
    ensures var info := JObj([("kMReSStatus", JBool(true))]);
            var v := JObj([("success", JBool(true)), ("data", JList([info]))]);
            |FollowUps(Some(v), mapCode).value| == 5
  {
    var info := JObj([("kMReSStatus", JBool(true))]);
    var v := JObj([("success", JBool(true)), ("data", JList([info]))]);
    GetPair("success", JBool(true), "data", JList([info]));
    GetSingle("kMReSStatus", JBool(true), "kMReSStatus");
  }

  // ---------------------------------------------------------------- events

  /** What a POST gets back: it raised (connection failure or an HTTP error
      status), or a 2xx answer whose body parsed as JSON or not. */
  datatype HttpOutcome = Raised | Answered(body: Option<Json>)

  datatype Event =
    | AliveChange(alive: bool)
    | Request(endpoint: string, payload: Json)
    | Response(endpoint: string, payload: Json, data: Json)
    | Error(endpoint: string, payload: Json)

  /** One call of a callback: its registration number and the event. */
  datatype Call = Call(cb: nat, event: Event)

  /** The calls an emitter makes: every callback of the list, in order. */
  function Calls(cbs: seq<nat>, e: Event): seq<Call> {
    if cbs == [] then [] else [Call(cbs[0], e)] + Calls(cbs[1..], e)
  }

  /** Each callback of the list is called once, with the event, in list order. */
  lemma {:induction false} CallsAt(cbs: seq<nat>, e: Event)
    ensures |Calls(cbs, e)| == |cbs|
    ensures forall i :: 0 <= i < |cbs| ==> Calls(cbs, e)[i] == Call(cbs[i], e)
  {
    if cbs != [] {
      CallsAt(cbs[1..], e);
    }
  }

  /** The callback lists, one per event kind. */
  datatype Callbacks = Callbacks(alive: seq<nat>, request: seq<nat>, response: seq<nat>, error: seq<nat>)

  /** The alive changes a run of `set_alive` calls reports, starting from `alive`. */
  function AliveEdges(alive: bool, vals: seq<bool>): seq<bool>
    decreases |vals|
  {
    if vals == [] then []
    else (if vals[0] != alive then [vals[0]] else []) + AliveEdges(vals[0], vals[1..])
  }

  /** A run of equal values reports at most one change, and reports none
      when it repeats the current value. */
  lemma {:induction false} AliveRunReportsOnce(alive: bool, v: bool, n: nat)
    ensures AliveEdges(alive, Repeat(v, n)) == (if n > 0 && v != alive then [v] else [])
    decreases n
  {
    if n > 0 {
      assert Repeat(v, n)[1..] == Repeat(v, n - 1);
      AliveRunReportsOnce(v, v, n - 1);
    }
  }

  /** Consecutive reported changes alternate: no value is reported twice in a row. */
  lemma {:induction false} AliveEdgesAlternate(alive: bool, vals: seq<bool>)
    ensures var r := AliveEdges(alive, vals);
            (r != [] ==> r[0] != alive)
            && forall i :: 0 <= i < |r| - 1 ==> r[i] != r[i + 1]
    decreases |vals|
  {
    if vals != [] {
      AliveEdgesAlternate(vals[0], vals[1..]);
    }
  }

  /** The last value of a run, `alive` for an empty run. */
  function LastOr(alive: bool, vals: seq<bool>): bool {
    if vals == [] then alive else vals[|vals| - 1]
  }

  /** One more value reports a change exactly when it differs from the last one. */
  lemma {:induction false} AliveEdgesSnoc(alive: bool, vals: seq<bool>, v: bool)
    ensures AliveEdges(alive, vals + [v]) == AliveEdges(alive, vals) + (if v != LastOr(alive, vals) then [v] else [])
    decreases |vals|
  {
    if vals != [] {
      assert (vals + [v])[1..] == vals[1..] + [v];
      AliveEdgesSnoc(vals[0], vals[1..], v);
    } else {
      assert AliveEdges(v, []) == [];
    }
  }

  function Repeat(v: bool, n: nat): (r: seq<bool>)
    ensures |r| == n && forall i :: 0 <= i < n ==> r[i] == v
  {
    if n == 0 then [] else [v] + Repeat(v, n - 1)
  }

  // ---------------------------------------------------------------- the client

  class DigitalTwinClient {
    var baseUrl: string
    var interval: real
    var mapCode: string
    var isAlive: bool
    var cbs: Callbacks

    constructor (baseUrl: string, interval: real)
      ensures this.baseUrl == NormBaseUrl(baseUrl) && this.interval == PollInterval(interval)
      ensures mapCode == DefaultMapCode && !isAlive && cbs == Callbacks([], [], [], [])
    {
      this.baseUrl := NormBaseUrl(baseUrl);
      this.interval := PollInterval(interval);
      mapCode := DefaultMapCode;
      isAlive := false;
      cbs := Callbacks([], [], [], []);
    }

    method SetBaseUrl(url: string)
      modifies this
      ensures baseUrl == NormBaseUrl(url)
      ensures interval == old(interval) && mapCode == old(mapCode) && isAlive == old(isAlive) && cbs == old(cbs)
    {
      baseUrl := NormBaseUrl(url);
    }

    /** `add_on_*`: the callback gets the next registration number, `id`. */
    method AddOnAliveChange(id: nat)
      modifies this
      ensures cbs == old(cbs).(alive := old(cbs).alive + [id])
      ensures baseUrl == old(baseUrl) && mapCode == old(mapCode) && isAlive == old(isAlive)
    {
      cbs := cbs.(alive := cbs.alive + [id]);
    }

    method AddOnRequest(id: nat)
      modifies this
      ensures cbs == old(cbs).(request := old(cbs).request + [id])
      ensures baseUrl == old(baseUrl) && mapCode == old(mapCode) && isAlive == old(isAlive)
    {
      cbs := cbs.(request := cbs.request + [id]);
    }

    method AddOnResponse(id: nat)
      modifies this
      ensures cbs == old(cbs).(response := old(cbs).response + [id])
      ensures baseUrl == old(baseUrl) && mapCode == old(mapCode) && isAlive == old(isAlive)
    {
      cbs := cbs.(response := cbs.response + [id]);
    }

    method AddOnError(id: nat)
      modifies this
      ensures cbs == old(cbs).(error := old(cbs).error + [id])
      ensures baseUrl == old(baseUrl) && mapCode == old(mapCode) && isAlive == old(isAlive)
    {
      cbs := cbs.(error := cbs.error + [id]);
    }

    /** `start`: a running poller keeps its map code; polling itself is not modelled. */
    method Start(newMapCode: string, running: bool)
      modifies this
      ensures mapCode == (if running then old(mapCode) else newMapCode)
      ensures baseUrl == old(baseUrl) && isAlive == old(isAlive) && cbs == old(cbs)
    {
      if !running {
        mapCode := newMapCode;
      }
    }

    /** `notify_if_server_down` */
    function ServerDown(): (r: bool)
      reads this
      ensures r <==> !isAlive
    {
      !isAlive
    }

    /** `_set_alive`: the change callbacks fire only when the value changes. */
    method SetAlive(alive: bool, raises: nat -> bool) returns (calls: seq<Call>)
      modifies this
      ensures isAlive == alive
      ensures calls == (if old(isAlive) != alive then Calls(cbs.alive, AliveChange(alive)) else [])
      ensures baseUrl == old(baseUrl) && cbs == old(cbs) && mapCode == old(mapCode)
    {
      calls := [];
      if isAlive != alive {
        isAlive := alive;
        var logged;
        calls, logged := Emit(cbs.alive, AliveChange(alive), raises);
      }
    }

    /** `request_post_api`: the result is the parsed body (`{}` when it is not
        JSON) on success and `None` when the POST raised; `url` is where it
        was sent and `calls` the callback calls it made. */
    method RequestPostApi(endpoint: string, payload: Json, outcome: HttpOutcome, raises: nat -> bool)
      returns (r: Option<Json>, url: string, calls: seq<Call>)
      modifies this
      ensures r == PostResult(outcome) && url == RequestUrl(baseUrl, endpoint)
      ensures isAlive == outcome.Answered?
      ensures calls == PostCalls(cbs, old(isAlive), endpoint, payload, outcome)
      ensures baseUrl == old(baseUrl) && cbs == old(cbs) && mapCode == old(mapCode)
    {
      url := RequestUrl(baseUrl, endpoint);
      var c1, _ := Emit(cbs.request, Request(endpoint, payload), raises);
      match outcome
      case Raised =>
        var c2 := SetAlive(false, raises);
        var c3, _ := Emit(cbs.error, Error(endpoint, payload), raises);
        calls := c1 + c2 + c3;
        r := None;
      case Answered(body) =>
        var c2 := SetAlive(true, raises);
        var data := match body case Some(d) => d case None => JObj([]);
        var c3, _ := Emit(cbs.response, Response(endpoint, payload, data), raises);
        calls := c1 + c2 + c3;
        r := Some(data);
    }

    /** `_post_simple`: a DigitalTwin POST of `{dataType, mapCode}`. */
    method PostSimple(dataType: string, outcome: HttpOutcome, raises: nat -> bool)
      returns (post: (string, Json), calls: seq<Call>)
      modifies this
      ensures post == (RequestUrl(baseUrl, "DigitalTwin"), SimplePayload(dataType, mapCode))
      ensures isAlive == outcome.Answered?
      ensures calls == PostCalls(cbs, old(isAlive), "DigitalTwin", SimplePayload(dataType, mapCode), outcome)
      ensures baseUrl == old(baseUrl) && cbs == old(cbs) && mapCode == old(mapCode)
    {
      var payload := SimplePayload(dataType, mapCode);
      var _, url, c := RequestPostApi("DigitalTwin", payload, outcome, raises);
      post := (url, payload);
      calls := c;
    }

    /** `_post_connection_info`: the ConnectionInfo POST, then its follow-ups;
        request `k` of the round gets outcome `net(k)`, `posts` lists what
        was sent and `calls` the callback calls in order. `ok` is false
        where the source raises. Afterwards the client is alive exactly when
        the round's last request was answered. */
    method PostConnectionInfo(net: nat -> HttpOutcome, raises: nat -> bool)
      returns (ok: bool, posts: seq<(string, Json)>, calls: seq<seq<Call>>)
      modifies this
      ensures var f := FollowUps(PostResult(net(0)), mapCode);
              ok == f.Some?
              && posts == [(RequestUrl(baseUrl, "DigitalTwin"), SimplePayload(ConnectionInfo, mapCode))]
                          + (if ok then Posts(RequestUrl(baseUrl, "DigitalTwin"), f.value) else [])
      ensures var f := FollowUps(PostResult(net(0)), mapCode);
              calls == [PostCalls(cbs, old(isAlive), "DigitalTwin", SimplePayload(ConnectionInfo, mapCode), net(0))]
                       + (if ok then RoundCallsOf(cbs, net(0).Answered?, f.value, net, 1) else [])
      ensures var f := FollowUps(PostResult(net(0)), mapCode);
              isAlive == (if ok && f.value != [] then net(|f.value|) else net(0)).Answered?
      ensures baseUrl == old(baseUrl) && cbs == old(cbs) && mapCode == old(mapCode)
    {
      var first := SimplePayload(ConnectionInfo, mapCode);
      var res, url, c0 := RequestPostApi("DigitalTwin", first, net(0), raises);
      var more, cs;
      ok, more, cs := FollowUp(res, net, raises);
      posts := [(url, first)] + more;
      calls := [c0] + cs;
    }

    /** The part of `_post_connection_info` after the ConnectionInfo POST
        answered `res`: nothing, a raise, or the fan-out. */
    method FollowUp(res: Option<Json>, net: nat -> HttpOutcome, raises: nat -> bool)
      returns (ok: bool, posts: seq<(string, Json)>, calls: seq<seq<Call>>)
      modifies this
      ensures var f := FollowUps(res, mapCode);
              ok == f.Some? && posts == (if ok then Posts(RequestUrl(baseUrl, "DigitalTwin"), f.value) else [])
      ensures var f := FollowUps(res, mapCode);
              calls == (if ok then RoundCallsOf(cbs, old(isAlive), f.value, net, 1) else [])
      ensures var f := FollowUps(res, mapCode);
              isAlive == (if ok && f.value != [] then net(|f.value|).Answered? else old(isAlive))
      ensures baseUrl == old(baseUrl) && cbs == old(cbs) && mapCode == old(mapCode)
    {
      ok, posts, calls := true, [], [];
      if res.None? || !Truthy(res.value) {
        return;
      }
      var v := res.value;
      if !v.JObj? {
        ok := false;
        return;
      }
      if !Truthy(GetOr(v, "success", JBool(false))) {
        return;
      }
      posts, calls := FanOut(KmresUp(v), net, raises);
    }

    /** The follow-up POSTs; they are requests 1, 2, ... of the round. The
        client is left alive exactly when the last one was answered. */
    method FanOut(kmres: bool, net: nat -> HttpOutcome, raises: nat -> bool)
      returns (posts: seq<(string, Json)>, calls: seq<seq<Call>>)
      modifies this
      ensures posts == Posts(RequestUrl(baseUrl, "DigitalTwin"), FanOutList(kmres, mapCode))
      ensures calls == RoundCallsOf(cbs, old(isAlive), FanOutList(kmres, mapCode), net, 1)
      ensures isAlive == net(if kmres then 5 else 2).Answered?
      ensures baseUrl == old(baseUrl) && cbs == old(cbs) && mapCode == old(mapCode)
    {
      if kmres {
        posts, calls := PostKmresRound(net, raises);
      } else {
        posts, calls := PostPair(MissionInfo, ReservationInfo, 1, net, raises);
        assert FanOutList(kmres, mapCode) == TailList(mapCode);
      }
    }

    /** The fan-out when KMReS is up: the three KMReS POSTs, then the tail. */
    method PostKmresRound(net: nat -> HttpOutcome, raises: nat -> bool)
      returns (posts: seq<(string, Json)>, calls: seq<seq<Call>>)
      modifies this
      ensures posts == Posts(RequestUrl(baseUrl, "DigitalTwin"), FanOutList(true, mapCode))
      ensures calls == RoundCallsOf(cbs, old(isAlive), FanOutList(true, mapCode), net, 1)
      ensures isAlive == net(5).Answered?
      ensures baseUrl == old(baseUrl) && cbs == old(cbs) && mapCode == old(mapCode)
    {
      ghost var a0 := isAlive;
      var url := RequestUrl(baseUrl, "DigitalTwin");
      var hp, hc := PostHead(net, raises);
      var tp, tc := PostPair(MissionInfo, ReservationInfo, 4, net, raises);
      posts := hp + tp;
      calls := hc + tc;
      KmresRoundJoin(cbs, a0, mapCode, net, url, hp, tp, hc, tc);
    }

    /** The three KMReS POSTs, requests 1 to 3: AmrInfo, then ContainerInfo
        and WorkingInfo. */
    method PostHead(net: nat -> HttpOutcome, raises: nat -> bool)
      returns (posts: seq<(string, Json)>, calls: seq<seq<Call>>)
      modifies this
      ensures posts == Posts(RequestUrl(baseUrl, "DigitalTwin"), KmresList(mapCode))
      ensures calls == RoundCallsOf(cbs, old(isAlive), KmresList(mapCode), net, 1)
      ensures isAlive == net(3).Answered?
      ensures baseUrl == old(baseUrl) && cbs == old(cbs) && mapCode == old(mapCode)
    {
      ghost var a0 := isAlive;
      var x, y, z := SimplePayload(AmrInfo, mapCode), SimplePayload(ContainerInfo, mapCode), SimplePayload(WorkingInfo, mapCode);
      var p1, c1 := PostSimple(AmrInfo, net(1), raises);
      var rp, rc := PostPair(ContainerInfo, WorkingInfo, 2, net, raises);
      posts := [p1] + rp;
      calls := [c1] + rc;
      ConsDisplay(x, y, z);
      PostsCons(RequestUrl(baseUrl, "DigitalTwin"), x, [y, z]);
      RoundCallsCons(cbs, a0, x, [y, z], net, 1);
    }

    /** Two simple POSTs in a row, requests `k` and `k + 1`: the tail of the
        fan-out is MissionInfo then ReservationInfo. */
    method PostPair(first: string, second: string, k: nat, net: nat -> HttpOutcome, raises: nat -> bool)
      returns (posts: seq<(string, Json)>, calls: seq<seq<Call>>)
      modifies this
      ensures var pair := [SimplePayload(first, mapCode), SimplePayload(second, mapCode)];
              posts == Posts(RequestUrl(baseUrl, "DigitalTwin"), pair)
              && calls == RoundCallsOf(cbs, old(isAlive), pair, net, k)
      ensures isAlive == net(k + 1).Answered?
      ensures baseUrl == old(baseUrl) && cbs == old(cbs) && mapCode == old(mapCode)
    {
      ghost var a0 := isAlive;
      var x, y := SimplePayload(first, mapCode), SimplePayload(second, mapCode);
      var p1, c1 := PostSimple(first, net(k), raises);
      var p2, c2 := PostSimple(second, net(k + 1), raises);
      posts := [p1, p2];
      PostsTwo(RequestUrl(baseUrl, "DigitalTwin"), x, y);
      calls := [c1, c2];
      RoundCallsTwo(cbs, a0, x, y, net, k);
    }
  }

  /** An emitter: calls every callback of `list` with `e`, in order; one that
      raises (`raises(id)`) is logged and the loop goes on. */
  method Emit(list: seq<nat>, e: Event, raises: nat -> bool) returns (calls: seq<Call>, logged: seq<nat>)
    ensures calls == Calls(list, e)
    ensures logged == Raising(list, raises)
  {
    calls := [];
    logged := [];
    var i := 0;
    while i < |list|
      invariant 0 <= i <= |list|
      invariant calls == Calls(list[..i], e)
      invariant logged == Raising(list[..i], raises)
    {
      assert list[..i + 1] == list[..i] + [list[i]];
      CallsAppend(list[..i], list[i], e);
      RaisingAppend(list[..i], list[i], raises);
      calls := calls + [Call(list[i], e)];
      if raises(list[i]) {
        logged := logged + [list[i]];
      }
      i := i + 1;
    }
    assert list[..i] == list;
  }

  function PostResult(outcome: HttpOutcome): Option<Json> {
    match outcome
    case Raised => None
    case Answered(body) => Some(match body case Some(d) => d case None => JObj([]))
  }

  /** The callback calls of one POST: request callbacks, then the alive
      change if the flag flips, then the response or error callbacks. */
  function PostCalls(cbs: Callbacks, wasAlive: bool, endpoint: string, payload: Json, outcome: HttpOutcome): seq<Call> {
    var alive := outcome.Answered?;
    Calls(cbs.request, Request(endpoint, payload))
    + (if wasAlive != alive then Calls(cbs.alive, AliveChange(alive)) else [])
    + (match outcome
       case Raised => Calls(cbs.error, Error(endpoint, payload))
       case Answered(_) => Calls(cbs.response, Response(endpoint, payload, PostResult(outcome).value)))
  }

  /** The results of a run of requests of `payloads`, one per request in
      order: request `k` gets outcome `net(k)` and starts from `wasAlive`,
      each later one from the alive state the one before it left; `step`
      says what one request yields. */
  function Run<P, T>(step: (bool, P, HttpOutcome) -> T, wasAlive: bool, payloads: seq<P>,
                  net: nat -> HttpOutcome, k: nat): (groups: seq<T>)
    ensures |groups| == |payloads|
    decreases |payloads|
  {
    if payloads == [] then []
    else [step(wasAlive, payloads[0], net(k))] + Run(step, net(k).Answered?, payloads[1..], net, k + 1)
  }

  /** What one DigitalTwin POST yields: its callback calls. */
  function PostStep(cbs: Callbacks): (bool, Json, HttpOutcome) -> seq<Call> {
    (wasAlive: bool, payload: Json, outcome: HttpOutcome) => PostCalls(cbs, wasAlive, "DigitalTwin", payload, outcome)
  }

  /** The callback calls of a run of DigitalTwin POSTs, one group per request. */
  function RoundCallsOf(cbs: Callbacks, wasAlive: bool, payloads: seq<Json>, net: nat -> HttpOutcome, k: nat)
    : seq<seq<Call>>
  {
    Run(PostStep(cbs), wasAlive, payloads, net, k)
  }

  /** The alive state request `k + i` of a run starts from: the caller's
      for the first, else the outcome of the request before. */
  function AliveBefore(wasAlive: bool, net: nat -> HttpOutcome, k: nat, i: nat): bool {
    if i == 0 then wasAlive else net(k + i - 1).Answered?
  }

  lemma {:induction false} RunAt<P, T>(step: (bool, P, HttpOutcome) -> T, wasAlive: bool, payloads: seq<P>,
                                      net: nat -> HttpOutcome, k: nat, i: nat)
    requires i < |payloads|
    ensures Run(step, wasAlive, payloads, net, k)[i] == step(AliveBefore(wasAlive, net, k, i), payloads[i], net(k + i))
    decreases i
  {
    if i > 0 {
      RunAt(step, net(k).Answered?, payloads[1..], net, k + 1, i - 1);
      assert AliveBefore(net(k).Answered?, net, k + 1, i - 1) == AliveBefore(wasAlive, net, k, i);
    }
  }

  lemma {:induction false} RunAppend<P, T>(step: (bool, P, HttpOutcome) -> T, wasAlive: bool, xs: seq<P>,
                                          ys: seq<P>, net: nat -> HttpOutcome, k: nat)
    ensures Run(step, wasAlive, xs + ys, net, k)
            == Run(step, wasAlive, xs, net, k) + Run(step, AliveBefore(wasAlive, net, k, |xs|), ys, net, k + |xs|)
    decreases |xs|
  {
    if xs == [] {
      assert xs + ys == ys;
    } else {
      var a2 := net(k).Answered?;
      assert (xs + ys)[0] == xs[0] && (xs + ys)[1..] == xs[1..] + ys;
      RunAppend(step, a2, xs[1..], ys, net, k + 1);
      assert AliveBefore(a2, net, k + 1, |xs| - 1) == AliveBefore(wasAlive, net, k, |xs|);
      AppendAssoc([step(wasAlive, xs[0], net(k))], Run(step, a2, xs[1..], net, k + 1),
                  Run(step, AliveBefore(wasAlive, net, k, |xs|), ys, net, k + |xs|));
    }
  }

  lemma AppendAssoc<T>(a: seq<T>, b: seq<T>, c: seq<T>)
    ensures a + (b + c) == (a + b) + c
  {
  }

  /** Read request by request: group `i` is the calls of POST `i` of the run,
      made with outcome `net(k + i)` from the state request `k + i - 1` left. */
  lemma RoundCallsAt(cbs: Callbacks, wasAlive: bool, payloads: seq<Json>, net: nat -> HttpOutcome, k: nat, i: nat)
    requires i < |payloads|
    ensures RoundCallsOf(cbs, wasAlive, payloads, net, k)[i]
            == PostCalls(cbs, AliveBefore(wasAlive, net, k, i), "DigitalTwin", payloads[i], net(k + i))
  {
    RunAt(PostStep(cbs), wasAlive, payloads, net, k, i);
  }

  /** Two runs in a row are one run when the second starts from the alive
      state the first left. */
  lemma RoundCallsAppend(cbs: Callbacks, wasAlive: bool, xs: seq<Json>, ys: seq<Json>, net: nat -> HttpOutcome, k: nat)
    ensures RoundCallsOf(cbs, wasAlive, xs + ys, net, k)
            == RoundCallsOf(cbs, wasAlive, xs, net, k)
               + RoundCallsOf(cbs, AliveBefore(wasAlive, net, k, |xs|), ys, net, k + |xs|)
  {
    RunAppend(PostStep(cbs), wasAlive, xs, ys, net, k);
  }

  /** The KMReS run, then the tail run from the alive state WorkingInfo
      left, is the run of the whole fan-out. */
  lemma KmresRoundJoin(cbs: Callbacks, wasAlive: bool, mapCode: string, net: nat -> HttpOutcome, url: string,
                       hp: seq<(string, Json)>, tp: seq<(string, Json)>, hc: seq<seq<Call>>, tc: seq<seq<Call>>)
    requires hp == Posts(url, KmresList(mapCode)) && tp == Posts(url, TailList(mapCode))
    requires hc == RoundCallsOf(cbs, wasAlive, KmresList(mapCode), net, 1)
    requires tc == RoundCallsOf(cbs, net(3).Answered?, TailList(mapCode), net, 4)
    ensures hp + tp == Posts(url, FanOutList(true, mapCode))
    ensures hc + tc == RoundCallsOf(cbs, wasAlive, FanOutList(true, mapCode), net, 1)
  {
    PostsAppend(url, KmresList(mapCode), TailList(mapCode));
    RoundCallsAppend(cbs, wasAlive, KmresList(mapCode), TailList(mapCode), net, 1);
  }

  /** A request followed by a run started from its outcome is a run. */
  lemma RoundCallsCons(cbs: Callbacks, wasAlive: bool, p: Json, rest: seq<Json>, net: nat -> HttpOutcome, k: nat)
    ensures RoundCallsOf(cbs, wasAlive, [p] + rest, net, k)
            == [PostCalls(cbs, wasAlive, "DigitalTwin", p, net(k))] + RoundCallsOf(cbs, net(k).Answered?, rest, net, k + 1)
  {
    RunCons(PostStep(cbs), wasAlive, p, rest, net, k);
  }

  /** The calls of a run of two requests. */
  lemma RoundCallsTwo(cbs: Callbacks, wasAlive: bool, x: Json, y: Json, net: nat -> HttpOutcome, k: nat)
    ensures RoundCallsOf(cbs, wasAlive, [x, y], net, k)
            == [PostCalls(cbs, wasAlive, "DigitalTwin", x, net(k)),
                PostCalls(cbs, net(k).Answered?, "DigitalTwin", y, net(k + 1))]
  {
    RunTwo(PostStep(cbs), wasAlive, x, y, net, k);
  }

  lemma RunCons<P, T>(step: (bool, P, HttpOutcome) -> T, wasAlive: bool, p: P, rest: seq<P>, net: nat -> HttpOutcome, k: nat)
    ensures Run(step, wasAlive, [p] + rest, net, k) == [step(wasAlive, p, net(k))] + Run(step, net(k).Answered?, rest, net, k + 1)
  {
    assert ([p] + rest)[0] == p && ([p] + rest)[1..] == rest;
  }

  lemma RunTwo<P, T>(step: (bool, P, HttpOutcome) -> T, wasAlive: bool, x: P, y: P, net: nat -> HttpOutcome, k: nat)
    ensures Run(step, wasAlive, [x, y], net, k) == [step(wasAlive, x, net(k)), step(net(k).Answered?, y, net(k + 1))]
  {
    assert [x, y][1..] == [y] && [y][1..] == [];
  }

  lemma PostsCons<P>(url: string, x: P, rest: seq<P>)
    ensures Posts(url, [x] + rest) == [(url, x)] + Posts(url, rest)
  {
    assert ([x] + rest)[0] == x && ([x] + rest)[1..] == rest;
  }

  lemma ConsDisplay<T>(x: T, y: T, z: T)
    ensures [x, y, z] == [x] + [y, z]
  {
  }

  lemma PostsTwo<P>(url: string, x: P, y: P)
    ensures Posts(url, [x, y]) == [(url, x), (url, y)]
  {
    assert [x, y][1..] == [y] && [y][1..] == [];
  }

  lemma PostsAppend<P>(url: string, xs: seq<P>, ys: seq<P>)
    ensures Posts(url, xs + ys) == Posts(url, xs) + Posts(url, ys)
  {
    var l, r := Posts(url, xs + ys), Posts(url, xs) + Posts(url, ys);
    forall i | 0 <= i < |l|
      ensures l[i] == r[i]
    {
      if i < |xs| {
        assert l[i] == (url, xs[i]) == r[i];
      } else {
        assert l[i] == (url, ys[i - |xs|]) == r[i];
      }
    }
  }

  /** A POST that raised reports the error to every error callback and
      never a response; one answered never reports an error. */
  lemma PostReportsOneOutcome(cbs: Callbacks, wasAlive: bool, endpoint: string, payload: Json, outcome: HttpOutcome)
    ensures var calls := PostCalls(cbs, wasAlive, endpoint, payload, outcome);
            (outcome.Raised? ==> forall c :: c in calls ==> !c.event.Response?)
            && (outcome.Answered? ==> forall c :: c in calls ==> !c.event.Error?)
  {
    CallsEvent(cbs.request, Request(endpoint, payload));
    CallsEvent(cbs.alive, AliveChange(outcome.Answered?));
    CallsEvent(cbs.error, Error(endpoint, payload));
    if outcome.Answered? {
      CallsEvent(cbs.response, Response(endpoint, payload, PostResult(outcome).value));
    }
  }

  lemma {:induction false} CallsEvent(cbs: seq<nat>, e: Event)
    ensures forall c :: c in Calls(cbs, e) ==> c.event == e
  {
    if cbs != [] {
      CallsEvent(cbs[1..], e);
    }
  }

  /** The posts of a list of payloads to one URL. */
  function Posts<P>(url: string, payloads: seq<P>): (r: seq<(string, P)>)
    ensures |r| == |payloads|
    ensures forall i :: 0 <= i < |payloads| ==> r[i] == (url, payloads[i])
  {
    if payloads == [] then [] else [(url, payloads[0])] + Posts(url, payloads[1..])
  }


  /** The registration numbers of the callbacks of `list` that raise. */
  function Raising(list: seq<nat>, raises: nat -> bool): seq<nat> {
    if list == [] then [] else (if raises(list[0]) then [list[0]] else []) + Raising(list[1..], raises)
  }

  lemma {:induction false} CallsAppend(list: seq<nat>, id: nat, e: Event)
    ensures Calls(list + [id], e) == Calls(list, e) + [Call(id, e)]
  {
    if list != [] {
      assert (list + [id])[1..] == list[1..] + [id];
      CallsAppend(list[1..], id, e);
    }
  }

  lemma {:induction false} RaisingAppend(list: seq<nat>, id: nat, raises: nat -> bool)
    ensures Raising(list + [id], raises) == Raising(list, raises) + (if raises(id) then [id] else [])
  {
    if list != [] {
      assert (list + [id])[1..] == list[1..] + [id];
      RaisingAppend(list[1..], id, raises);
    }
  }

}
