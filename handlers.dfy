/** The extension's client callbacks: what a server response, a change of
    the alive flag or a failed answer hands to the UI thread. Each callback
    is modelled by the UI jobs it posts, in posting order; `None` stands for
    an exception the callback does not catch, raised before it posts
    anything. */
module Handlers {
  import opened PyText
  import opened PyJson
  import opened Snapshot

  /** One job posted with `_post_to_ui`. */
  datatype Action =
    | SetModel(attr: string, text: string)
    | SetDot(dot: string, ok: bool)
    | AppendError(text: string)
    | SyncCards(arr: seq<Json>)
    | SyncScene(arr: seq<Json>)
    | UpdateAmrList(arr: seq<Json>)
    | CacheContainers(norm: Dict)

  /** What one response does: the jobs it posts and the AMR snapshot it
      stores (`None` when `_amrs_latest` is left alone). */
  datatype Reaction = Reaction(posts: seq<Action>, amrsLatest: Option<seq<Json>>)

  // ------------------------------------------------------------ AMRInfo

  /** The four counter labels, the card and scene syncs and, when the
      control panel exists, the refresh of its dropdown. */
  function AmrPosts(arr: seq<Json>, c: AmrCounts, hasPanel: bool): seq<Action> {
    [SetModel("m_amr_total", "Total: " + NatToStr(c.total)),
     SetModel("m_amr_working", "Working: " + NatToStr(c.working)),
     SetModel("m_amr_waiting", "Waiting: " + NatToStr(c.waiting)),
     SetModel("m_amr_charging", "Charging: " + NatToStr(c.charging)),
     SyncCards(arr), SyncScene(arr)]
    + (if hasPanel then [UpdateAmrList(arr)] else [])
  }

  // ------------------------------------------------------- ContainerInfo

  /** The four counter labels and the replacement of the container cache. */
  function ContainerPosts(c: ContainerCounts, norm: Dict): seq<Action> {
    [SetModel("m_pallet_total", "Total: " + NatToStr(c.total)),
     SetModel("m_pallet_offmap", "Off Map: " + NatToStr(c.offMap)),
     SetModel("m_pallet_stationary", "Stationary: " + NatToStr(c.stationary)),
     SetModel("m_pallet_inhandling", "In Handling: " + NatToStr(c.inHandling)),
     CacheContainers(norm)]
  }

  /** A dictionary converts with `dict()`. */
  lemma DictsConvert(items: seq<Json>)
    requires AllDicts(items)
    ensures Dictish(items, |items|)
  {
    forall j | 0 <= j < |items|
      ensures AsDict(items[j]).Some?
    {
      assert items[j].JObj?;
    }
  }

  // --------------------------------------------------------- WorkingInfo

  /** `sum(1 for item in items if item.get("robotIds"))`; `None` where an
      item is not a dict. */
  function InProgress(items: seq<Json>): Option<nat> {
    if items == [] then Some(0)
    else if !items[0].JObj? then None
    else match InProgress(items[1..])
      case None => None
      case Some(n) => Some(n + (if Truthy(Get(items[0], "robotIds")) then 1 else 0))
  }

  /** The count is defined exactly for lists of dicts; it is at most the
      number of items, zero exactly when no item has robots, and the number
      of items exactly when every item has. */
  lemma {:induction false} InProgressSpec(items: seq<Json>)
    ensures InProgress(items).Some? <==> AllDicts(items)
    ensures InProgress(items).Some? ==>
              InProgress(items).value <= |items|
              && (InProgress(items).value == 0 <==> forall i :: 0 <= i < |items| ==> !Truthy(Get(items[i], "robotIds")))
              && (InProgress(items).value == |items| <==> forall i :: 0 <= i < |items| ==> Truthy(Get(items[i], "robotIds")))
  {
    if items != [] {
      var rest := items[1..];
      InProgressSpec(rest);
      assert forall i :: 1 <= i < |items| ==> items[i] == rest[i - 1];
      if AllDicts(items) {
        assert AllDicts(rest);
      }
    }
  }

  // ------------------------------------------------------ ConnectionInfo

  /** `data[0]` for a non-empty list, else `data or {}`. */
  function ConnectionRecord(data: Json): Json {
    if data.JList? && data.items != [] then data.items[0] else Or(data, JObj([]))
  }

  /** The OPC UA and Storage I/O dots; `None` where `info.get` raises. */
  function ConnectionPosts(data: Json): Option<seq<Action>> {
    var info := ConnectionRecord(data);
    if !info.JObj? then None
    else
      var opc := Or(Or(Get(info, "opcuaStatus"), Get(info, "opcUaStatus")), Get(info, "opcStatus"));
      var storage := Or(Get(info, "storageIOStatus"), Get(info, "storageStatus"));
      Some([SetDot("OPC UA", Truthy(opc)), SetDot("Storage I/O", Truthy(storage))])
  }

  /** The OPC UA dot is lit exactly when one of its three status keys is
      truthy, the Storage I/O dot exactly when one of its two is; an empty
      or missing record turns both off. */
  lemma ConnectionDots(data: Json)
    requires ConnectionRecord(data).JObj?
    ensures var info := ConnectionRecord(data);
            ConnectionPosts(data) == Some([
              SetDot("OPC UA", Truthy(Get(info, "opcuaStatus")) || Truthy(Get(info, "opcUaStatus")) || Truthy(Get(info, "opcStatus"))),
              SetDot("Storage I/O", Truthy(Get(info, "storageIOStatus")) || Truthy(Get(info, "storageStatus")))])
    ensures !Truthy(data) || data == JList([]) ==> ConnectionPosts(data) == Some([SetDot("OPC UA", false), SetDot("Storage I/O", false)])
  {
  }

  // ------------------------------------------------------------ dispatch

  /** `_on_client_response(endpoint, payload, response)` for the five data
      types; `hasPanel` is whether the AMR control panel has been built. */
  function Respond(payload: Json, response: Json, hasPanel: bool): Option<Reaction> {
    if !Truthy(payload) then Some(Reaction([], None))
    else if !payload.JObj? || (Truthy(response) && !response.JObj?) then None
    else
      var dataType := Get(payload, "dataType");
      var data := Get(Or(response, JObj([])), "data");
      if dataType == JStr("AMRInfo") then
        var arr := AsList(data);
        match AmrCountsOf(data)
        case None => None
        case Some(c) => Some(Reaction(AmrPosts(arr, c, hasPanel), Some(arr)))
      else if dataType == JStr("ContainerInfo") then
        var arr := AsList(data);
        match (ContainerCountsOf(data), NormContainersOf(arr))
        case (Some(c), Some(norm)) => Some(Reaction(ContainerPosts(c, norm), None))
        case _ => None
      else if dataType == JStr("WorkingInfo") then
        match InProgress(AsList(data))
        case None => None
        case Some(n) => Some(Reaction([SetModel("m_mission_inprogress", "In Progress: " + NatToStr(n))], None))
      else if dataType == JStr("MissionInfo") then
        Some(Reaction([SetModel("m_mission_reserved", "Reserved: " + NatToStr(|AsList(data)|))], None))
      else if dataType == JStr("ConnectionInfo") then
        match ConnectionPosts(data)
        case None => None
        case Some(p) => Some(Reaction(p, None))
      else Some(Reaction([], None))
  }

  /** The data a response carries, read as the handler reads it. */
  function DataOf(response: Json): Json {
    Get(Or(response, JObj([])), "data")
  }

  /** Responses without a payload, or of another data type, post nothing
      and keep the AMR snapshot; a payload or response that is not a
      dictionary raises. */
  lemma RespondIgnores(payload: Json, response: Json, hasPanel: bool)
    ensures !Truthy(payload) ==> Respond(payload, response, hasPanel) == Some(Reaction([], None))
    ensures Truthy(payload) && !payload.JObj? ==> Respond(payload, response, hasPanel).None?
    ensures Truthy(payload) && Truthy(response) && !response.JObj? ==> Respond(payload, response, hasPanel).None?
    ensures payload.JObj? && payload.fields != [] && (!Truthy(response) || response.JObj?)
            && Get(payload, "dataType") !in {JStr("AMRInfo"), JStr("ContainerInfo"), JStr("WorkingInfo"), JStr("MissionInfo"), JStr("ConnectionInfo")}
            ==> Respond(payload, response, hasPanel) == Some(Reaction([], None))
  {
  }

  /** AMRInfo: the handler raises exactly when an item is not a dict; else
      its total label is the number of records, each counter label counts
      the records of its status code, and the cards, the scene and the
      stored snapshot all receive that list. */
  lemma AmrInfoReaction(payload: Json, response: Json, hasPanel: bool)
    requires payload.JObj? && payload.fields != [] && (!Truthy(response) || response.JObj?)
    requires Get(payload, "dataType") == JStr("AMRInfo")
    ensures var arr := AsList(DataOf(response));
            Respond(payload, response, hasPanel).Some? <==> AllDicts(arr)
    ensures var arr := AsList(DataOf(response));
            var m := multiset(Codes(arr, |arr|));
            AllDicts(arr) ==>
              Respond(payload, response, hasPanel) ==
                Some(Reaction(AmrPosts(arr, AmrCounts(|arr|, m[AmrInTask], m[AmrIdle], m[AmrCharging]), hasPanel), Some(arr)))
  {
    var arr := AsList(DataOf(response));
    AmrTallyOfCodes(arr, |arr|);
  }

  /** ContainerInfo: the handler raises exactly when an item is not a dict;
      else every container lands in exactly one of the three counters, whose
      sum is the total label, and the cache becomes the normalised table. */
  lemma ContainerInfoReaction(payload: Json, response: Json, hasPanel: bool)
    requires payload.JObj? && payload.fields != [] && (!Truthy(response) || response.JObj?)
    requires Get(payload, "dataType") == JStr("ContainerInfo")
    ensures var arr := AsList(DataOf(response));
            Respond(payload, response, hasPanel).Some? <==> AllDicts(arr)
    ensures var arr := AsList(DataOf(response));
            AllDicts(arr) ==>
              NormContainersOf(arr).Some?
              && var c := ContainerTally(arr, |arr|);
              c.total == |arr| && c.offMap + c.stationary + c.inHandling == |arr|
              && Respond(payload, response, hasPanel) == Some(Reaction(ContainerPosts(c, NormContainersOf(arr).value), None))
  {
    ContainerInfoRaises(payload, response, hasPanel);
    ContainerInfoPosts(payload, response, hasPanel);
  }

  lemma ContainerInfoRaises(payload: Json, response: Json, hasPanel: bool)
    requires payload.JObj? && payload.fields != [] && (!Truthy(response) || response.JObj?)
    requires Get(payload, "dataType") == JStr("ContainerInfo")
    ensures var arr := AsList(DataOf(response));
            Respond(payload, response, hasPanel).Some? <==> AllDicts(arr)
  {
    var arr := AsList(DataOf(response));
    if AllDicts(arr) {
      DictsConvert(arr);
    }
  }

  lemma ContainerInfoPosts(payload: Json, response: Json, hasPanel: bool)
    requires payload.JObj? && payload.fields != [] && (!Truthy(response) || response.JObj?)
    requires Get(payload, "dataType") == JStr("ContainerInfo")
    ensures var arr := AsList(DataOf(response));
            AllDicts(arr) ==>
              NormContainersOf(arr).Some?
              && var c := ContainerTally(arr, |arr|);
              c.total == |arr| && c.offMap + c.stationary + c.inHandling == |arr|
              && Respond(payload, response, hasPanel) == Some(Reaction(ContainerPosts(c, NormContainersOf(arr).value), None))
  {
    var arr := AsList(DataOf(response));
    if AllDicts(arr) {
      DictsConvert(arr);
      ContainerTallyOfPlaces(arr, |arr|);
    }
  }

  /** WorkingInfo and MissionInfo each post one label: the number of
      missions with robots, and the number of reserved missions. */
  lemma MissionLabels(payload: Json, response: Json, hasPanel: bool)
    requires payload.JObj? && payload.fields != [] && (!Truthy(response) || response.JObj?)
    ensures var arr := AsList(DataOf(response));
            Get(payload, "dataType") == JStr("MissionInfo") ==>
              Respond(payload, response, hasPanel) == Some(Reaction([SetModel("m_mission_reserved", "Reserved: " + NatToStr(|arr|))], None))
    ensures var arr := AsList(DataOf(response));
            Get(payload, "dataType") == JStr("WorkingInfo") && AllDicts(arr) ==>
              InProgress(arr).Some? && InProgress(arr).value <= |arr| &&
              Respond(payload, response, hasPanel) == Some(Reaction([SetModel("m_mission_inprogress", "In Progress: " + NatToStr(InProgress(arr).value))], None))
  {
    InProgressSpec(AsList(DataOf(response)));
  }

  // ---------------------------------------------------- other callbacks

  /** `_on_alive_change(alive)`: the server dot follows the flag; a lost
      server also turns the OPC UA and Storage I/O dots off. */
  function AlivePosts(alive: bool): (r: seq<Action>)
    ensures |r| >= 1 && r[0] == SetDot("Operation Server", alive)
    ensures alive <==> |r| == 1
    ensures forall i :: 0 <= i < |r| ==> r[i].SetDot? && r[i].ok == alive
  {
    [SetDot("Operation Server", alive)]
    + (if alive then [] else [SetDot("OPC UA", false), SetDot("Storage I/O", false)])
  }

  /** `_on_response(endpoint, payload, response)`: a missing or unsuccessful
      response posts one error line with the server's message; `None` where
      `response.get` raises. */
  function ResponseErrors(response: Json): Option<seq<Action>> {
    if !Truthy(response) then Some([AppendError("[Server] Unknown error")])
    else if !response.JObj? then None
    else if Truthy(GetOr(response, "success", JBool(false))) then Some([])
    else Some([AppendError("[Server] " + Str(GetOr(response, "message", JStr("Unknown error"))))])
  }

  /** A dictionary response posts nothing exactly when its `success` is
      truthy, and otherwise one line naming its message, or "Unknown error"
      when it has none. */
  lemma ResponseErrorsSpec(response: Json)
    requires response.JObj? && response.fields != []
    ensures ResponseErrors(response) == Some([]) <==> Truthy(Get(response, "success"))
    ensures !Truthy(Get(response, "success")) && !HasKey(response, "message") ==>
              ResponseErrors(response) == Some([AppendError("[Server] Unknown error")])
    ensures !Truthy(Get(response, "success")) && Get(response, "message").JStr? ==>
              ResponseErrors(response) == Some([AppendError("[Server] " + Get(response, "message").s)])
  {
    if !HasKey(response, "success") {
      LookupMissing(response.fields, "success");
    }
    if !HasKey(response, "message") {
      LookupMissing(response.fields, "message");
      assert "[Server] " + Str(JStr("Unknown error")) == "[Server] Unknown error";
    }
  }
}
