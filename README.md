# Digital-twin dashboard core, modelled in Dafny

This project models the data-handling core of an Omniverse Kit extension.
The extension is a digital-twin dashboard for a warehouse fleet of AMRs
(autonomous mobile robots), their racks ("containers") and their missions.
A polling client asks the operation server for ConnectionInfo and then for
AMRInfo, ContainerInfo, WorkingInfo, MissionInfo and ReservationInfo. The
extension counts the records into status labels, keeps cached snapshots,
and hands every widget update to the UI thread through a job queue. Panels
show and filter the snapshots and send dispatch or cancel commands. A 3D
synchroniser steps robot poses toward their reported positions. A conveyor
spawner moves a line of cars. A chatbot panel talks to a chat server and
writes its history as an HTML log.

The model keeps the decisions, the tables and the state updates that sit
between the polled JSON and the widgets. JSON is the datatype
`PyJson.Json` (null, bool, int, string, list, and an ordered object with
Python's "last binding wins"). Python truthiness, `or`, `dict.get`, `str()`
and the text helpers the code uses (`strip`, `lower`, `upper`, `int()`,
`float()`, `replace`) are written out in `PyText` and `PyJson`. An
exception that the source does not catch becomes an `Option` (or an `ok`
flag), and the model keeps the partial state the source leaves behind.

Clocks, the network, files and threads are parameters:
- `now` and `dt` are given to the members that need them;
- an HTTP call is given its outcome (`HttpOutcome`, `Probe`, `Fetch`, or the reply's `Json`);
- a file write is given as whether it succeeds;
- a callback is identified by the number it was registered under, and a
  raising one by a `raises` predicate.

Classes stand for the objects whose fields the source updates in place.
Their methods are proved against specification functions (for example
`Snapshot.CountAmrs` against `AmrCountsOf`, `MissionList.Section.Sync`
against `SyncOf`, `LineCar.LineCarSpawner.StepCar` against `StepIn`), and
the lemmas prove the promised properties of those functions.

The modules, one file each:
- `pytext.dfy` (`PyText`): Python string and number helpers used throughout;
- `pyjson.dfy` (`PyJson`): Python JSON values, truthiness, `dict.get`, `str()`;
- `common.dfy` (`Common`): ui_code/ui/common.py;
- `amr3d.dfy` (`Amr3D`): ui_code/ui/scene/amr_3d.py;
- `client.dfy` (`Client`): ui_code/client.py;
- `snapshot.dfy` (`Snapshot`): `ui_code/__init__.py`: status codes, counters, container normalisation, UI job queue, fleet pinger;
- `handlers.dfy` (`Handlers`): `ui_code/__init__.py`: the client callbacks and what each response posts;
- `layout.dfy` (`Layout`): ui_code/main.py;
- `amr_card.dfy` (`AmrCard`): ui_code/ui/components/amr_card.py;
- `amr_details.dfy` (`AmrDetails`): ui_code/AMR/amr_details_panel.py;
- `amr_control.dfy` (`AmrControl`): ui_code/AMR/amr_control_panel.py;
- `container_list.dfy` (`ContainerList`): ui_code/Container/container_list_panel.py;
- `mission_list.dfy` (`MissionList`): ui_code/Mission/mission_panel.py;
- `linecar.dfy` (`LineCar`): ui_code/ui/scene/linecar.py;
- `chatbot.dfy` (`Chatbot`): ui_code/Chatbot/chatbot_panel.py.

## Model

| member | source | states |
|---|---|---|
| Common.StatusName | ui_code/ui/common.py:17-20 | the status table knows exactly the codes 1 to 7 |
| Common.FmtStatus | ui_code/ui/common.py:22-28 | the status text is never empty; a number 1-7 shows its status name, any other number its decimal digits, `None` shows `-` |
| Common.FmtText | ui_code/ui/common.py:25-28 | the text shown for a non-numeric status value is never empty |
| Common.FmtLift | ui_code/ui/common.py:30-31 | the lift reads `Up` exactly for `True`/`1`, `Down` exactly for `False`/`0`, and `-` otherwise |
| Common.FileUri | ui_code/ui/common.py:13-15 | the URI starts with `file://`; a drive colon in the first ten characters adds a third slash |
| Common.FileUriRecoversPath | ui_code/ui/common.py:13-15 | the path can be read back from the URI |
| Common.UpperFixesDigits | ui_code/ui/common.py:26-28 | upper-casing leaves a digit string unchanged |
| Common.UpperIdempotent | ui_code/ui/common.py:28 | upper-casing twice is upper-casing once |
| Common.DigitsOfUpper | ui_code/ui/common.py:26-28 | a string whose upper-case form is all digits is all digits |
| Common.UpperIsNotSpace | ui_code/ui/common.py:25-28 | an upper-case letter is not stripped as white space |
| Common.WordIsFixed | ui_code/ui/common.py:25-28 | a non-empty upper-case word is shown as itself |
| Common.StatusNameIsFixed | ui_code/ui/common.py:17-28 | every status name is shown as itself |
| Common.FmtStatusIdempotent | ui_code/ui/common.py:22-28 | formatting the shown status text again gives the same text |
| Common.NegativeIsFixed | ui_code/ui/common.py:25-28 | the decimal text of a negative code is shown unchanged |
| Common.MinusDigitsIsFixed | ui_code/ui/common.py:25-28 | a minus sign followed by digits is shown unchanged |
| Common.FmtTextIdempotent | ui_code/ui/common.py:25-28 | formatting a non-numeric status text is idempotent |
| Common.WordIsFixedDash | ui_code/ui/common.py:25-28 | the placeholder `-` is shown as itself |
| Common.UpperFixesRest | ui_code/ui/common.py:28 | upper-casing leaves a string without lower-case letters unchanged |
| Common.FmtStatusNumberAndString | ui_code/ui/common.py:22-27 | a non-negative code shows the same text whether it arrives as a number or as its decimal string |
| Amr3D.DefaultConfig | ui_code/ui/scene/amr_3d.py:20-76 | the unit scale is one millimetre in stage units (`1/metersPerUnit/1000`, with 0.01 m per unit when the stage reads 0) and the snap distance is 10 mm in those units; 900 mm/s, 110 deg/s and a 0.5 degree yaw snap |
| Amr3D.SanitizeCharsAt | ui_code/ui/scene/amr_3d.py:109 | sanitising keeps the length and maps each character on its own: `[A-Za-z0-9_]` is kept, everything else becomes `_` |
| Amr3D.SegmentShape | ui_code/ui/scene/amr_3d.py:108-111 | a path segment holds only `[A-Za-z0-9_]`, never starts with a digit, and is as long as the id or one character longer |
| Amr3D.SegmentIdempotent | ui_code/ui/scene/amr_3d.py:108-111 | sanitising a segment again changes nothing |
| Amr3D.AmrPath | ui_code/ui/scene/amr_3d.py:108-113 | the prim path is the group path, `/AMR_`, then the segment of the id |
| Amr3D.PrimNameShape | ui_code/ui/scene/amr_3d.py:108-113 | a prim name starts with `AMR_` and what follows is the segment of the id |
| Amr3D.NormDeg | ui_code/ui/scene/amr_3d.py:142-144 | the normalised angle lies in [-180, 180) and differs from the input by whole turns |
| Amr3D.NormDegFixes | ui_code/ui/scene/amr_3d.py:142-144 | an angle already in [-180, 180) is left as it is |
| Amr3D.NormDegTurns | ui_code/ui/scene/amr_3d.py:142-144 | adding whole turns does not change the normalised angle |
| Amr3D.MapToUnits | ui_code/ui/scene/amr_3d.py:134-140 | u and v are the millimetre readings scaled to stage units, corrected, flipped and offset |
| Amr3D.Steps | ui_code/ui/scene/amr_3d.py:158-177 | the item loop reads one step per list item |
| Amr3D.StepsAt | ui_code/ui/scene/amr_3d.py:158-160 | step `i` is read from item `i` alone, with `i+1` as the fallback id |
| Amr3D.StepsWellNamed | ui_code/ui/scene/amr_3d.py:159-160 | every step's prim name is the prim name of its id |
| Amr3D.Place | ui_code/ui/scene/amr_3d.py:158-179 | one item defines its prim, caches ops for a new id and records its target; the pose caches are untouched; an item that is not a dict, or an id that cannot be a dict key, raises after what was already changed |
| Amr3D.PlaceKeepsValid | ui_code/ui/scene/amr_3d.py:158-179 | placing one item keeps every robot with a target also in the ops cache, and every cached pose belongs to such a robot |
| Amr3D.PlacePrefixValid | ui_code/ui/scene/amr_3d.py:158-179 | the whole item loop keeps that invariant |
| Amr3D.PlacePrefixPoses | ui_code/ui/scene/amr_3d.py:176-177 | the item loop never touches the pose caches |
| Amr3D.PlacePrefixSeen | ui_code/ui/scene/amr_3d.py:156-179 | after a loop without exception every item's prim path is seen and every seen path is a prim |
| Amr3D.NameOfTail | ui_code/ui/scene/amr_3d.py:186 | the prim name of `name[4:]` is the name again |
| Amr3D.RemovedKeyNotSeen | ui_code/ui/scene/amr_3d.py:181-190 | the cache key popped for a removed child is never the id of a robot seen in this sync |
| Amr3D.RemovePassKeeps | ui_code/ui/scene/amr_3d.py:181-190 | the removal pass keeps every cache entry of a robot that was seen |
| Amr3D.SyncOfList | ui_code/ui/scene/amr_3d.py:153-190 | a sync that does not raise is the item loop followed by the removal pass over the paths it saw |
| Amr3D.SyncKeepsPosesOfListedRobots | ui_code/ui/scene/amr_3d.py:176-177 | sync leaves the current pose and yaw of every listed robot untouched and adds no pose entry |
| Amr3D.PlacePrefixTargets | ui_code/ui/scene/amr_3d.py:168-177 | after a successful loop every item has its ops cached and the target of its last occurrence recorded |
| Amr3D.SyncSetsTargets | ui_code/ui/scene/amr_3d.py:153-190 | after a successful sync every listed robot has its prim, its ops and the target its last item asks for |
| Amr3D.PlacePrefixSeenExactly | ui_code/ui/scene/amr_3d.py:156-179 | after a loop without exception the names seen are exactly the processed items' prim names, and the loop never removes a prim |
| Amr3D.SyncRemovesUnlisted | ui_code/ui/scene/amr_3d.py:155-190 | after a sync of a list without exception the prims are exactly those of the listed robots, and an earlier prim not listed is gone with its four cache entries under `name[4:]` |
| Amr3D.EmptySyncClearsScene | ui_code/ui/scene/amr_3d.py:155-190 | an empty or missing list removes every prim |
| Amr3D.RemovalLeavesStaleTarget | ui_code/ui/scene/amr_3d.py:183-190 | a robot with an integer id keeps its target and ops after its prim is removed, because the popped key is the string `name[4:]` |
| Amr3D.StepPosApproaches | ui_code/ui/scene/amr_3d.py:214-222 | a position step moves `min(step, dist)` straight toward the target and leaves exactly `dist - min(step, dist)`; within the snap distance it lands on the target |
| Amr3D.StepPosArrives | ui_code/ui/scene/amr_3d.py:214-222 | a step at least as long as the remaining distance puts the pose on the target |
| Amr3D.StepYawApproaches | ui_code/ui/scene/amr_3d.py:224-229 | the yaw turns the short way: the wrapped difference shrinks by the turn step, keeping its sign, while it exceeds the snap angle, and snaps to the target below it |
| Amr3D.YawWrapExample | ui_code/ui/scene/amr_3d.py:224-229 | from 170 toward -170 degrees the yaw turns +20 through 180 and reads 190 on the way, since the current yaw is not re-normalised |
| Amr3D.OverlayAt | ui_code/ui/scene/amr_3d.py:206-237 | overlaying new values on a cache changes exactly the given keys |
| Amr3D.FrameFacts | ui_code/ui/scene/amr_3d.py:206-237 | a frame moves exactly the robots with a target and cached ops, each by one step; everything else is unchanged |
| Amr3D.FirstFrameAtTarget | ui_code/ui/scene/amr_3d.py:211-212 | a robot without a cached pose starts at its target, so its first frame draws it exactly there |
| Amr3D.FrameTime | ui_code/ui/scene/amr_3d.py:198-204 | an omitted frame time is the time since the last tick clamped into [0, 0.1]; a given one is used as it is |
| Amr3D.Synchroniser.constructor | ui_code/ui/scene/amr_3d.py:14-45 | the synchroniser starts with empty caches, no prims and the given configuration |
| Amr3D.Synchroniser.Sync | ui_code/ui/scene/amr_3d.py:153-190 | the new tables are the sync of the old ones; `ok` is false where the source raises; the invariant is kept |
| Amr3D.Synchroniser.PlaceAll | ui_code/ui/scene/amr_3d.py:158-179 | the loop stops at the first item that raises and otherwise places every item |
| Amr3D.Synchroniser.ReadItem | ui_code/ui/scene/amr_3d.py:159-177 | item `i` is read as step `i` |
| Amr3D.Synchroniser.RemoveUnseen | ui_code/ui/scene/amr_3d.py:181-190 | the removal pass deletes the unseen children and pops their keys from every cache |
| Amr3D.Synchroniser.Update | ui_code/ui/scene/amr_3d.py:193-237 | with no targets only the tick moves; otherwise every moving robot advances by one frame of the clamped frame time, and the invariant is kept |
| Amr3D.Synchroniser.StepAll | ui_code/ui/scene/amr_3d.py:206-237 | the loop over the targets yields the frame of all moving robots |
| Amr3D.PlacePrefixUnchangedAfterFailure | ui_code/ui/scene/amr_3d.py:158-179 | once an item raises, the items after it change nothing |
| Client.NormBaseUrl | ui_code/client.py:48 | the base URL ends in exactly one slash, after the URL with its trailing slashes stripped |
| Client.NormBaseUrlIdempotent | ui_code/client.py:48 | normalising a base URL twice is normalising it once |
| Client.NormBaseUrlIgnoresTrailingSlashes | ui_code/client.py:48 | URLs that differ only in trailing slashes normalise the same |
| Client.RStripSlashes | ui_code/client.py:48 | stripping trailing slashes ignores any number of added slashes |
| Client.PollInterval | ui_code/client.py:50 | the poll interval is never below 0.05 s, and a larger one is kept |
| Client.SleepFor | ui_code/client.py:172-176 | the wait after a round is never negative and makes the round last the interval when it finished early |
| Client.RequestUrl | ui_code/client.py:103 | the request URL is the base URL followed by the endpoint without its leading slashes |
| Client.SimplePayloadFields | ui_code/client.py:221-222 | a simple payload holds exactly `dataType` and `mapCode`, in that order |
| Client.FollowUps | ui_code/client.py:184-219 | no answer or a falsy one issues nothing; an answer that is truthy but not a dict raises |
| Client.FollowUpsOrder | ui_code/client.py:196-219 | after a successful answer MissionInfo and ReservationInfo always go out last, preceded by AMRInfo, ContainerInfo and WorkingInfo exactly when the KMReS status is truthy |
| Client.FailedAnswerStops | ui_code/client.py:189-194 | an answer without success issues nothing further |
| Client.KmresOnFirstElement | ui_code/client.py:197-215 | a data list whose first element has `kMReSStatus` true sends all five follow-ups |
| Client.CallsAt | ui_code/client.py:236-266 | every callback of a list is called once with the event, in registration order |
| Client.AliveRunReportsOnce | ui_code/client.py:225-230 | a run of equal alive values reports at most one change, and none when it repeats the current value |
| Client.AliveEdgesAlternate | ui_code/client.py:225-230 | reported alive changes alternate and the first one differs from the starting value |
| Client.AliveEdgesSnoc | ui_code/client.py:225-230 | one more alive value reports a change exactly when it differs from the last one |
| Client.DigitalTwinClient.constructor | ui_code/client.py:41-69 | a new client has the normalised base URL, the clamped interval, map code `RR_Floor`, is not alive and has no callbacks |
| Client.DigitalTwinClient.SetBaseUrl | ui_code/client.py:79-80 | only the base URL changes, to its normalised form |
| Client.DigitalTwinClient.AddOnAliveChange | ui_code/client.py:139-140 | the callback is appended to the alive-change list and nothing else changes |
| Client.DigitalTwinClient.AddOnRequest | ui_code/client.py:142-143 | the callback is appended to the request list and nothing else changes |
| Client.DigitalTwinClient.AddOnResponse | ui_code/client.py:145-148 | the callback is appended to the response list and nothing else changes |
| Client.DigitalTwinClient.AddOnError | ui_code/client.py:150-153 | the callback is appended to the error list and nothing else changes |
| Client.DigitalTwinClient.Start | ui_code/client.py:82-92 | a running poller keeps its map code; otherwise the new map code is taken |
| Client.DigitalTwinClient.ServerDown | ui_code/client.py:131-133 | the server counts as down exactly when the client is not alive |
| Client.DigitalTwinClient.SetAlive | ui_code/client.py:225-230 | the alive flag takes the value, and the change callbacks fire, in order, only when it changed |
| Client.DigitalTwinClient.RequestPostApi | ui_code/client.py:101-125 | the POST goes to the request URL; an answer makes the client alive and returns the body (an empty dict when it is not JSON); a raise makes it not alive and returns nothing; the callback calls are request, then alive change, then response or error |
| Client.DigitalTwinClient.PostSimple | ui_code/client.py:221-223 | a simple POST sends `{dataType, mapCode}` to the DigitalTwin endpoint, leaves the client alive exactly when it was answered, and makes the callback calls of one POST from the alive state before it |
| Client.DigitalTwinClient.PostConnectionInfo | ui_code/client.py:178-219 | the ConnectionInfo POST is followed by exactly the follow-up POSTs its answer calls for; `ok` is false where the source raises (a truthy answer that is not a dictionary); the callback calls are one group per POST, in order, each from the alive state the POST before it left; afterwards the client is alive exactly when the round's last POST was answered |
| Client.DigitalTwinClient.FollowUp | ui_code/client.py:185-219 | after the ConnectionInfo answer nothing more goes out for a missing, falsy or unsuccessful answer, a truthy answer that is not a dictionary raises, and otherwise the fan-out goes out with one group of callback calls per POST; the client is left alive exactly when the last follow-up was answered, and as it was when there is none |
| Client.DigitalTwinClient.FanOut | ui_code/client.py:212-219 | the follow-up POSTs are the three KMReS ones when the status is truthy, then MissionInfo and ReservationInfo; their callback calls are one group per POST in that order, and the client is left alive exactly when the last one (ReservationInfo) was answered |
| Client.DigitalTwinClient.PostKmresRound | ui_code/client.py:212-219 | with KMReS up, the five follow-ups go out in order with one group of callback calls each, the groups chained through the alive state; the client is left alive exactly when ReservationInfo was answered |
| Client.DigitalTwinClient.PostHead | ui_code/client.py:212-215 | the three KMReS POSTs go out in order with one group of callback calls each; the client is left alive exactly when WorkingInfo was answered |
| Client.DigitalTwinClient.PostPair | ui_code/client.py:217-219 | two simple POSTs go out in order as requests `k` and `k + 1` with one group of callback calls each; the client is left alive exactly when the second was answered (MissionInfo then ReservationInfo is the tail of the fan-out) |
| Client.RoundCallsAt | ui_code/client.py:106-125 | in a run of POSTs, group `i` is the calls of POST `i` with its own outcome, started from the alive state the POST before it left (the caller's for the first) |
| Client.RoundCallsAppend | ui_code/client.py:212-219 | two runs of POSTs in a row are one run when the second starts from the alive state the first left |
| Client.KmresRoundJoin | ui_code/client.py:212-219 | the KMReS POSTs followed by the tail started from the alive state WorkingInfo left are, in POSTs and in callback calls, the whole fan-out |
| Client.Emit | ui_code/client.py:236-266 | an emitter calls every callback in order and logs exactly the ones that raise, going on after them |
| Client.PostReportsOneOutcome | ui_code/client.py:106-125 | a POST that raised reports to the error callbacks and never a response; one answered never reports an error |
| Client.CallsEvent | ui_code/client.py:236-266 | every call an emitter makes carries its event |
| Client.Posts | ui_code/client.py:212-223 | a list of payloads becomes one POST per payload to the same URL, in order |
| Client.CallsAppend | ui_code/client.py:139-153 | a callback registered last is called last |
| Client.RaisingAppend | ui_code/client.py:238-241 | a raising callback registered last is logged last |
| Snapshot.NoneText | ui_code/__init__.py:250-259 | `str(None)` is not integer text and, lower-cased, is `none`, which names no status |
| Snapshot.BracketText | ui_code/__init__.py:250-259 | the text of a list or a dict is not integer text and names no status |
| Snapshot.IntText | ui_code/__init__.py:250-251 | the decimal text of an integer is its own stripped form |
| Snapshot.NotAStatusWord | ui_code/__init__.py:254-259 | text that does not start with a lower-case letter names no status |
| Snapshot.StatusCodeIsTextCode | ui_code/__init__.py:244-259 | for every value that is not a number the status code is `int(str(s).strip())`, else the lookup of the stripped lower-cased text among idle→3, intask/running/working→4, charging→5, else 0 |
| Snapshot.MissingStatusIsZero | ui_code/__init__.py:246-259 | a record without any status key has code 0 |
| Snapshot.Codes | ui_code/__init__.py:264-265 | one status code per record, in order |
| Snapshot.TallyCodes | ui_code/__init__.py:261-272 | the total is the number of records, and working + waiting + charging never exceeds it |
| Snapshot.CodesSnoc | ui_code/__init__.py:264-265 | the codes of one more record are the old codes followed by its code |
| Snapshot.TallyCodesSnoc | ui_code/__init__.py:264-271 | counting one more code updates exactly the counter of that code |
| Snapshot.TallyCountsCodes | ui_code/__init__.py:264-272 | waiting is the number of code 3, working of code 4, charging of code 5 |
| Snapshot.AmrTallyIsTallyCodes | ui_code/__init__.py:261-272 | the loop's counters are the tally of the records' codes |
| Snapshot.AmrTallyOfCodes | ui_code/__init__.py:261-272 | after the loop the total is the number of records and each counter counts the records with its code |
| Snapshot.AmrCountsOf | ui_code/__init__.py:233-272 | data that is not a list counts as empty; an item that is not a dict raises and posts no counter |
| Snapshot.CountAmrs | ui_code/__init__.py:261-272 | the counting loop computes exactly the AMRInfo counters, or fails where the source raises |
| Snapshot.NotAnOffMapWord | ui_code/__init__.py:305-306 | node text starting with neither `n` nor `o` is not an off-map marker |
| Snapshot.NodeOnMapIsText | ui_code/__init__.py:305-306 | the node test agrees with testing the stripped lower-cased `str(nodeCode)` against `""`, `none`, `off_map`, `offmap` |
| Snapshot.CarryKindIsTextCarry | ui_code/__init__.py:315-333 | for a value that is not a bool the carry kind is decided by `int(str(v).strip())` first, then by the keywords |
| Snapshot.NotACarryWord | ui_code/__init__.py:328-330 | text starting with none of `0`, `s`, `p` is not a parking keyword |
| Snapshot.CarryNumberAndText | ui_code/__init__.py:319-324 | a carry flag reads the same as a bool, an int and its decimal text: only zero and `False` are stationary |
| Snapshot.StationaryOnlyFor | ui_code/__init__.py:322-333 | text is stationary exactly when it parses as 0 or is `stationary`, `stay` or `parked` in any case; every other text is in handling |
| Snapshot.Places | ui_code/__init__.py:339-347 | one place per container, in order |
| Snapshot.TallyPlaces | ui_code/__init__.py:335-347 | every container lands in exactly one counter: off map + stationary + in handling equals the total |
| Snapshot.PlacesSnoc | ui_code/__init__.py:339-347 | the places of one more container are the old places followed by its place |
| Snapshot.TallyPlacesSnoc | ui_code/__init__.py:339-347 | counting one more container updates exactly the counter of its place |
| Snapshot.TallyCountsPlaces | ui_code/__init__.py:339-347 | each counter is the number of containers in its place |
| Snapshot.ContainerTallyIsTallyPlaces | ui_code/__init__.py:335-347 | the loop's counters are the tally of the containers' places |
| Snapshot.ContainerTallyOfPlaces | ui_code/__init__.py:296-347 | after the loop the total is the number of containers and each counter counts its place |
| Snapshot.ContainerCountsOf | ui_code/__init__.py:293-347 | data that is not a list counts as empty; an item that is not a dict raises |
| Snapshot.CountContainers | ui_code/__init__.py:335-347 | the counting loop computes exactly the ContainerInfo counters, or fails where the source raises |
| Snapshot.ContainerKey | ui_code/__init__.py:362-367 | the container key is never empty: the first truthy of containerCode, id and name, else `C` and the 1-based index in three digits |
| Snapshot.NormEntryFacts | ui_code/__init__.py:359-380 | a normalised record carries its key and a string model (`-` when absent), always has `inMapStatus`, and keeps every other field |
| Snapshot.NormKeepsInMap | ui_code/__init__.py:298-306 | the cached map flag agrees with the counters' `_in_map` unless the record holds an explicit null `isOffMap` |
| Snapshot.NullOffMapDisagrees | ui_code/__init__.py:303-304 | a container whose only field is a null `isOffMap` is counted off the map yet cached as on the map |
| Snapshot.EntryOfDict | ui_code/__init__.py:358-382 | each item contributes its key and its normalised record |
| Snapshot.NormKeys | ui_code/__init__.py:356-383 | the normalised cache holds exactly the items' keys |
| Snapshot.NormLastWins | ui_code/__init__.py:382 | a key holds the normalised record of the last item carrying it |
| Snapshot.NormContainers | ui_code/__init__.py:356-383 | the normalisation loop builds exactly the normalised cache, or fails on the first item that is truthy and not a dict (taken as the raise of `dict(it)`; a list of pairs, which `dict()` accepts, is not modelled) |
| Snapshot.Runs | ui_code/__init__.py:196-204 | draining runs one job per queued job |
| Snapshot.RunsInOrder | ui_code/__init__.py:196-204 | every job runs, in order, whether or not an earlier one failed |
| Snapshot.UiJobs.constructor | ui_code/__init__.py:93 | the queue starts empty once the extension has started, and is absent before |
| Snapshot.UiJobs.Post | ui_code/__init__.py:177-190 | a job is appended to the queue, or run at once while no queue exists |
| Snapshot.UiJobs.Drain | ui_code/__init__.py:192-204 | every queued job runs in FIFO order and the queue is left empty; a missing queue does nothing |
| Snapshot.UiJobs.Shutdown | ui_code/__init__.py:140-146 | a non-empty queue is cleared and dropped; an empty one is falsy and stays |
| Snapshot.ProbeAlive | ui_code/__init__.py:56-64 | an opened request is alive, any other error is not, and an HTTP error is alive when the flag is set or its code is in [200, 400) |
| Snapshot.Alives | ui_code/__init__.py:54-64 | each probe gives its own alive value, in order |
| Snapshot.PingReportsSnoc | ui_code/__init__.py:66-72 | one more probe reports exactly when it differs from the last value |
| Snapshot.PingReportsSnocFirst | ui_code/__init__.py:66-72 | the same holds from the first probe on |
| Snapshot.PingReportsAlternate | ui_code/__init__.py:66-72 | the first probe always reports, a report differs from the value before it, and reports alternate |
| Snapshot.HttpPinger.constructor | ui_code/__init__.py:27-42 | a new pinger keeps its options and has no last value |
| Snapshot.HttpPinger.Run | ui_code/__init__.py:54-74 | a run of probes calls `on_change` exactly on the changes, when there is a callback, and leaves the last value seen |
| Handlers.InProgressSpec | ui_code/__init__.py:394-398 | the in-progress count exists exactly when every mission is a dict; it is at most the number of missions, zero exactly when no mission has robots, and all of them exactly when every one has |
| Handlers.ConnectionDots | ui_code/__init__.py:404-409 | the OPC UA dot is lit exactly when one of its three status keys is truthy and the Storage I/O dot exactly when one of its two is; an empty or missing record turns both off |
| Handlers.RespondIgnores | ui_code/__init__.py:225-229 | a response without a payload, or of another data type, posts nothing; a payload or response that is not a dict raises |
| Handlers.AmrInfoReaction | ui_code/__init__.py:233-290 | AMRInfo raises exactly when an item is not a dict; otherwise the total label is the number of records, each counter counts the records with its status code, and the cards, the scene, the stored snapshot and (when built) the control panel all get that list |
| Handlers.ContainerInfoReaction | ui_code/__init__.py:292-391 | ContainerInfo raises exactly when an item is not a dict; otherwise the three counters add up to the total label and the container cache becomes the normalised table |
| Handlers.MissionLabels | ui_code/__init__.py:394-402 | MissionInfo posts the number of reserved missions; WorkingInfo posts the number of missions with robots, which never exceeds the number of missions |
| Handlers.AlivePosts | ui_code/__init__.py:207-211 | the server dot follows the alive flag, and a lost server also turns the OPC UA and Storage I/O dots off |
| Handlers.ResponseErrorsSpec | ui_code/__init__.py:217-223 | a dict response posts nothing exactly when its `success` is truthy; otherwise it posts one line with its message, or "Unknown error" when it has none |
| Layout.ErrorLine | ui_code/main.py:166-167 | a log line is `[Error] ` and the text, with ` (xN)` only for a count above one |
| Layout.AppendedValid | ui_code/main.py:152-188 | appending keeps the log at most five lines, with a count between 1 and 5 and the last line showing the last text |
| Layout.RepeatRewritesLast | ui_code/main.py:158-168 | a repeat of the last text within 20 s rewrites only the last line, the count grows by one up to five, and the line count is unchanged |
| Layout.NewTextAddsLine | ui_code/main.py:170-188 | new text resets the count to 1 and is appended while fewer than five lines exist; otherwise the oldest line is dropped, the rest move up and the text is the last line |
| Layout.BurstCapsCount | ui_code/main.py:158-168 | a burst of repeats keeps the line count and the last line reads the text with `min(count + k, 5)` |
| Layout.ErrorLog.constructor | ui_code/main.py:68-74 | the log starts empty and valid |
| Layout.ErrorLog.Append | ui_code/main.py:152-188 | with an error stack the log takes the appended state, the shift loop included; without one nothing changes; the invariant is kept |
| Layout.AmrIdOf | ui_code/main.py:223-230 | the card id is never empty |
| Layout.AmrIdFallbacks | ui_code/main.py:223-230 | the card id is `str` of the first truthy of robotId, amrId, id and name, else `AMR-` and the 1-based index |
| Layout.PlaceholderRecordIsBlank | ui_code/main.py:244-247 | a placeholder card shows blanks and an empty battery bar |
| Layout.PlaceholderGets | ui_code/main.py:246 | the placeholder record binds only `batteryLevel`, to 0, to a non-null value |
| Layout.PlaceholderKeyIsPlaceholder | ui_code/main.py:241 | every placeholder key starts with `__placeholder_` |
| Layout.PlaceholdersAdd | ui_code/main.py:236-248 | showing placeholders adds exactly the missing placeholder keys and keeps every existing card |
| Layout.InsertAllSnoc | ui_code/main.py:258-269 | one more record updates or creates exactly the card of its id |
| Layout.FirstsAt | ui_code/main.py:256-260 | the seen set holds exactly the ids of the list |
| Layout.InsertAllKeys | ui_code/main.py:258-269 | after the item loop the cards are the old cards and the list's ids, and a card whose key is not listed is unchanged |
| Layout.InsertAllLast | ui_code/main.py:262-269 | a listed id's card holds the last record with that id |
| Layout.CleanupFacts | ui_code/main.py:271-294 | the clean-up keeps exactly the seen ids that are not placeholder keys; a kept card holds its record, or `{}` after a rebuild |
| Layout.SyncKeys | ui_code/main.py:250-294 | after a non-empty list the cards are exactly its ids that are not placeholder keys |
| Layout.SyncEmptyKeepsCards | ui_code/main.py:255-285 | an empty or non-list input removes nothing |
| Layout.SyncViews | ui_code/main.py:258-294 | a listed id shows its last record, or blanks when placeholders were just removed and the cards rebuilt |
| Layout.CardTable.constructor | ui_code/main.py:242 | the card table starts empty |
| Layout.CardTable.ShowPlaceholders | ui_code/main.py:236-248 | with a card stack the missing placeholders are added; without one nothing changes |
| Layout.CardTable.Sync | ui_code/main.py:250-294 | the new cards are the reconciliation of the old cards with the list; without a card stack nothing changes |
| Layout.CardTable.UpdateCards | ui_code/main.py:258-269 | the item loop inserts each record under its id, in order, and returns the set of ids |
| AmrCard.FirstIndex | ui_code/ui/components/amr_card.py:55-59 | the lookup index is that of the first key present with a non-null value: every earlier key is absent or null, and `|keys|` means none is set |
| AmrCard.FirstPresentSpec | ui_code/ui/components/amr_card.py:55-59 | the lookup reads the key at that index, and `None` when no key is set |
| AmrCard.FirstPresentNone | ui_code/ui/components/amr_card.py:55-59 | with every key absent or null the lookup reads `None` |
| AmrCard.FirstPresentPicks | ui_code/ui/components/amr_card.py:55-59 | a present non-null key decides the lookup when every key before it is absent or null |
| AmrCard.BatteryFraction | ui_code/ui/components/amr_card.py:70-77 | the battery bar value always lies in [0, 1] |
| AmrCard.Battery | ui_code/ui/components/amr_card.py:70-77 | a record's battery value always lies in [0, 1] |
| AmrCard.BatteryFractionCases | ui_code/ui/components/amr_card.py:70-77 | a reading in [0, 1] is kept, one in (1, 100] is divided by 100, one above 100 shows 1, a negative one 0, and one `float()` rejects shows 0 |
| AmrCard.RackFallback | ui_code/ui/components/amr_card.py:63 | the rack line is `str` of the first non-null rack key, and `-` when that is falsy |
| AmrCard.WorkingTypeFallbacks | ui_code/ui/components/amr_card.py:65-68 | the working type is the first truthy of the mission fields, else the mission code, else `Waiting` when the waiting flag is truthy, else `-` |
| AmrCard.EmptyWorkingTypeHidesMissionType | ui_code/ui/components/amr_card.py:55-59 | an empty `workingType` hides a later `missionType`, since the lookup stops at the first non-null key |
| AmrCard.CardOf | ui_code/ui/components/amr_card.py:54-77 | what a card shows has its battery in [0, 1] |
| AmrCard.CardFields | ui_code/ui/components/amr_card.py:61-77 | the status and lift lines are the shared formatters of the first non-null status and lift keys; rack, working type and battery are their own formatters |
| AmrCard.Card.constructor | ui_code/ui/components/amr_card.py:7-13 | a new card shows `-` in every line and an empty bar |
| AmrCard.Card.Update | ui_code/ui/components/amr_card.py:54-77 | every model of the card is refilled from the record |
| AmrCard.NullRecordIsBlank | ui_code/ui/components/amr_card.py:54-77 | a record without any of the card's fields shows `-` everywhere and an empty bar |
| AmrCard.BlankRecord | ui_code/ui/components/amr_card.py:54-77 | an empty record shows blanks |
| AmrDetails.BarColourOf | ui_code/AMR/amr_details_panel.py:112-118 | the bar is green exactly from 0.70 up, orange exactly in [0.20, 0.70), red exactly below 0.20 |
| AmrDetails.BarColourMonotone | ui_code/AMR/amr_details_panel.py:112-118 | more charge never gives a more alarming colour |
| AmrDetails.LowerUpper | ui_code/AMR/amr_details_panel.py:133 | lower-casing after upper-casing is lower-casing |
| AmrDetails.DotCaseInsensitive | ui_code/AMR/amr_details_panel.py:130-139 | the status dot does not depend on letter case |
| AmrDetails.MissingCharNotContained | ui_code/AMR/amr_details_panel.py:134-136 | a pattern with a character the text lacks does not occur in it |
| AmrDetails.ChargingLightsDot | ui_code/AMR/amr_details_panel.py:130-139 | the status text of code 5 lights the charging dot |
| AmrDetails.IdleLightsDot | ui_code/AMR/amr_details_panel.py:130-139 | the status text of code 3 lights the waiting dot |
| AmrDetails.InTaskLightsDot | ui_code/AMR/amr_details_panel.py:130-139 | the status text of code 4 lights the working dot |
| AmrDetails.InTaskText | ui_code/AMR/amr_details_panel.py:130-139 | `INTASK` contains neither `charg`, `idle` nor `wait` and lights the working dot |
| AmrDetails.Position | ui_code/AMR/amr_details_panel.py:167-177 | the position is `-` exactly when x or y is missing, and carries θ exactly when an orientation key is set |
| AmrDetails.SelectedId | ui_code/AMR/amr_details_panel.py:153-155 | the selected id changes only when a truthy id key is found |
| AmrDetails.MissingFieldsShowDash | ui_code/AMR/amr_details_panel.py:163-165 | rack, mission and node read `-` for a record without them |
| AmrDetails.DetailsOf | ui_code/AMR/amr_details_panel.py:146-187 | the battery is in [0, 1], the dot follows the status text and the bar colour follows the battery, when those widgets exist |
| AmrDetails.ViewFields | ui_code/AMR/amr_details_panel.py:153-186 | each line of the panel is its field's formatter applied to the record |
| AmrDetails.Panel.constructor | ui_code/AMR/amr_details_panel.py:23-38 | a new panel has no window and shows `-` in every line and an empty bar |
| AmrDetails.Panel.Show | ui_code/AMR/amr_details_panel.py:41-105 | a truthy id becomes the selected id; a built window is only made visible, else it is built with the dot in the waiting colour and the bar coloured for the current level |
| AmrDetails.Panel.Update | ui_code/AMR/amr_details_panel.py:146-187 | the panel is refilled from the record, keeping the selected id where the source keeps it; the dot and bar are recoloured only once the window has built them |
| AmrDetails.Panel.SetSelectedId | ui_code/AMR/amr_details_panel.py:190-193 | only the selected id changes, and a built window is made visible |
| AmrControl.KeyLessIrreflexive | ui_code/AMR/amr_control_panel.py:21-23 | the sort key order is irreflexive |
| AmrControl.KeyLessTransitive | ui_code/AMR/amr_control_panel.py:21-23 | the sort key order is transitive |
| AmrControl.KeyLessTotal | ui_code/AMR/amr_control_panel.py:21-23 | any two distinct sort keys are ordered one way or the other |
| AmrControl.DedupFacts | ui_code/AMR/amr_control_panel.py:24 | `set(ids)` holds each input id exactly once and nothing else |
| AmrControl.InsertPos | ui_code/AMR/amr_control_panel.py:24 | an id is inserted before the first id with a larger key and after every other one |
| AmrControl.InsertSortedFacts | ui_code/AMR/amr_control_panel.py:24 | inserting into a sorted list keeps it sorted and adds exactly that id |
| AmrControl.SortByKeyFacts | ui_code/AMR/amr_control_panel.py:24 | sorting gives a sorted permutation of its input |
| AmrControl.SortDistinctSpec | ui_code/AMR/amr_control_panel.py:24 | sorting the distinct ids gives each input id once, in key order |
| AmrControl.NumericSortSpec | ui_code/AMR/amr_control_panel.py:19-24 | the sorted ids are duplicate-free, hold exactly the input ids, and are ordered by key |
| AmrControl.NumericIdsFirst | ui_code/AMR/amr_control_panel.py:21-24 | ids that are all digits after `strip` come first in numeric order; the others follow in text order |
| AmrControl.Values | ui_code/AMR/amr_control_panel.py:71 | a dict input is read through its values, one per field |
| AmrControl.CollectNonBlank | ui_code/AMR/amr_control_panel.py:72-77 | the collected ids are never blank |
| AmrControl.OptionsOf | ui_code/AMR/amr_control_panel.py:78 | the dropdown options are never empty |
| AmrControl.OptionsSpec | ui_code/AMR/amr_control_panel.py:69-78 | the options are exactly the non-blank stripped ids, each once and in key order, or the lone `-` |
| AmrControl.IndexOf | ui_code/AMR/amr_control_panel.py:102-105 | a non-empty offered id gives its first position, and anything else 0 |
| AmrControl.FirstIndex | ui_code/AMR/amr_control_panel.py:104 | `list.index` gives the first position of an offered id |
| AmrControl.SelectionKept | ui_code/AMR/amr_control_panel.py:80-111 | after a refresh the selection is the previous id when it is still offered, and the first option otherwise |
| AmrControl.CommandAt | ui_code/AMR/amr_control_panel.py:9 | `_COMMANDS[i]` exists exactly for `-5 <= i < 5`, with Python's negative indices |
| AmrControl.DataTypesDistinct | ui_code/AMR/amr_control_panel.py:10-16 | every listed command has its own data type |
| AmrControl.UnknownCommandIsMove | ui_code/AMR/amr_control_panel.py:215 | a command outside the map is sent as `ManualMove` |
| AmrControl.EditableIffSent | ui_code/AMR/amr_control_panel.py:180-200 | a field is editable exactly when the command's data type can send it: node for the moves, container for a rack move, mission for a cancel |
| AmrControl.UpperNoLower | ui_code/AMR/amr_control_panel.py:205 | upper-cased text has no lower-case letter |
| AmrControl.SpacesDropped | ui_code/AMR/amr_control_panel.py:205 | stripping, upper-casing and dropping spaces leaves no space, no lower-case letter and no edge white space |
| AmrControl.DotFixClean | ui_code/AMR/amr_control_panel.py:206-207 | replacing a leading `.` by `_` keeps the text clean and removes the leading dot |
| AmrControl.CanonNodeShape | ui_code/AMR/amr_control_panel.py:203-209 | a canonical node code is stripped, upper-case, space-free and does not start with `.` |
| AmrControl.CleanNodeFixed | ui_code/AMR/amr_control_panel.py:203-209 | a node code of that shape is its own canonical form |
| AmrControl.CanonNodeIdempotent | ui_code/AMR/amr_control_panel.py:203-209 | canonicalising twice is canonicalising once |
| AmrControl.PayloadBase | ui_code/AMR/amr_control_panel.py:217-221 | the payload starts with dataType, mapCode and amrId, and every later key is one of the optional three |
| AmrControl.PayloadNode | ui_code/AMR/amr_control_panel.py:228-236 | `targetNodeCode` is sent exactly for the two move types with a non-empty node |
| AmrControl.PayloadContainer | ui_code/AMR/amr_control_panel.py:232-234 | `containerCode` is sent exactly for a rack move with a non-empty container |
| AmrControl.PayloadMission | ui_code/AMR/amr_control_panel.py:238-240 | `cancelMissionCode` is sent exactly for a cancel with a non-empty mission code |
| AmrControl.PauseResumeBare | ui_code/AMR/amr_control_panel.py:242 | Pause and Resume send only the three fixed keys |
| AmrControl.OptionalKeysEditable | ui_code/AMR/amr_control_panel.py:180-242 | a key beyond the fixed three is always one whose field is editable for the command |
| AmrControl.ControlPanel.constructor | ui_code/AMR/amr_control_panel.py:30-62 | a new panel offers `-`, selects index 0 and `-`, has empty fields, no widgets and nothing sent |
| AmrControl.ControlPanel.SyncSelectedString | ui_code/AMR/amr_control_panel.py:107-111 | the selected text is the option at the index, or `-` out of range; nothing else changes |
| AmrControl.ControlPanel.SetAmrIndex | ui_code/AMR/amr_control_panel.py:44-47 | setting the index also syncs the selected text |
| AmrControl.ControlPanel.CollectIds | ui_code/AMR/amr_control_panel.py:72-77 | the loop collects the non-blank ids of the items, in order |
| AmrControl.ControlPanel.UpdateAmrList | ui_code/AMR/amr_control_panel.py:69-111 | the options become the sorted ids, the previous selection stays selected when still offered, and the command and fields are untouched |
| AmrControl.ControlPanel.RefreshFields | ui_code/AMR/amr_control_panel.py:180-200 | the read-only flags follow the command's matrix when the fields exist; `ok` is false on the `IndexError` of a command index out of range |
| AmrControl.ControlPanel.SetCommand | ui_code/AMR/amr_control_panel.py:50-62 | choosing a command also refreshes the fields |
| AmrControl.ControlPanel.Show | ui_code/AMR/amr_control_panel.py:114-177 | a truthy id is selected (the first option when not offered), the fields are built once, the window is shown and the fields refreshed |
| AmrControl.ControlPanel.BuildPayload | ui_code/AMR/amr_control_panel.py:217-240 | the payload dict is filled key by key into the allow-listed payload |
| AmrControl.ControlPanel.PayloadFor | ui_code/AMR/amr_control_panel.py:213-240 | the widget texts are stripped, the node canonicalised, then the payload is built |
| AmrControl.ControlPanel.Dispatch | ui_code/AMR/amr_control_panel.py:212-252 | a valid command sends its payload (when there is a client) and closes the window; an index out of range raises before anything |
| ContainerList.TextTruth | ui_code/Container/container_list_panel.py:218-224 | a text reads true exactly when its stripped lower-case form is one of `1`, `true`, `t`, `y`, `yes`, `on` |
| ContainerList.TextKeepsTruth | ui_code/Container/container_list_panel.py:218-224 | writing a bool, `None`, 0 or 1 as text keeps its truth value |
| ContainerList.BoolTextTruth | ui_code/Container/container_list_panel.py:218-224 | `str(True)` reads true and `str(False)` reads false |
| ContainerList.BitTextTruth | ui_code/Container/container_list_panel.py:218-224 | `"1"` reads true and `"0"` reads false |
| ContainerList.NumberTextIsOne | ui_code/Container/container_list_panel.py:218-224 | every non-zero number reads true, yet the text of a number reads true only for 1 |
| ContainerList.DigitTrueWord | ui_code/Container/container_list_panel.py:224 | `1` is the only true word made of digits |
| ContainerList.NoTrueWordStartsWith | ui_code/Container/container_list_panel.py:224 | no true word starts with a character other than `1`, `t`, `y`, `o` |
| ContainerList.MinusTextIsFalse | ui_code/Container/container_list_panel.py:223-224 | a minus sign before digits reads false |
| ContainerList.LeadingUpper | ui_code/Container/container_list_panel.py:91-93 | the match is the longest prefix of capital letters |
| ContainerList.ModelOfNumber | ui_code/Container/container_list_panel.py:78-82 | an integer is LR, LF, AR, AC, AF, P for 1 to 6, and otherwise its decimal text |
| ContainerList.ModelOfDigits | ui_code/Container/container_list_panel.py:78-82 | a digit string reads as the integer it spells, leading zeros and surrounding white space dropped |
| ContainerList.ModelOfBool | ui_code/Container/container_list_panel.py:77-89 | a bool is no integer text for `int()` and shows as `TRUE` or `FALSE` |
| ContainerList.WordText | ui_code/Container/container_list_panel.py:78-79 | a word starting with a capital letter is no integer text |
| ContainerList.ModelOfText | ui_code/Container/container_list_panel.py:85-94 | any other text is its stripped upper-case form unless that is empty, `-` or `NONE`; then the container code's capital prefix, else `-` |
| ContainerList.ModelOfNull | ui_code/Container/container_list_panel.py:85-94 | a missing model falls back to the container code |
| ContainerList.PrintedBracket | ui_code/Container/container_list_panel.py:85-89 | a printed list or dict is neither digits nor an excluded word |
| ContainerList.ModelOfContainer | ui_code/Container/container_list_panel.py:85-89 | a list or dict takes the text path on its printed form |
| ContainerList.CapitalsKept | ui_code/Container/container_list_panel.py:85-89 | a code of capital letters other than `NONE` is kept as it is |
| ContainerList.TextStable | ui_code/Container/container_list_panel.py:85-94 | a stripped upper-case non-digit text is kept, or falls back to the code prefix, and that result is kept again |
| ContainerList.CanonModelIdempotent | ui_code/Container/container_list_panel.py:76-94 | normalising a normalised model code again, against the same container code, changes nothing |
| ContainerList.BoolStable | ui_code/Container/container_list_panel.py:76-94 | the model code of a bool is stable |
| ContainerList.WordKept | ui_code/Container/container_list_panel.py:85-89 | `TRUE` and `FALSE` are kept as they are |
| ContainerList.StrStable | ui_code/Container/container_list_panel.py:76-94 | the model code of a string is stable |
| ContainerList.ContainerStable | ui_code/Container/container_list_panel.py:76-94 | the model code of a list or dict is stable |
| ContainerList.NamedOrTextStable | ui_code/Container/container_list_panel.py:80-82 | a model name or decimal text maps to itself |
| ContainerList.MinusDigitsStay | ui_code/Container/container_list_panel.py:85-89 | a minus sign before digits is kept as it is |
| ContainerList.PlaceholderFallsBack | ui_code/Container/container_list_panel.py:86-94 | `-` and `NONE` fall back to the code prefix |
| ContainerList.PrefixStable | ui_code/Container/container_list_panel.py:90-94 | the code-prefix fallback is stable |
| ContainerList.WithCodeFacts | ui_code/Container/container_list_panel.py:102 | `setdefault` adds the id only when `containerCode` is missing |
| ContainerList.InMapFlagFrame | ui_code/Container/container_list_panel.py:102-113 | the map flag does not depend on the model-code and container-code fields written before it |
| ContainerList.NormRecordByFacts | ui_code/Container/container_list_panel.py:100-114 | one normalised record keeps its code, holds the model code and the map flag, and keeps every other field |
| ContainerList.NormRecordFacts | ui_code/Container/container_list_panel.py:100-114 | a normalised record keeps its container code (the id when it had none), holds the canonical model code and the map flag as a bool (`inMapStatus`, else not `isOffMap`, else the previous snapshot's flag, else false), and keeps every other field |
| ContainerList.MapValues | ui_code/Container/container_list_panel.py:116-123 | one entry per input entry |
| ContainerList.MapValuesAt | ui_code/Container/container_list_panel.py:116-123 | entry `j` keeps its key and gets its normalised value |
| ContainerList.MapValuesKeys | ui_code/Container/container_list_panel.py:116-123 | normalising the values keeps the keys |
| ContainerList.NormKeys | ui_code/Container/container_list_panel.py:96-125 | the table holds exactly the ids of the entries |
| ContainerList.NormLastWins | ui_code/Container/container_list_panel.py:119-123 | an id holds the normalised record of its last entry |
| ContainerList.PairsKeys | ui_code/Container/container_list_panel.py:116-123 | dict input keeps its keys (already text, so `str(k)` is the key) and values in order; list input is keyed by containerCode, then id, then the three-digit position, each item kept as its value; any other input gives no entries |
| ContainerList.ListKeyFallback | ui_code/Container/container_list_panel.py:122 | an item without containerCode and id gets `C` and its three-digit 1-based position |
| ContainerList.ModelCodes | ui_code/Container/container_list_panel.py:137 | one model code per record |
| ContainerList.ModelCodesAt | ui_code/Container/container_list_panel.py:137 | code `j` is record `j`'s model code |
| ContainerList.ModelOptionsSpec | ui_code/Container/container_list_panel.py:137 | the options are `All`, then each model code of the table once, in increasing text order |
| ContainerList.LabelIndex | ui_code/Container/container_list_panel.py:145-146 | a label maps to its last position, and a missing one to 0 |
| ContainerList.LastIndex | ui_code/Container/container_list_panel.py:145 | the index map keeps the last position of a label |
| ContainerList.ListedMeaning | ui_code/Container/container_list_panel.py:175-183 | a record is listed exactly when the model filter is `All` or its model, and the status filter is `All` or agrees with its map flag |
| ContainerList.FilterIdsSpec | ui_code/Container/container_list_panel.py:175-189 | an id is selected exactly when one of its entries passes |
| ContainerList.ListedIdsSpec | ui_code/Container/container_list_panel.py:175-189 | an id is listed exactly when one of its entries passes the filters |
| ContainerList.AllListsEverything | ui_code/Container/container_list_panel.py:175-189 | with both filters on `All` every entry is listed, in order |
| ContainerList.ContainerPanel.constructor | ui_code/Container/container_list_panel.py:16-30 | a new panel has no data, no window, the lone model option `All` and both filters at 0 |
| ContainerList.ContainerPanel.SelectIds | ui_code/Container/container_list_panel.py:175-189 | the loop selects the ids whose record passes, in table order |
| ContainerList.ContainerPanel.Refresh | ui_code/Container/container_list_panel.py:158-193 | with a window the list shows exactly the filtered ids, with the empty note when there are none, an index out of range reading as `All`; without one nothing changes |
| ContainerList.ContainerPanel.MapEntries | ui_code/Container/container_list_panel.py:116-123 | the loop assigns every entry's normalised value, or stops at the first entry that is truthy and not a dict (taken as the raise of `dict(d)`; a list of pairs, which `dict()` accepts, is not modelled) |
| ContainerList.ContainerPanel.Normalize | ui_code/Container/container_list_panel.py:96-125 | the table is the normalisation of the input against the previous snapshot |
| ContainerList.ContainerPanel.UpdateData | ui_code/Container/container_list_panel.py:96-149 | the table is replaced, the model options are rebuilt with the previously chosen label re-selected (else index 0), and the list refreshed; where it raises nothing changes |
| ContainerList.ContainerPanel.RefreshFromResolver | ui_code/Container/container_list_panel.py:151-156 | with a resolver its snapshot (or `{}`) is loaded, otherwise only the list is refreshed |
| ContainerList.ContainerPanel.Show | ui_code/Container/container_list_panel.py:35-73 | the first call creates the window with both filters at `All`; every call shows it and refreshes from the resolver |
| ContainerList.ContainerPanel.SetModelIndex | ui_code/Container/container_list_panel.py:53-55 | choosing a model refreshes the list at once |
| ContainerList.ContainerPanel.SetStatusIndex | ui_code/Container/container_list_panel.py:60-62 | choosing a status refreshes the list at once |
| ContainerList.ContainerPanel.OnReset | ui_code/Container/container_list_panel.py:211-216 | both filters go back to `All` and, with a window, every container is listed in table order |
| MissionList.Cell | ui_code/Mission/mission_panel.py:195-200 | `None` and the empty text show "-", any other text shows itself, and no cell is ever empty |
| MissionList.CellOfZero | ui_code/Mission/mission_panel.py:195-200 | a zero is shown as "0", not as the placeholder |
| MissionList.CellOfFalse | ui_code/Mission/mission_panel.py:195-200 | `False` is shown as "False", not as the placeholder |
| MissionList.Cells | ui_code/Mission/mission_panel.py:116-120 | a row has exactly five cells |
| MissionList.KeyOfSpec | ui_code/Mission/mission_panel.py:105-110 | a reservation row is keyed by its process node, any other row by its mission code, a missing value reading "" |
| MissionList.ReservationAnyCase | ui_code/Mission/mission_panel.py:105-110 | the reservation test ignores the case of the status |
| MissionList.Find | ui_code/Mission/mission_panel.py:139-144 | the position found holds the key, and `|rows|` means no row holds it |
| MissionList.RowOfAt | ui_code/Mission/mission_panel.py:139-144 | in a table with distinct keys the row looked up for a key is the one stored at its position |
| MissionList.AddPassOk | ui_code/Mission/mission_panel.py:137-144 | the first loop runs to the end exactly when every desired row yields a key |
| MissionList.AddPassStops | ui_code/Mission/mission_panel.py:137-144 | once a key has raised, the later rows change nothing |
| MissionList.AddPassKeyAt | ui_code/Mission/mission_panel.py:137-139 | `desired_keys` holds each desired row's key, in order |
| MissionList.AddPassRow | ui_code/Mission/mission_panel.py:137-144 | after the first loop a desired key is present, a key held before keeps its frame and first row, a new key gets a fresh frame, and other keys are untouched |
| MissionList.AddPassLatest | ui_code/Mission/mission_panel.py:140-144 | a desired key shows the last desired row carrying that key |
| MissionList.PruneSub | ui_code/Mission/mission_panel.py:146-153 | the removal loop keeps a subsequence of the rows |
| MissionList.PruneRow | ui_code/Mission/mission_panel.py:146-153 | the removal loop keeps exactly the desired keys, each with its row, and the keys stay distinct |
| MissionList.SyncSpec | ui_code/Mission/mission_panel.py:136-153 | a sync succeeds exactly when every row has a key; it then holds exactly the desired keys, kept rows keep their frames and new rows get fresh frames |
| MissionList.SyncFailed | ui_code/Mission/mission_panel.py:136-144 | a sync stopped by a raising key still leaves a table with distinct keys |
| MissionList.SyncLatest | ui_code/Mission/mission_panel.py:136-153 | after a successful sync each key shows the last desired row with that key |
| MissionList.CancelMatchesKey | ui_code/Mission/mission_panel.py:170-179 | a reservation's Cancel asks to cancel the node its key names; a mission's Cancel asks to cancel its key's mission code, and an empty code sends nothing |
| MissionList.EmptySnapshot | ui_code/Mission/mission_panel.py:94-102 | a resolver that returns nothing gives three empty sections |
| MissionList.TotalIsSum | ui_code/Mission/mission_panel.py:156-160 | the Total label shows, in decimal, the sum of the three section counts |
| MissionList.Section.constructor | ui_code/Mission/mission_panel.py:20-38 | a section starts with no rows |
| MissionList.Section.Sync | ui_code/Mission/mission_panel.py:136-153 | the section's new rows are those of the sync specification, reporting whether a key raised, and its keys stay distinct |
| MissionList.Section.Remove | ui_code/Mission/mission_panel.py:146-153 | the removal loop leaves exactly the pruned rows |
| MissionList.Section.PopAll | ui_code/Mission/mission_panel.py:146-153 | popping every stale key in the order of a copy of the keys gives the pruned rows |
| MissionList.MissionPanel.constructor | ui_code/Mission/mission_panel.py:20-38 | a new panel has no window, empty sections and no requests sent |
| MissionList.MissionPanel.UpdateData | ui_code/Mission/mission_panel.py:155-167 | without a window nothing changes; with one, the counts are the section lengths and the sections are synced in order, a raising key leaving the later sections as they were |
| MissionList.MissionPanel.Refresh | ui_code/Mission/mission_panel.py:94-102 | without a resolver, a window or a well-formed snapshot no count, row or key counter changes (a malformed snapshot fails); otherwise the counts and the three sections are synced in order as by `update_data`, a failing section leaving the later ones as they were |
| MissionList.MissionPanel.Show | ui_code/Mission/mission_panel.py:49-92 | a window already built is only made visible, with counts and sections unchanged; the first call builds it with zero counts and then syncs the snapshot's three sections as `refresh` does |
| MissionList.MissionPanel.ClickCancel | ui_code/Mission/mission_panel.py:170-179 | a Cancel click sends the row's cancel request when a callback is set and the row has one, and changes nothing else |
| MissionList.MissionPanel.ClickResetAll | ui_code/Mission/mission_panel.py:181-183 | a Reset-all click calls the callback once when one is set, and changes nothing else |
| LineCar.Pad3Value | ui_code/ui/scene/linecar.py:399 | the three-digit zero-padded text of a number is a digit string whose value is that number |
| LineCar.CarNameInjective | ui_code/ui/scene/linecar.py:399 | two cars at different positions never get the same name |
| LineCar.Dir | ui_code/ui/scene/linecar.py:284 | the direction is +1 exactly when the end lies at or beyond the start, and -1 otherwise |
| LineCar.SpawnSpacing | ui_code/ui/scene/linecar.py:397-399 | the first car starts on the start point, and each next car one spacing further back against the direction of travel |
| LineCar.ClampDt | ui_code/ui/scene/linecar.py:464-468 | the frame time lies in `[0, 0.1]`: a negative one becomes 0, one above 0.1 becomes 0.1, any other is kept |
| LineCar.WaitingCarStays | ui_code/ui/scene/linecar.py:410-412 | in respawn mode a car whose wait has not run out does not move |
| LineCar.StepMoves | ui_code/ui/scene/linecar.py:430-433 | a car that does not reach the end moves by the signed speed times the frame time and keeps its wait |
| LineCar.LoopStaysBeforeEnd | ui_code/ui/scene/linecar.py:433-438 | in loop mode on a rightward lane with a positive spacing, a step never leaves a car on or past the end |
| LineCar.LoopStaysBeforeEndLeft | ui_code/ui/scene/linecar.py:433-438 | in loop mode on a leftward lane with a positive spacing, a step never leaves a car on or past the end |
| LineCar.RespawnAtEnd | ui_code/ui/scene/linecar.py:433-443 | a respawning car that reaches the end goes back to the start, and waits `respawn_delay` from now when that delay is positive, its old wait kept otherwise |
| LineCar.CarCount | ui_code/ui/scene/linecar.py:276 | there is always at least one car, and a count of one or more is kept |
| LineCar.LineCarSpawner.constructor | ui_code/ui/scene/linecar.py:271-290 | the mode is stripped and lower-cased, the count is at least one, the direction and signed speed follow the lane's ends, and there are no cars and no subscription yet |
| LineCar.LineCarSpawner.SpawnMany | ui_code/ui/scene/linecar.py:388-400 | afterwards the cars are exactly `Car_001` … up to the count, car i placed at its spawn offset with no wait |
| LineCar.LineCarSpawner.Place | ui_code/ui/scene/linecar.py:398-399 | placing under distinct names gives a table holding exactly those names, each with its car |
| LineCar.LineCarSpawner.StepCar | ui_code/ui/scene/linecar.py:405-443 | a missing car leaves the table unchanged; a car whose position cannot be read is dropped unless it is waiting; any other car gets its stepped state |
| LineCar.LineCarSpawner.StepAll | ui_code/ui/scene/linecar.py:447-448 | after the loop a car remains exactly when it was there and is waiting or readable, and each remaining car is stepped once |
| LineCar.LineCarSpawner.Update | ui_code/ui/scene/linecar.py:445-448 | every car is stepped once with the same clock reading, and unreadable cars that are not waiting are dropped |
| LineCar.LineCarSpawner.OnUpdate | ui_code/ui/scene/linecar.py:462-471 | the last frame time becomes now, and every car is stepped by the clamped time since the previous frame |
| LineCar.LineCarSpawner.Start | ui_code/ui/scene/linecar.py:451-456 | starting spawns the cars and subscribes to the update stream |
| LineCar.LineCarSpawner.Stop | ui_code/ui/scene/linecar.py:458-460 | stopping drops the subscription and keeps the cars |
| Chatbot.PayloadSpec | ui_code/Chatbot/chatbot_panel.py:283-288 | the payload always carries the message; it carries a mode exactly when a mode after "(None)" is selected, and then the selected mode's name; an index past the list fails |
| Chatbot.EscapeHtmlIsPerChar | ui_code/Chatbot/chatbot_panel.py:360 | the four replace passes act as one per-character escape: `&`, `<` and `>` become entities and a newline becomes `<br>` |
| Chatbot.UnescapeEscape | ui_code/Chatbot/chatbot_panel.py:360 | escaping loses nothing: the log's text reads back as the message |
| Chatbot.EscapeCharsFrom | ui_code/Chatbot/chatbot_panel.py:360 | every character of the escaped text comes from the message or from an entity, and a `<` or `>` in it can only come from a newline's `<br>` |
| Chatbot.EscapeHtmlNoTags | ui_code/Chatbot/chatbot_panel.py:360 | a message without newlines is escaped to text with no `<` or `>`, so it cannot open or close a tag |
| Chatbot.Base64 | ui_code/Chatbot/chatbot_panel.py:363 | standard base64 (section 4 of RFC 4648) yields four characters for every started group of three bytes |
| Chatbot.Base64RoundTrip | ui_code/Chatbot/chatbot_panel.py:363 | decoding the embedded base64 gives back the image's bytes |
| Chatbot.Base64Empty | ui_code/Chatbot/chatbot_panel.py:363-367 | the base64 text is empty exactly when the image has no bytes |
| Chatbot.TextMsgHtml | ui_code/Chatbot/chatbot_panel.py:356-361 | a user text is a `user` div with the question prefix, any other is a `bot` div with the answer prefix, and both carry the escaped text that reads back as the message |
| Chatbot.ImageMsgHtml | ui_code/Chatbot/chatbot_panel.py:362-367 | an image with bytes is an `img` whose data URI decodes to those bytes; one without is the placeholder div naming the file |
| Chatbot.HtmlAppend | ui_code/Chatbot/chatbot_panel.py:350-371 | the log of a longer history puts the new message's line between the earlier lines and the closing tags |
| Chatbot.HistoryHtmlConcat | ui_code/Chatbot/chatbot_panel.py:355-367 | the log of two histories in a row holds their lines in the same order |
| Chatbot.ReplyOfSpec | ui_code/Chatbot/chatbot_panel.py:295 | a text message is the reply as it is, and a falsy or missing message is the empty reply |
| Chatbot.ClassifySpec | ui_code/Chatbot/chatbot_panel.py:296-302 | a reply is an image reply exactly when it starts with `[image]`; then a name without `[` is the file, stripped; any other reply is shown as it is |
| Chatbot.SafeNameSpec | ui_code/Chatbot/chatbot_panel.py:319 | the cache name has no `/` and no `\`, and keeps every other character of the file name |
| Chatbot.CachePathSpec | ui_code/Chatbot/chatbot_panel.py:318-320 | a downloaded image is stored directly in the cache directory under its safe name |
| Chatbot.DownloadOf | ui_code/Chatbot/chatbot_panel.py:307-327 | every download yields a bot message |
| Chatbot.DownloadSpec | ui_code/Chatbot/chatbot_panel.py:307-327 | the message is an image exactly when the fetch and the write succeed; it then keeps the server's file name and bytes and the cache path; a failure is a text naming the step that failed |
| Chatbot.UrlsSpec | ui_code/Chatbot/chatbot_panel.py:167-178 | the base URL starts with `https://` exactly when https is set and never ends in '/'; the chat, static and clear URLs are that base followed by `/chat`, `/static/<file>` and `/clear`, never coincide, and the static URL determines its file name |
| Chatbot.JobsCount | ui_code/Chatbot/chatbot_panel.py:180-189 | every queued job is either an append or a rebuild |
| Chatbot.AppendedConcat | ui_code/Chatbot/chatbot_panel.py:183-189 | draining two queues one after the other is draining their concatenation |
| Chatbot.ClearFailureJobs | ui_code/Chatbot/chatbot_panel.py:345-347 | a failed clear request shows one message and rebuilds once |
| Chatbot.ReplyMsg | ui_code/Chatbot/chatbot_panel.py:296-302 | the message a reply adds is always a bot message |
| Chatbot.ReplyMsgSpec | ui_code/Chatbot/chatbot_panel.py:295-302 | a text reply is a bot text with the reply's own words; an image reply is what its download gave |
| Chatbot.ChatbotPanel.constructor | ui_code/Chatbot/chatbot_panel.py:66-99 | the default server is https://127.0.0.1:8000 without certificate checks; the history and queue start empty, mode "(None)", the input empty (STT shown, Send hidden) and the save path the default; the host's `os.path` flavour is kept |
| Chatbot.ChatbotPanel.SetServer | ui_code/Chatbot/chatbot_panel.py:102-106 | only the server settings change |
| Chatbot.ChatbotPanel.UpdateVisibility | ui_code/Chatbot/chatbot_panel.py:191-195 | Send is visible exactly when the stripped input is non-empty and STT exactly when it is empty; nothing else changes |
| Chatbot.ChatbotPanel.OnInputChanged | ui_code/Chatbot/chatbot_panel.py:261-262 | the buttons follow the new input text |
| Chatbot.ChatbotPanel.OnModeChanged | ui_code/Chatbot/chatbot_panel.py:258-259 | only the selected mode changes |
| Chatbot.ChatbotPanel.SetSavePath | ui_code/Chatbot/chatbot_panel.py:89 | editing the save-path field changes only that field |
| Chatbot.ChatbotPanel.OnSendClicked | ui_code/Chatbot/chatbot_panel.py:269-281 | a blank input changes nothing; otherwise the input is cleared, the buttons follow, exactly one user message with the stripped text is added, and one worker is started with it |
| Chatbot.ChatbotPanel.SendWorker | ui_code/Chatbot/chatbot_panel.py:290-304 | the payload for the mode is posted to the chat URL; a reply adds its one message and queues one rebuild, an image reply also fetching its static URL |
| Chatbot.ChatbotPanel.ClearHistory | ui_code/Chatbot/chatbot_panel.py:330-334 | the history is emptied and rebuilt, and a clear request is started only when asked for |
| Chatbot.ChatbotPanel.SendClearRequest | ui_code/Chatbot/chatbot_panel.py:336-347 | a success queues nothing; a failure queues its message and a rebuild |
| Chatbot.ChatbotPanel.DrainJobs | ui_code/Chatbot/chatbot_panel.py:183-189 | the queue ends empty, its messages appended to the history oldest first and its rebuilds all run |
| Chatbot.ChatbotPanel.Show | ui_code/Chatbot/chatbot_panel.py:246-253 | the window's visibility flips, and a non-empty AMR id adds one bot message naming it |
| Chatbot.ChatbotPanel.OnSttClicked | ui_code/Chatbot/chatbot_panel.py:264-267 | one placeholder bot message is added and the history rebuilt |
| Chatbot.DirPartFlavours | ui_code/Chatbot/chatbot_panel.py:369 | `os.path.dirname` is non-empty for every POSIX path with a `/` on both hosts, for `C:\chat.html` only on Windows, and for a bare file name on neither |
| Chatbot.DirPartOfJoin | ui_code/Chatbot/chatbot_panel.py:161-165 | a name joined onto a non-empty directory, as the default save path is, always has a directory part |
| Chatbot.ChatbotPanel.SaveToHtml | ui_code/Chatbot/chatbot_panel.py:350-371 | where the file can be written and the path has a directory part under the host's `os.path` rules (POSIX or Windows), the history's log is written to the given path, or to the default path when none is given; otherwise it fails and nothing is written |
| Chatbot.ChatbotPanel.OnSaveClicked | ui_code/Chatbot/chatbot_panel.py:373-379 | the log goes to the field's path or the default (a path without a directory part under the host's `os.path` rules fails), then one bot message reports success with the field's text, or the failure, and the history is rebuilt |

## Left out

Host runtime, I/O and numerics:
- USD scene work is foreign calls into the host scene graph. This covers stage and prim creation and removal, `_ensure_ops`, references, `proto.Load`, `_compose_euler`, `Amr3D.init` and all material and texture helpers of linecar.py. The robot scene is the set of child names under the group, and the line-car scene is the car table.
- Trigonometry is floating-point numerics. `math.hypot` is the parameter `norm`, constrained to be a Euclidean length. `cos(atan2(dv, du))` and `sin(atan2(dv, du))` are written as `du/dist` and `dv/dist`.
- Floating point is modelled as exact reals. The `.2f`/`.1f` rendering of the details panel's position and Python's float text are not modelled. JSON numbers are integers, and `float()` of a text accepts `[sign]digits[.digits]`.
- Text helpers are ASCII only: `lower`, `upper`, `isalnum` and `isdigit` handle only ASCII letters and digits, and `repr` omits string escapes and the choice of quote.
- Network calls (`requests.post`, `urllib`, the pinger's HEAD request, the chat adapters, the image download and `/clear`) are given their outcomes as parameters. `HttpChatAdapter.send` and the echo `ChatAdapter.send` are represented only by the reply they return.
- File I/O is not modelled: `_load_base_url_from_network`, `_default_save_path`, `os.makedirs`, `Path.resolve`/`exists`. The writes of save_to_html and `_download_image` are a success flag, and the cache directory and the default save path are constants of the panel.
- Threads, locks, `threading.Event` waits, daemon workers, `time.perf_counter` and `time.time` are not modelled. `now` and `dt` are parameters, and a started worker is recorded in the outbound log (`Chatbot.Outbound`) rather than run.
- Client: the `_poll_loop` loop itself, `stop`, `__enter__`/`__exit__` and the request timeout are thread and network plumbing. One iteration's sleep is `Client.SleepFor`. `post_digital_twin` is `request_post_api` with the `DigitalTwin` endpoint, which `Client.DigitalTwinClient.RequestPostApi` covers.
- Widget construction and styling are pure UI: windows, frames, combo boxes, bubbles, `_build_*`, `_kv`, `_text`, `_section_header_with_button`, `_draw_status_line`, `_build_item`, `_render_row`/`_update_row` as widgets (their cell texts are `MissionList.Cells`), `_open_image_viewer`, `_kill_window` and `_import_amr_model`.

Operations modelled by what they post, or not at all:
- `__init__.py`: the operate/edit mode (`_apply_operate_mode`, `_on_stage_evt`, `_mode_button_text`, `_toggle_operate_mode`, `_init_mode_state`, `_refresh_mode_button`) depends on carb settings and selection events. `_on_update`'s call of the scene update is `Amr3D.Synchroniser.Update`. `on_startup` and `on_shutdown` only wire the modelled parts together; the queue part of `on_shutdown` is `Snapshot.UiJobs.Shutdown`.
- `_on_error` formats a Python exception's type name and message, which the model does not represent; it posts one error line.
- main.py: `_set_model` and `_set_status_dot` write widget models, and the handlers' posts name what they write (`Handlers.Action`). `_on_amr_plus` opens a panel. `_open_container_panel` and `_open_mission_panel` build windows.
- AMR control panel: `set_client` and `get_client` hold a reference. `_close` hides the window, and `AmrControl.ControlPanel.Dispatch` states that it does.
- AMR details panel: the window's widgets are its `hasWindow` flag (`AmrDetails.Panel.Show`). `get_selected_id` reads the field that `AmrDetails.Panel.Show`, `Update` and `SetSelectedId` state.
- Container panel: `set_data_resolver` stores a function. Its result is the parameter of `RefreshFromResolver`.
- Mission panel: `set_data_resolver`, `set_cancel_callback` and `set_reset_all_callback` store functions. A set callback is the panel's `hasCancel`/`hasResetAll` flag, and a set resolver's snapshot is the parameter of `Refresh` and `Show`.
- Chatbot: `set_adapter` swaps the adapter, whose reply is a parameter. `_bind_events` is empty. The history frame's `rebuild` is counted (`rebuilds`), and its output is UI.
- The random colour of linecar.py is left out with the materials.

Contracts stated on an abstraction:
- Amr3D.StepPosApproaches: the distance is any Euclidean `norm`, not `math.hypot`'s floating-point result.
- LineCar.LineCarSpawner.StepCar: a car is its x and its wait. The lane's y and z never change and are not modelled. A car whose translate op is missing, a translation that reads as `None` (the source then restarts from the start point), and a falsy empty car record are not modelled.
- LineCar.LineCarSpawner.StepAll: the source steps the cars in the table's key order. The model steps them in any order, because a step reads and writes only its own car.
- Chatbot.ChatbotPanel.Show: `__init__` already builds the window, so every `show` toggles it. A `visible` that reads `None` is not modelled.
- Chatbot.PathJoin: the cache path of a downloaded image is joined with POSIX `os.path.join` rules (separator `/`). On Windows `ntpath.join` inserts `\` instead, so `Chatbot.CachePathSpec` and `Chatbot.DownloadOf` state the POSIX path. Only the save path's directory test (`Chatbot.HasDirPart`) follows the host's flavour.
- Chatbot.Base64: only the standard alphabet with padding is modelled, which is what `b64encode` produces.
- Client.DigitalTwinClient.PostConnectionInfo: `ok == false` is the `AttributeError` of a truthy answer that is not a dictionary. In the source it is not caught by `_poll_loop`, so it ends the polling thread; the model does not represent the thread.
- AmrControl.NumericSortSpec: ids with the same sort key are kept in the order of their first occurrence. The source sorts a `set`, whose order Python leaves unspecified, so the model fixes one of the orders the source allows.
- Snapshot.NormContainers: an item that is truthy and not a dict is treated as making `dict(it or {})` raise. That is right for strings, numbers and booleans. A list of key/value pairs, which `dict()` turns into a dictionary, also fails here, because the model's dictionaries have string keys only.
- ContainerList.ContainerPanel.MapEntries: the same `dict(d or {})` simplification (`ContainerList.ItemOk`). An entry that is a list of key/value pairs stops the loop in the model, while the source converts it.
- PyText.ParseInt: decimal digits with an optional sign and surrounding whitespace. Python's `int()` also accepts `_` between digits and non-ASCII digits; those texts are rejected here.
- MissionList.KeyOf: dictionary keys compare as JSON values, so `True`, `1` and `1.0` are three keys. Python's dictionaries treat them as one. The same holds for the id-keyed caches of `Amr3D.Tables` (`ops`, `pos`, `yaw`, `targets`).
- AmrCard.Card: the card object of amr_card.py. The main window's table (`Layout.CardTable`) keeps each card as its id and last record and shows it through `AmrCard.CardOf`, so the model does not capture that the table's cards are separate objects updated in place.

## Notes on the code

The model follows the code as written in these places, where its behaviour may surprise a reader.
- Amr3D: the current yaw is never wrapped back into [-180, 180). A turn from 170 toward -170 degrees passes through 190 (`Amr3D.YawWrapExample`).
- Amr3D: the removal pass pops the caches under the string `name[4:]`. A robot whose id is an integer keeps its target and ops after its prim is removed (`Amr3D.RemovalLeavesStaleTarget`). The same holds for an id that sanitising changes.
- AMR control panel: the dispatch payload always carries `amrId`, and drops an optional field only when it is empty. A `-` placeholder is sent as it is.
- `__init__.py`: the counters' `_in_map` tests `isOffMap is not None`, while `_norm_containers` tests `"isOffMap" in d`. A container with an explicit null `isOffMap` is counted off the map but cached as on the map (`Snapshot.NullOffMapDisagrees`).
- AMR card: the first-non-null lookup returns an empty `workingType`, which is falsy. A later `missionType` is then never consulted. The card falls back to `missionCode` and then to the waiting text (`AmrCard.EmptyWorkingTypeHidesMissionType`).
- main.py: cards rebuilt after the placeholders are removed are updated with `{}`. They show blanks until the next poll.
