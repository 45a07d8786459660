# Crowd-Sense-AI in Dafny

Crowd-Sense-AI counts people in rectangular zones of one or more camera feeds. A detector and a
tracker report person boxes for each frame. A re-identification gallery gives each confirmed
track a global identity. Every zone counts identities that enter it, using a 30-frame exit
hysteresis. The detection loop aggregates the cameras, publishes a payload to a shared state
hub and applies the zone commands it gets back. A Flask backend receives the payload, keeps a
trend history, raises over-threshold alerts, serves the live view and lets an administrator
save zone definitions, start or stop the detection thread and export a report.

This project models that core as Dafny code, module by module, following the program:

- `Counting`: the zone occupancy counter (`counting.py`).
- `ReId`: the identity gallery (`re_id.py`).
  - Similarity, averaging and normalisation of feature vectors are abstract functions.
- `SharedState`: the state hub (`backend/state.py`).
- `Zones`: the zone list, its file and the mouse editor (`zones.py`).
- `Detection`: the per-frame glue (`detection.py`).
- `Orchestrator`: source resolution, aggregation, publishing and command application (`main.py`).
- `SystemManager`: start and stop control (`backend/system_manager.py`).
- `Dashboard` and `Admin`: the two controllers.
- `Common`, `Strings` and `Records`: Python dicts with insertion order, the string methods the code uses and the zone-list records that travel between the parts.

Objects whose fields the source updates in place are classes with `modifies` frames:
`Zone`, `ReIDGallery`, `SystemState`, `ZoneManager`, `PeopleCountingSystem`, the detection loop
and the dashboard store. Each method is tied by its `ensures` to a function of the old state.
The lemmas about those functions state what the code promises. Time is a parameter: `now` is the
clock in seconds and `nowStr` the `%H:%M:%S` text. Whether a file exists, whether a thread is
alive and whether an import or a write fails are also given as parameters.

## Model

| member | source | states |
|---|---|---|
| Counting.HalfTowardZero | counting.py:4-5 | `int(n / 2)` truncates toward zero: the remainder `n - 2h` is 0 or 1 for non-negative `n`, and 0 or -1 for non-positive `n` |
| Counting.Centroid | counting.py:4-5 | for non-negative sums the centroid is the floor midpoint; on an ordered box it lies between the edges |
| Counting.InsideIsInclusive | counting.py:7-9 | a point is inside iff `x1 <= px <= x2` and `y1 <= py <= y2`; all four edges are inside, one pixel beyond is outside, and an inverted rectangle contains nothing |
| Counting.EntryFacts | counting.py:32-71 | a negative id changes nothing; the id is active iff inside; the total grows by at most one, and by one exactly on an inside observation of a never-counted id; the counting invariant is kept; other ids are untouched |
| Counting.Remove | counting.py:73-75 | the id leaves the active set and `prev`; counted ids, outside counters and the total are unchanged; the invariant is kept |
| Counting.StayingOutside | counting.py:53-69 | k consecutive outside frames of an active id: it is inactive, the total is unchanged, and the outside counter is k while k is at most 30; after more than 30 frames the id is forgotten from the counted set |
| Counting.OutsideStep | counting.py:55-69 | one outside observation of a counted id adds an outside frame, or uncounts it past 30 frames; one of an uncounted id only deactivates it; the total and the invariant are kept |
| Counting.ReentryAfterAbsence | counting.py:40-69 | enter, stay out k frames, enter again: the total grows again iff k > 30, and the id is active again either way |
| Counting.TestScenarios | tests/verify_counting_logic.py:16-72 | the unit-test scenarios: first entry counts once, exit keeps the total, quick re-entry does not count, re-entry after 36 frames does, a negative id changes nothing |
| Counting.Zone.constructor | counting.py:11-23 | a new zone has its id, coordinates and colour and an empty counting state |
| Counting.Zone.Count | counting.py:25-27 | the occupancy is the number of active ids, zero iff none is active |
| Counting.Zone.CountEntry | counting.py:32-71 | the zone's new state is `Entry` of the old one for its box; the invariant is kept |
| Counting.Zone.MarkInside | counting.py:39-71 | the inside branch: the new state is `Entry` of the old one for an id whose centroid is inside |
| Counting.Zone.MarkOutside | counting.py:55-71 | the outside branch: the new state is `Entry` of the old one for an id whose centroid is outside |
| Counting.Zone.RemoveId | counting.py:73-75 | the zone's new state is `Remove` of the old one |
| ReId.Scan | re_id.py:213-227 | the running best starts at 0.0, never falls below any score, and names the first index that reaches it |
| ReId.ScanCandidatesIsScan | re_id.py:217-222 | the nested loop over identities and vectors is the scan of the flattened candidate scores |
| ReId.MatchSpec | re_id.py:213-227 | a match exists iff some stored vector scores at least 0.65; no match gives `(None, 0.0)`; the winner is the first candidate with the greatest score |
| ReId.MatchInGallery | re_id.py:213-227 | a matched id is an identity of the gallery |
| ReId.CandidatesFromGallery | re_id.py:217-218 | every candidate's id is a gallery key |
| ReId.RecordSpec | re_id.py:229-241 | a failed extraction changes nothing; otherwise the id reads an identity last seen now whose deque keeps only the last 5 vectors and ends with the new one |
| ReId.RecordKeys | re_id.py:229-241 | a known id keeps its place; a new id is added at the end |
| ReId.Touch | re_id.py:254-255 | refreshing a last-seen time keeps the keys |
| ReId.TouchOnlyTime | re_id.py:254-255 | only the touched identity's time changes |
| ReId.BoundTrackOutcome | re_id.py:250-257 | a bound track gets its id back, and only that identity's last-seen time changes |
| ReId.FailedExtractionOutcome | re_id.py:259-262 | an unbound track whose extraction fails gets `-track_id`, and nothing changes |
| ReId.AllocationOutcome | re_id.py:243-246 | a call allocates at most one id, and a newly allocated id is the answer |
| ReId.UnboundTrackOutcome | re_id.py:259-305 | an unbound track either stays pending (answer `-t`, buffer grown, nothing else changed) or is bound to the answer, loses its buffer and has its vector recorded |
| ReId.UnboundOutcome | re_id.py:268-304 | a non-pending answer leaves the track bound to it with no buffer; a pending answer leaves it unbound with a buffer |
| ReId.NewIdIsFresh | re_id.py:243-246 | a newly created id is no gallery key and no track is bound to it |
| ReId.GetGlobalKeepsInv | re_id.py:249-305 | `get_global_id` keeps the gallery invariant: distinct keys below the next id, 1 to 5 vectors each, bindings below the next id, full buffers never pending |
| ReId.AssignKeepsInv | re_id.py:264-305 | matching, buffering or confirming an unbound track keeps the invariant |
| ReId.ConfirmKeepsInv | re_id.py:286-305 | the second-chance match on the average, or a new identity, keeps the invariant |
| ReId.TouchKeepsInv | re_id.py:254-255 | refreshing a time keeps the invariant |
| ReId.MatchedKeepsInv | re_id.py:266-271 | binding to a matched id keeps the invariant |
| ReId.RecordKeepsInv | re_id.py:229-241 | recording under a known or already allocated id keeps the invariant |
| ReId.Unbind | re_id.py:307-312 | `remove_track` forgets the binding, keeps the keys, and changes nothing for an unbound track |
| ReId.UnbindRefreshes | re_id.py:307-312 | `remove_track` of a bound track refreshes that identity's time to now and keeps its vectors; every other identity is unchanged |
| ReId.UnbindKeepsInv | re_id.py:307-312 | `remove_track` keeps the gallery invariant |
| ReId.ConfirmIsBind | re_id.py:286-305 | a confirmed track is bound either to the match for its buffer's average or to the next id, which is then raised, whatever its buffer held |
| ReId.RecordKeepsGalleryOk | re_id.py:229-241 | recording under an id below the next id keeps the keys distinct and below the next id, with 1 to 5 vectors each |
| ReId.Recent | re_id.py:314-323 | the surviving identities are exactly those seen within the memory time, in gallery order |
| ReId.WithoutExpired | re_id.py:314-323 | deleting the collected expired ids leaves exactly the recent identities |
| ReId.ExpiredKeysOf | re_id.py:318-320 | an id is collected iff its identity is expired |
| ReId.ExpiredKeysFrom | re_id.py:318-320 | every collected id is a gallery key |
| ReId.RecentKeepsInv | re_id.py:314-323 | cleanup keeps the keys distinct and the deque bounds |
| ReId.RecentIsSubsequence | re_id.py:322-323 | cleanup keeps the order of the identities, so keys stay distinct |
| ReId.LoadFrom | re_id.py:139-161 | the loading loop raises iff an entry with an integer key cannot be processed |
| ReId.MaxKey | re_id.py:164-165 | the greatest key of a non-empty gallery is one of its keys and bounds them all |
| ReId.LoadAsWritten | re_id.py:116-119 | the load as written keeps the identities the loop loaded before any raise |
| ReId.LoadAsWrittenReusesIds | re_id.py:116-167 | the written load with a good entry `5` and a broken entry `6` keeps id 5 but leaves the next id at 1 |
| ReId.Load | re_id.py:128-167 | the next id is one above the greatest loaded id, or 1 for an empty gallery; keys are distinct and each identity has one vector |
| ReId.LoadFromShape | re_id.py:139-161 | loading keeps keys distinct and gives every identity exactly one vector |
| ReId.LoadFromKeys | re_id.py:139-161 | without broken entries, the loaded ids are exactly the integer keys that have features |
| ReId.SmallIntText | re_id.py:141 | `int()` reads back a one-digit key |
| ReId.Initial | re_id.py:109-119 | the state after construction satisfies the invariant |
| ReId.ReIDGallery.constructor | re_id.py:109-119 | the gallery starts from the loaded file, with no bindings and no buffers |
| ReId.ReIDGallery.FindBestMatch | re_id.py:213-227 | the nested loop computes `Match` |
| ReId.ReIDGallery.UpdateGallery | re_id.py:229-241 | the gallery becomes `Record` of the old one |
| ReId.ReIDGallery.CreateNewId | re_id.py:243-246 | the old counter is returned and the counter grows by one |
| ReId.ReIDGallery.BindTrack | re_id.py:268-270 | bind, record and drop the buffer, as `Bind` states |
| ReId.ReIDGallery.GetGlobalId | re_id.py:249-305 | the new state and the answer are `GetGlobal` of the old state; the invariant is kept |
| ReId.ReIDGallery.AssignUnbound | re_id.py:264-305 | the unbound-track path computes `Assign` |
| ReId.ReIDGallery.ConfirmTrack | re_id.py:286-305 | the full-buffer path computes `Confirm` |
| ReId.ReIDGallery.RemoveTrack | re_id.py:307-312 | the new state is `Unbind` of the old; the invariant is kept |
| ReId.ReIDGallery.CleanupOldEntries | re_id.py:314-323 | the gallery becomes exactly its recent identities; the invariant is kept |
| ReId.ReIDGallery.CollectExpired | re_id.py:315-320 | the first loop collects the expired ids in gallery order |
| ReId.ReIDGallery.DeleteAll | re_id.py:322-323 | the second loop deletes exactly the listed ids |
| SharedState.CamKeyText | backend/state.py:90 | `str(cam_id)` keys camera 3 and camera "3" alike, and distinct numbers apart |
| SharedState.UpdateReads | backend/state.py:44-62 | after `update`, a key of the payload reads the payload's value and any other key keeps its value |
| SharedState.UpdateKeepsKeysDistinct | backend/state.py:44-47 | the merged live data keeps distinct keys |
| SharedState.UpdatedOk | backend/state.py:44-62 | `update` keeps the live data keys distinct and the history bounded without repeated neighbours |
| SharedState.HistoryRule | backend/state.py:49-58 | a point is appended iff the payload has `people_count` and the time text differs from the last point's; the history stays at most 100 long and never has two consecutive points with the same time |
| SharedState.AppendKeepsHistoryOk | backend/state.py:25 | appending a point with a new time to a bounded deque keeps it bounded and without repeated neighbours |
| SharedState.AddAlertAsWritten | backend/state.py:29-36 | `add_alert` as written: when it does not raise, the alert is appended with the clock's time |
| SharedState.AddAlertAsWrittenRaises | backend/state.py:29-36 | the module binds no `time`, so `add_alert` always raises |
| SharedState.LatestFrameWins | backend/state.py:83-102 | after storing a frame for a camera, that camera reads it back and other cameras are unchanged |
| SharedState.SystemState.constructor | backend/state.py:4-27 | the hub starts with the initial live data and empty history, queues and frames |
| SharedState.SystemState.AddAlert | backend/state.py:29-36 | the alert with its time is appended at the tail |
| SharedState.SystemState.GetAndClearAlerts | backend/state.py:38-42 | all alerts are returned in order and the list is emptied |
| SharedState.SystemState.Update | backend/state.py:44-62 | the new hub is `Updated` of the old one, with `new_alerts` set to the pending alerts |
| SharedState.SystemState.GetData | backend/state.py:64-66 | the live data is returned as a value |
| SharedState.SystemState.QueueCommand | backend/state.py:68-70 | the command is appended at the tail |
| SharedState.SystemState.GetAndClearCommands | backend/state.py:72-76 | all commands are returned in order and the queue is emptied |
| SharedState.SystemState.GetHistory | backend/state.py:78-80 | the history is returned, bounded and without repeated neighbours |
| SharedState.SystemState.UpdateFrame | backend/state.py:83-96 | the frame replaces the camera's entry |
| SharedState.SystemState.GetFrame | backend/state.py:98-102 | the latest frame is returned, or none iff the camera never sent one |
| Zones.LoadEntries | zones.py:39-45 | exactly the objects with `coords` are loaded, in order; the load raises iff such an object lacks an `id` |
| Zones.LoadSaved | zones.py:39-51 | loading what `save_zones` wrote gives the same zones back |
| Zones.LoadComplete | zones.py:39-45 | when every object has `coords` and `id`, every object loads and the threshold defaults to 10 |
| Zones.LoadEntriesStops | zones.py:36-47 | a raise inside the loop ends it: later objects are not loaded |
| Zones.SaveThenLoad | zones.py:32-51 | saving then loading the file gives the zone list back |
| Zones.Saved | zones.py:49-51 | one object per zone, with its id, coordinates and threshold |
| Zones.PyIndex | zones.py:85 | a Python index is valid iff it lies in `-n..n-1`, and a negative index counts from the end |
| Zones.Normalised | zones.py:77 | the released rectangle is ordered, and uses the anchor and release coordinates |
| Zones.MouseKeepsZoneList | zones.py:67-92 | no event changes the number of zones or their ids and thresholds; the list changes only on a release in edit mode, which ends edit mode and flags the edit |
| Zones.ButtonUpRectIsNormalised | zones.py:75-92 | after a release the editor stops drawing; a new preview and a moved zone are the normalised rectangle, at least 5 pixels wide and high |
| Zones.SmallReleaseRejected | zones.py:80-82 | a release narrower or lower than 5 pixels clears the preview and changes nothing else |
| Zones.MovesKeepAnchor | zones.py:72-73 | while drawing, moves change only the preview |
| Zones.DragDrawsRectangle | zones.py:68-92 | outside edit mode a press, moves and a release draw the normalised rectangle as the preview and flag a new zone, or reject a small one |
| Zones.ZoneManager.constructor | zones.py:19-29 | the field assignments: the manager starts idle, in preview mode, with no zones and its file |
| Zones.ZoneManager.Create | zones.py:19-47 | construction gives a manager holding the zones its file loads, and no manager exactly when the load raises `KeyError` |
| Zones.ZoneManager.LoadZones | zones.py:32-47 | the zones and the raise are those of `LoadFile` |
| Zones.ZoneManager.SaveZones | zones.py:49-51 | the file becomes the saved form of the zones |
| Zones.ZoneManager.HandleMouse | zones.py:67-92 | the editor state becomes `Mouse` of the old state; the file is untouched |
| Zones.ZoneManager.Release | zones.py:75-92 | the button-up branch: the editor state becomes `Mouse` of the old state for a button-up |
| Detection.FeedAll | detection.py:122-123 | every zone, in order, counts the observation |
| Detection.LastInside | detection.py:121-125 | the label zone is the last zone that contains the centroid, or none |
| Detection.CurrentZoneStep | detection.py:121-125 | looking at one more zone, it becomes the label zone when it contains the centroid; otherwise the label so far stays |
| Detection.DisplayDropsCameraPrefix | detection.py:134 | the displayed name is the stripped text after the last `':'` |
| Detection.TrackSteps | detection.py:105-145 | the frame's tracks keep the number of zones |
| Detection.TrackStepsSnoc | detection.py:105-145 | one more track is the frame so far followed by that track's step, its label appended when it has one |
| Detection.Confirmed | detection.py:106 | the kept tracks are all confirmed |
| Detection.UnconfirmedIgnored | detection.py:105-107 | dropping the unconfirmed tracks changes neither the zones, nor the gallery, nor the labels |
| Detection.TrackStepsGallery | detection.py:109-114 | every confirmed track reaches the gallery, in order, with its own id |
| Detection.TrackStepsKeepInvariants | detection.py:105-125 | a frame keeps the gallery invariant and every zone's counting invariant |
| Detection.CountLive | detection.py:173-176 | the live count never exceeds the number of tracks |
| Detection.LiveCountBounds | detection.py:173-176 | the live count is at most the confirmed tracks, all tracks when all are live, zero when none is |
| Detection.FrameStats | detection.py:178-191 | the statistics hold the live count twice, the visitors as `next_global_id - 1`, and one entry per zone with its name, occupancy and coordinates |
| Detection.PeopleCountingSystem.constructor | detection.py:24-50 | the system uses the given gallery and one fresh zone per loaded entry |
| Detection.PeopleCountingSystem.ConvertZones | detection.py:63-78 | one new zone per entry, in order, with its id and coordinates and colour `i mod 5` |
| Detection.PeopleCountingSystem.FeedZones | detection.py:121-125 | every zone counts the observation and the label zone is returned |
| Detection.PeopleCountingSystem.FeedOne | detection.py:123 | one zone counts the observation |
| Detection.PeopleCountingSystem.ProcessTrack | detection.py:105-145 | one track changes the zones and the gallery as `TrackStep` states |
| Detection.PeopleCountingSystem.ProcessTracks | detection.py:105-145 | the track loop computes `TrackSteps` |
| Detection.PeopleCountingSystem.NextTrack | detection.py:105-145 | one iteration of the track loop extends `TrackSteps` by one track |
| Detection.PeopleCountingSystem.LiveCount | detection.py:173-176 | the loop computes `CountLive` |
| Detection.PeopleCountingSystem.ZoneData | detection.py:178-184 | one record per zone with its name, occupancy and coordinates |
| Detection.PeopleCountingSystem.ProcessFrame | detection.py:98-191 | the frame's tracks are processed and `latest_stats` becomes `FrameStats` of the new state |
| Detection.PeopleCountingSystem.RecordStats | detection.py:172-191 | the frame size is stored and `latest_stats` becomes `FrameStats` of the current state |
| Orchestrator.ResolveParts | main.py:64-87 | each part of a comma list resolves on its own and unresolved parts are dropped |
| Orchestrator.ResolvePartsSnoc | main.py:64-87 | one more part resolves after the parts so far and is kept only when it resolves |
| Orchestrator.Resolved | main.py:51-111 | there is always at least one source, falling back to webcam 0 |
| Orchestrator.ResolveSources | main.py:51-111 | the resolution computes `Resolved` |
| Orchestrator.ResolveList | main.py:64-87 | the part loop computes `ResolveParts` |
| Orchestrator.ResolveOne | main.py:67-84 | one part is a webcam number or a looked-up path |
| Orchestrator.WebcamText | main.py:68-69 | the text of a number resolves to that webcam |
| Orchestrator.CamLabelInjective | main.py:277 | distinct cameras have distinct names `C{i+1}` |
| Orchestrator.Prefixed | main.py:216-220 | each zone is copied with its name prefixed by its camera |
| Orchestrator.RenamedShowsName | main.py:219 | the prefixed name displays as the zone's own name |
| Orchestrator.CameraZones | main.py:209-221 | the zone lists are keyed by the camera's position, with distinct keys |
| Orchestrator.Collect | main.py:208-221 | the aggregation loop sums the live counts and builds `CameraZones` |
| Orchestrator.RenameZones | main.py:216-220 | the inner loop computes `Prefixed` |
| Orchestrator.NewCameraKey | main.py:221 | each camera's key is new when it is added |
| Orchestrator.Reported | main.py:223-227 | the reported total is the largest of the total so far, `next_global_id - 1` and the live count |
| Orchestrator.ReportedRunBounds | main.py:223-227 | the reported total never decreases and never falls below any iteration's count |
| Orchestrator.CameraStatusAsWritten | main.py:232-238 | the status as written fails iff fewer cameras opened than were configured |
| Orchestrator.CameraStatusAsWrittenFails | main.py:232-238 | with sources 0 and 1 and only camera 0 open, every publish raises |
| Orchestrator.CameraStatus | main.py:232-238 | one entry per open camera, with its own source, under distinct keys |
| Orchestrator.CameraKeysMatchZoneKeys | main.py:209-238 | the camera entries and the zone lists are keyed alike |
| Orchestrator.Payload | main.py:240-246 | the payload has distinct keys, with the summed live count under `people_count` |
| Orchestrator.PayloadFields | main.py:240-246 | the payload has five keys and carries the live count under `live_count`, the reported total under `total_visitors`, the zone lists by camera under `zones` and the camera status under `cameras` |
| Orchestrator.Converted | main.py:285 | fresh counting zones, one per entry |
| Orchestrator.NewEntries | main.py:281-283 | one entry per command zone, with the threshold defaulting to 10 |
| Orchestrator.CamAfterConcat | main.py:264 | applying commands in two halves is applying them in order |
| Orchestrator.ClearEmptiesEveryCamera | main.py:268-270 | `clear_zones` empties and saves every camera, whatever camera it names |
| Orchestrator.UpdateTargetsOneCamera | main.py:271-285 | an `update_zones` naming camera j changes only camera j, which gets the new list and fresh counters |
| Orchestrator.CommandsKeepCameraConsistent | main.py:264-285 | commands keep the counted zones equal to the zone list, and a saved camera stays saved |
| Orchestrator.StepConsistent | main.py:265-285 | save, clear and an applied update leave the file matching the list |
| Orchestrator.DetectionLoop.constructor | main.py:154-159 | the loop starts with nothing reported and its timer at now |
| Orchestrator.DetectionLoop.Report | main.py:223-227 | the running total becomes `Reported` |
| Orchestrator.DetectionLoop.Infos | main.py:235-236 | each camera reports its size and rate |
| Orchestrator.DetectionLoop.Publish | main.py:230-252 | publishing happens iff more than 0.5 s have passed; then the hub is updated and its commands are drained, else nothing changes |
| Orchestrator.DetectionLoop.PublishAndApply | main.py:230-285 | the publish step, then the commands it fetched applied in order to every camera; nothing is applied when nothing was published |
| Orchestrator.DetectionLoop.ApplyCommands | main.py:264-285 | every camera becomes `CamAfter` of the commands in order, and the state hub is left untouched |
| Orchestrator.DetectionLoop.ApplyCommand | main.py:265-285 | every camera becomes `CamStep` of the command |
| Orchestrator.DetectionLoop.ApplyToCamera | main.py:265-285 | one camera becomes `CamStep` of the command and every other camera is unchanged |
| Orchestrator.DetectionLoop.SaveCamera | main.py:267 | the camera's file becomes its saved list |
| Orchestrator.DetectionLoop.ClearCamera | main.py:270 | the camera's list, file and counters are emptied |
| Orchestrator.DetectionLoop.UpdateCamera | main.py:281-285 | the camera gets the new list, its file and fresh counters |
| Orchestrator.DetectionLoop.Iterate | main.py:164-285 | a set stop flag ends the loop before any work and changes neither the hub, the total nor any camera; otherwise the total reported is the running maximum over the cameras' latest statistics, and the cameras change only when a publish fetched commands, which are then applied in order |
| Records.Flatten | backend/controllers/dashboard_controller.py:59-66 | a list is kept as it is; anything other than a list or a dict gives no zones |
| Records.Concat | backend/controllers/dashboard_controller.py:63-64 | the concatenation is as long as all lists together |
| Records.ConcatPlacesEachList | backend/controllers/dashboard_controller.py:63-64 | item j of list k sits after all earlier lists |
| SystemManager.Start | backend/system_manager.py:6-57 | the stop flag ends clear; the thread changes only to the new one, with "Detection Started"; a live thread is kept |
| SystemManager.Stop | backend/controllers/admin_controller.py:94-101 | the stop flag is set, and the stop message sent, iff a live thread exists |
| SystemManager.StatusIgnoresThread | backend/controllers/admin_controller.py:104-107 | a fresh hub reports running with no thread, and stopping it changes nothing |
| SystemManager.StartStopStart | backend/system_manager.py:12-54 | start, stop, start with the thread alive resumes the same thread |
| SystemManager.StartUnifiedDetection | backend/system_manager.py:6-57 | the hub's flag, thread and message are those of `Start` |
| SystemManager.StopSystem | backend/controllers/admin_controller.py:94-101 | the hub's flag and message are those of `Stop` |
| SystemManager.GetSystemStatus | backend/controllers/admin_controller.py:104-107 | running is the clear stop flag |
| Admin.SuccessMessagesAnswer200 | backend/controllers/admin_controller.py:87-91 | the success messages answer 200 |
| Admin.PlainAnswers200 | backend/controllers/admin_controller.py:87-91 | a message with no capital E or F contains neither "Error" nor "Failed" and answers 200 |
| Admin.FailureMessagesAnswer500 | backend/controllers/admin_controller.py:87-91 | the import and start failures answer 500 |
| Admin.StartStatusReportsFailure | backend/controllers/admin_controller.py:78-91 | the start answers 500 iff no live thread exists and the import or the start failed |
| Admin.StartSystem | backend/controllers/admin_controller.py:78-91 | the hub changes as `Start` states and the status matches the message |
| Admin.PyInt | backend/controllers/admin_controller.py:160 | `int()` of a JSON value: integers and booleans convert, text converts when it is an optionally signed run of ASCII digits inside whitespace, and null, lists and objects raise |
| Admin.PyIntOfText | backend/controllers/admin_controller.py:160 | `int()` reads back the decimal text of every integer |
| Admin.Normalised | backend/controllers/admin_controller.py:156-162 | a zone normalises iff its threshold converts; a missing threshold becomes 10 |
| Admin.Written | backend/controllers/admin_controller.py:164-170 | one written object per normalised zone |
| Admin.ConfigUpdateOutcomes | backend/controllers/admin_controller.py:147-202 | 200 iff a command is queued; a command needs a successful write, and a write error writes nothing; an action other than `save_zones` gives 400 and nothing else; the command is `update_zones` with the normalised zones, which are also the zones written |
| Admin.WrittenIsSaved | backend/controllers/admin_controller.py:164-170 | the written file is what `save_zones` would write for the command's zones |
| Admin.SaveForSource | backend/controllers/admin_controller.py:164-197 | saving for source n writes `zones_source_n.json` and queues an update for `C{n+1}` |
| Admin.SavedZonesReachCamera | backend/controllers/admin_controller.py:164-197 | the queued command changes only the camera at position n of the opened cameras, which gets the written file and its zones; that camera is source n only when every earlier source opened |
| Admin.UpdateZonesConfig | backend/controllers/admin_controller.py:147-202 | the result is `ConfigUpdate`, and the command, if any, is appended to the hub's queue |
| Admin.NormaliseZones | backend/controllers/admin_controller.py:156-162 | the loop computes `NormalisedAll` |
| Admin.Configured | backend/controllers/admin_controller.py:135-142 | the configured zones have distinct keys |
| Admin.LastObjectListed | backend/controllers/admin_controller.py:135-142 | a later object with the same id overwrites an earlier one |
| Admin.ListedKeys | backend/controllers/admin_controller.py:135-142 | an id is listed iff some object has it |
| Admin.GetZones | backend/controllers/admin_controller.py:124-144 | the configured zones of the file, and the hub's live zones |
| Admin.ExportRows | backend/controllers/admin_controller.py:265-334 | one row per live zone |
| Admin.ExportSummary | backend/controllers/admin_controller.py:309-311 | three overview values |
| Admin.ExportStatusRule | backend/controllers/admin_controller.py:273-282 | a zone is over iff its count exceeds its threshold, taken from the table or defaulting to 20 (PDF) or 10 (CSV) |
| Admin.ExportFormatsAgree | backend/controllers/admin_controller.py:325-333 | CSV flags every zone PDF flags, and the two agree when the table knows the name |
| Dashboard.NextTrend | backend/controllers/dashboard_controller.py:31-39 | the new point is last, the history stays at most 100 long, and the older points are the newest of the previous history |
| Dashboard.LatestAlert | backend/controllers/dashboard_controller.py:77 | none iff no alert has the name; otherwise an alert with that name |
| Dashboard.LatestAlertIsLatest | backend/controllers/dashboard_controller.py:77 | among chronological alerts the one found is the newest for its name |
| Dashboard.AlertsAfter | backend/controllers/dashboard_controller.py:71-83 | alerts are only appended |
| Dashboard.AlertRule | backend/controllers/dashboard_controller.py:71-83 | an alert is raised iff the count exceeds the threshold (default 1000) and every earlier alert of the name is more than 60 s old |
| Dashboard.AlertForKeepsSpacing | backend/controllers/dashboard_controller.py:76-82 | a new alert keeps the alerts chronological and spaced by more than 60 s per name |
| Dashboard.AlertsKeepSpacing | backend/controllers/dashboard_controller.py:71-83 | the whole loop keeps that spacing |
| Dashboard.HeadNotPattern | backend/controllers/dashboard_controller.py:72 | a different camera's prefix cannot form `Ce: ` |
| Dashboard.FirstCameraPrefixRemoved | backend/controllers/dashboard_controller.py:72 | camera `C1` zone names lose their prefix |
| Dashboard.SecondCameraPrefixKept | backend/controllers/dashboard_controller.py:72 | camera `C2` zone names keep their prefix |
| Dashboard.AcceptedKeepsBoardOk | backend/controllers/dashboard_controller.py:27-83 | an accepted update keeps the live keys distinct, the trend bound and the alert spacing, ends the trend with the new point and only appends alerts |
| Dashboard.SyncThreshold | backend/controllers/dashboard_controller.py:118-136 | only the threshold may change; an exact name match sets it, otherwise the stripped second `:` piece's match sets it, and with no match the item is unchanged |
| Dashboard.SyncFindsRenamedZone | backend/controllers/dashboard_controller.py:122-136 | a prefixed name falls back to the name after the `':'` |
| Dashboard.LabelledNameSplits | backend/controllers/dashboard_controller.py:124-127 | a name `<cam>: <n>` has a `':'`, and its second piece stripped of spaces is `n` |
| Dashboard.SyncedItems | backend/controllers/dashboard_controller.py:142-143 | each item is synced in place |
| Dashboard.SyncedCams | backend/controllers/dashboard_controller.py:144-146 | each camera's list is synced |
| Dashboard.ConcatSynced | backend/controllers/dashboard_controller.py:144-146 | syncing the lists then concatenating is concatenating then syncing |
| Dashboard.FlattenSynced | backend/controllers/dashboard_controller.py:142-146 | the flattened synced zones are the synced flattened zones |
| Dashboard.DashboardStore.SyncZones | backend/controllers/dashboard_controller.py:142-146 | the sync loops compute `SyncedValue` of the zones value |
| Dashboard.DashboardStore.SyncList | backend/controllers/dashboard_controller.py:142-143 | the item loop computes `SyncedItems` |
| Dashboard.LiveViewKeepsOtherKeys | backend/controllers/dashboard_controller.py:96-153 | keys other than the alert count, the camera count and the zones are unchanged |
| Dashboard.LiveViewAlertCount | backend/controllers/dashboard_controller.py:103-104 | the alert count is set |
| Dashboard.LiveViewSyncsZones | backend/controllers/dashboard_controller.py:107-146 | the zones are synced |
| Dashboard.LiveViewDistinct | backend/controllers/dashboard_controller.py:96-153 | the live view of a dict with distinct keys still has distinct keys |
| Dashboard.Minute | backend/controllers/dashboard_controller.py:170 | the label is a prefix of the time, at most 5 long |
| Dashboard.Sampled | backend/controllers/dashboard_controller.py:163-175 | the labels are distinct |
| Dashboard.DownsampleLabels | backend/controllers/dashboard_controller.py:163-175 | a label appears iff some point has it |
| Dashboard.DownsampleKeepsLast | backend/controllers/dashboard_controller.py:172-173 | a label holds the last value for it |
| Dashboard.DownsampleFirstAppearanceOrder | backend/controllers/dashboard_controller.py:163-175 | the labels are in first-appearance order |
| Dashboard.DashboardStore.constructor | backend/controllers/dashboard_controller.py:6-12 | the store starts with the initial live counts and empty lists |
| Dashboard.DashboardStore.UpdateCounts | backend/controllers/dashboard_controller.py:16-93 | a missing or empty payload is ignored, changes nothing and drains nothing; otherwise the state becomes `Accepted` and the commands are drained in order |
| Dashboard.DashboardStore.RaiseAlerts | backend/controllers/dashboard_controller.py:71-83 | the loop computes `AlertsAfter` |
| Dashboard.DashboardStore.GetLiveData | backend/controllers/dashboard_controller.py:96-153 | the live counts become `LiveView` with the count of the last day's alert rows, and are returned |
| Dashboard.RecentAlertCount | backend/controllers/dashboard_controller.py:101-102 | the alert count of the live view is at most the number of rows |
| Dashboard.RecentAlertCountAppend | backend/controllers/dashboard_controller.py:101-102 | the count of two stretches of rows is the sum of their counts |
| Dashboard.RecentAlertCountBounds | backend/controllers/dashboard_controller.py:101-102 | rows all within the last day are all counted, rows all older count 0, and a full count means every row is within the day |
| Dashboard.DashboardStore.Downsample | backend/controllers/dashboard_controller.py:163-175 | the labels and data are those of `Sampled`, equally long and distinct |
| Dashboard.DashboardStore.GetCommands | backend/controllers/dashboard_controller.py:301-305 | all commands are returned in order and the queue is emptied |
| Dashboard.DashboardStore.PostCommand | backend/controllers/dashboard_controller.py:307-310 | the command is appended at the tail |

## Left out

- Feature extraction, cosine similarity, averaging and normalisation are floating-point numerics. They are abstract functions, and the extractor's output is a per-call parameter.
- The detector, the tracker, the heat map, OpenCV capture and drawing are left out. A frame is its list of tracks.
- Frame reading and resizing, JPEG disk writes, the local window and the loop's sleeps (main.py 181-201, 294-321) are left out.
- The HTTP fallback (main.py 254-261) and the exception recovery of the detection loop are left out. An iteration that raises is modelled only by `CameraStatusAsWritten`.
- Locks, `threading.Condition` and `wait_for_frame` are left out. Each hub method is one atomic step.
- JSON parsing and writing are left out. Files are their parsed objects. A failed write is a parameter and happens at `open`, so a partial write is not modelled.
- The database is left out. Zone thresholds are a name-to-threshold table. Alerts and analytics are lists of rows. The admin update of the zone table (admin_controller.py 172-189) is not modelled.
- Login, signup, JWT, the profile, logs and the alert queries are left out.
  - `get_cameras` only returns the hub's `cameras` entry.
  - `add_camera` and `delete_camera` return fixed messages.
- CSV and PDF rendering are left out. The export is its rows and summary values.
- `get_zones` keeps `points_json` as the coordinate list, without `json.dumps`.
- `Detection.PeopleCountingSystem.ProcessFrame` requires four-number zone coordinates; the source raises on other lists.
- Track ids are natural numbers, and `isdigit` is ASCII-only.
- `Admin.PyInt` and `Strings.ParseInt` accept only ASCII digits without separators. Python's `int()` also accepts single `_` between digits (`"1_000"` is 1000) and non-ASCII decimal digits. The model answers 500 for a threshold written that way, where the source saves it. For a `source` written that way the model writes the file but queues no command and answers 500, where the source queues the update and answers 200.
- An `update_zones` command zone without `id` or `coords` raises `KeyError`; the model does not cover this.
- A JSON number as the admin `source` is modelled as text or number; other JSON types are not.
- Non-object payloads are not modelled.
- `Dashboard.DashboardStore.UpdateCounts` does not model the exception path, where a zone with a `null` name makes `replace` raise and skips the remaining alerts. It also requires that the clock does not run backwards (`NotAfter`).
- `Dashboard.DashboardStore.UpdateCounts` uses one clock value per call, where the source reads the clock several times.
- `Admin.GetZones` lists an explicit `"threshold": null` as 10, where the source returns `null`. Zones files keep a threshold as present or absent, so a `null` threshold reads as absent. The zone loader has the same limit.
- `Dashboard.SyncThreshold` treats a zone with a `null` name like one without a name. In the source, `':' in raw_name` then raises `TypeError` (dashboard_controller.py 124).
- `Dashboard.DashboardStore.GetLiveData` syncs every zone. In the source, a zone with a `null` name raises, the handler at dashboard_controller.py 148 ends the syncing, and the zones after it keep their old thresholds; the answer is still 200.
- `Dashboard.DashboardStore.UpdateCounts` and `Dashboard.AlertRule` compare database times with the request clock as if both were one clock. In the source, rows are stamped with the database's UTC `CURRENT_TIMESTAMP` (models.py 19, 24, 31) and compared with local `datetime.now()` (dashboard_controller.py 48-49, 79, 102). So the 60 s alert cooldown, the 60 s analytics save and the 24 h alert count of `Dashboard.DashboardStore.GetLiveData` are modelled as on a machine whose local time is UTC.
- JSON values have no floating-point numbers, so `int(12.5)` truncating a threshold (admin_controller.py 160-161) is not modelled.
- Zone ids are text or absent; a JSON number as a zone id is not modelled.
- `ReId.ReIDGallery.BindTrack` records the vector of the extraction that led to the binding. `_update_gallery` extracts a second time from the same crop (re_id.py 229-241); the model takes that second extraction to succeed and give the same vector.
- `Orchestrator.DetectionLoop.Iterate` requires every camera to hold its latest statistics, as it does once the iteration's frames are processed; before any frame, `latest_stats` does not exist and the source raises `AttributeError`.
- The `get_analytics_summary` hourly averages and percentages are floating point and are left out.

## Findings

| source | as written | input that shows it | evidently intended | confidence | as-written member | corrected member |
|---|---|---|---|---|---|---|
| backend/state.py:1,29-36 | `add_alert` calls `time.time()`, but the module imports only `threading` | any call of `add_alert` raises `NameError` | the alert is stored with the current time | high, not executed | SharedState.AddAlertAsWrittenRaises | SharedState.SystemState.AddAlert |
| re_id.py:116-119,139-167 | an exception inside the loading loop is swallowed by the constructor before `next_global_id` is updated | a gallery file with entry `"5"` holding features and entry `"6"` whose processing raises: id 5 is loaded and the next id stays 1 | the next id is one above the greatest loaded id, so no id is handed out twice | medium, not executed | ReId.LoadAsWrittenReusesIds | ReId.Load |
| main.py:232-238 | the camera status iterates over all configured sources but indexes the list of opened systems | sources `0,1` where camera 1 fails to open: `systems[1]` raises `IndexError` on every publish, and the loop's handler swallows it | the status lists the opened cameras | high, not executed | Orchestrator.CameraStatusAsWrittenFails | Orchestrator.CameraStatus |
