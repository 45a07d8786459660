/** `backend/state.py`: the process-wide hub the detection thread publishes to and the web
    handlers read from. Every method runs under one lock, so each is modelled as a single
    atomic step. */
module SharedState {
  import opened Common
  import opened Strings
  import opened Records

  type Bytes = seq<bv8>

  /** The history deque keeps this many points. */
  const HISTORY_SIZE: nat := 100

  /** One chart point: an `%H:%M:%S` time string and the published `people_count`. */
  datatype HistoryPoint = HistoryPoint(time: string, count: Value)

  /** An alert waiting to be written to the database. */
  datatype PendingAlert = PendingAlert(zoneName: string, message: string, timestamp: real)

  /** A camera id as callers pass it: a number or a string. */
  datatype CamId = CamNumber(n: int) | CamName(name: string)

  /** `str(cam_id)`, the key of the frame buffer. */
  function CamKey(c: CamId): string {
    match c
    case CamNumber(n) => IntToString(n)
    case CamName(name) => name
  }

  /** A numbered camera and the camera named by that number's text share one frame slot,
      and different numbers never share one. */
  lemma CamKeyText(n: int, m: int)
    ensures CamKey(CamNumber(n)) == CamKey(CamName(IntToString(n)))
    ensures CamKey(CamNumber(n)) == CamKey(CamNumber(m)) ==> n == m
  {
    IntToStringInjective(n, m);
  }

  /** Everything the hub holds. `thread` is a handle of the current detection thread, if
      any; whether that thread is still alive is not part of the hub. */
  datatype Hub = Hub(
    liveData: Dict<string, Value>,
    commands: seq<Command>,
    history: seq<HistoryPoint>,
    alerts: seq<PendingAlert>,
    frames: map<string, Bytes>,
    stopSet: bool,
    thread: Option<nat>)

  /** The live data before anything is published. */
  const InitialLiveData: Dict<string, Value> := [
    ("live_count", Int(0)), ("people_count", Int(0)), ("total_visitors", Int(0)),
    ("zones", ZonesByCamera([])), ("cameras", Object([])), ("alert_count", Int(0)),
    ("active_cameras", Int(0))]

  /** The history keeps at most `HISTORY_SIZE` points and never two neighbours with the
      same time string. */
  ghost predicate HistoryOk(h: seq<HistoryPoint>) {
    |h| <= HISTORY_SIZE && forall i :: 0 < i < |h| ==> h[i - 1].time != h[i].time
  }

  /** The history after an update whose data carries `count` under `people_count`, if
      anything, at wall-clock time `nowStr`. */
  function NextHistory(h: seq<HistoryPoint>, count: Option<Value>, nowStr: string): seq<HistoryPoint> {
    if count.Some? && (h == [] || h[|h| - 1].time != nowStr)
    then AppendBounded(h, HistoryPoint(nowStr, count.value), HISTORY_SIZE)
    else h
  }

  /** `update(data)` at wall-clock time `nowStr`: the data is merged into the live data, a
      history point is added when the data carries `people_count` and the time string
      differs from the newest point's, and `new_alerts` reports the pending alerts. */
  function Updated(s: Hub, data: Dict<string, Value>, nowStr: string): Hub {
    s.(liveData := Put(Merge(s.liveData, data), "new_alerts", Int(|s.alerts|)),
       history := NextHistory(s.history, Get(data, "people_count"), nowStr))
  }

  /** After `update(data)` each key reads: the pending-alert count for `new_alerts`, the
      value in `data` for the keys it has, and the old value for the rest. */
  lemma UpdateReads(s: Hub, data: Dict<string, Value>, nowStr: string, k: string)
    requires DistinctKeys(data)
    ensures Get(Updated(s, data, nowStr).liveData, k) ==
      if k == "new_alerts" then Some(Int(|s.alerts|))
      else if Get(data, k).Some? then Get(data, k)
      else Get(s.liveData, k)
  {
    PutGet(Merge(s.liveData, data), "new_alerts", Int(|s.alerts|), k);
    MergeGet(s.liveData, data, k);
  }

  /** `update` keeps the live data a well-formed dict. */
  lemma UpdateKeepsKeysDistinct(s: Hub, data: Dict<string, Value>, nowStr: string)
    requires DistinctKeys(s.liveData)
    ensures DistinctKeys(Updated(s, data, nowStr).liveData)
  {
    MergeDistinct(s.liveData, data);
    PutDistinct(Merge(s.liveData, data), "new_alerts", Int(|s.alerts|));
  }

  /** The history rule: a point is added exactly when `people_count` is present and the
      time string is new; the added point is the newest one; the bound and the
      one-point-per-time-string rule are kept, the oldest point going first. */
  lemma HistoryRule(h: seq<HistoryPoint>, count: Option<Value>, nowStr: string)
    requires HistoryOk(h)
    ensures var h' := NextHistory(h, count, nowStr);
      && HistoryOk(h')
      && (h' != h <==> count.Some? && (h == [] || h[|h| - 1].time != nowStr))
      && (h' != h ==> h'[|h'| - 1] == HistoryPoint(nowStr, count.value) && h'[..|h'| - 1] == h[|h| + 1 - |h'|..])
  {
    if count.Some? && (h == [] || h[|h| - 1].time != nowStr) {
      var p := HistoryPoint(nowStr, count.value);
      AppendKeepsHistoryOk(h, p);
      var h' := AppendBounded(h, p, HISTORY_SIZE);
      AppendBoundedShape(h, p, HISTORY_SIZE);
      assert h == [] || h'[|h'| - 1] != h[|h| - 1];
    }
  }

  /** `update` keeps the hub's live data and history well formed. */
  lemma UpdatedOk(s: Hub, data: Dict<string, Value>, nowStr: string)
    requires DistinctKeys(s.liveData) && HistoryOk(s.history)
    ensures DistinctKeys(Updated(s, data, nowStr).liveData) && HistoryOk(Updated(s, data, nowStr).history)
  {
    UpdateKeepsKeysDistinct(s, data, nowStr);
    var count := Get(data, "people_count");
    if count.Some? && (s.history == [] || s.history[|s.history| - 1].time != nowStr) {
      AppendKeepsHistoryOk(s.history, HistoryPoint(nowStr, count.value));
    }
  }

  /** Appending a point with a new time string keeps the history well-formed. */
  lemma AppendKeepsHistoryOk(h: seq<HistoryPoint>, p: HistoryPoint)
    requires HistoryOk(h) && (h == [] || h[|h| - 1].time != p.time)
    ensures HistoryOk(AppendBounded(h, p, HISTORY_SIZE))
  {
    var h' := AppendBounded(h, p, HISTORY_SIZE);
    var t := if |h| < HISTORY_SIZE then h else h[1..];
    assert h' == t + [p];
    assert forall i :: 0 < i < |t| ==> t[i - 1].time != t[i].time by {
      if |h| >= HISTORY_SIZE {
        assert forall i :: 0 <= i < |t| ==> t[i] == h[i + 1];
      }
    }
    assert t != [] ==> t[|t| - 1] == h[|h| - 1];
  }

  /** The alert-queueing step as `backend/state.py` has it: the record it appends reads
      `time.time()`, but the module binds only the names in `globals` (`threading`, the
      class and the singleton), so evaluating the record raises `NameError` before anything
      is appended. The result is the new queue, or `None` for the exception. */
  function AddAlertAsWritten(globals: set<string>, alerts: seq<PendingAlert>, zoneName: string,
                             message: string, clock: real): (r: Option<seq<PendingAlert>>)
    ensures r.Some? ==> r.value == alerts + [PendingAlert(zoneName, message, clock)]
  {
    if "time" in globals then Some(alerts + [PendingAlert(zoneName, message, clock)]) else None
  }

  /** The names `backend/state.py` binds at module level. */
  const StateModuleGlobals: set<string> := {"threading", "SystemState", "state"}

  /** As written, `add_alert` never queues anything: every call raises. */
  lemma AddAlertAsWrittenRaises(alerts: seq<PendingAlert>, zoneName: string, message: string, clock: real)
    ensures AddAlertAsWritten(StateModuleGlobals, alerts, zoneName, message, clock).None?
  {
  }

  /** `get_frame(cam)`: the newest bytes stored under `str(cam)`, if any. */
  function FrameOf(frames: map<string, Bytes>, c: CamId): Option<Bytes> {
    if CamKey(c) in frames then Some(frames[CamKey(c)]) else None
  }

  /** After `update_frame(c, b)` the camera `c` (and any id with the same text) reads `b`;
      every other camera reads as before. */
  lemma LatestFrameWins(frames: map<string, Bytes>, c: CamId, b: Bytes, d: CamId)
    ensures FrameOf(frames[CamKey(c) := b], d) ==
      if CamKey(d) == CamKey(c) then Some(b) else FrameOf(frames, d)
  {
  }

  /** `backend.state.SystemState`. */
  class SystemState {
    var liveData: Dict<string, Value>
    var commandQueue: seq<Command>
    var history: seq<HistoryPoint>
    var pendingAlerts: seq<PendingAlert>
    var frameBuffer: map<string, Bytes>
    var stopSet: bool
    var detectionThread: Option<nat>

    function Snapshot(): Hub
      reads this
    {
      Hub(liveData, commandQueue, history, pendingAlerts, frameBuffer, stopSet, detectionThread)
    }

    ghost predicate Valid()
      reads this
    {
      DistinctKeys(liveData) && HistoryOk(history)
    }

    constructor ()
      ensures Valid()
      ensures Snapshot() == Hub(InitialLiveData, [], [], [], map[], false, None)
    {
      liveData := InitialLiveData;
      commandQueue := [];
      history := [];
      pendingAlerts := [];
      frameBuffer := map[];
      stopSet := false;
      detectionThread := None;
    }

    /** `add_alert(zone_name, message)` with the timestamp the call was meant to read. */
    method AddAlert(zoneName: string, message: string, timestamp: real)
      modifies this`pendingAlerts
      ensures pendingAlerts == old(pendingAlerts) + [PendingAlert(zoneName, message, timestamp)]
    {
      pendingAlerts := pendingAlerts + [PendingAlert(zoneName, message, timestamp)];
    }

    /** `get_and_clear_alerts()`: every pending alert, oldest first; none remain. */
    method GetAndClearAlerts() returns (alerts: seq<PendingAlert>)
      modifies this`pendingAlerts
      ensures alerts == old(pendingAlerts) && pendingAlerts == []
    {
      alerts := pendingAlerts;
      pendingAlerts := [];
    }

    /** `update(data)`, with `nowStr` the `%H:%M:%S` text of the current time. */
    method Update(data: Dict<string, Value>, nowStr: string)
      requires Valid() && DistinctKeys(data)
      modifies this`liveData, this`history
      ensures Valid()
      ensures Snapshot() == Updated(old(Snapshot()), data, nowStr)
    {
      UpdatedOk(Snapshot(), data, nowStr);
      var merged := Merge(liveData, data);
      var count := Get(data, "people_count");
      if count.Some? && (history == [] || history[|history| - 1].time != nowStr) {
        history := AppendBounded(history, HistoryPoint(nowStr, count.value), HISTORY_SIZE);
      }
      liveData := Put(merged, "new_alerts", Int(|pendingAlerts|));
    }

    /** `get_data()`: a copy of the live data. Datatype values are immutable here, so no
        later change to the copy can reach the hub. */
    method GetData() returns (d: Dict<string, Value>)
      ensures d == liveData
    {
      d := liveData;
    }

    /** `queue_command(cmd)` */
    method QueueCommand(cmd: Command)
      modifies this`commandQueue
      ensures commandQueue == old(commandQueue) + [cmd]
    {
      commandQueue := commandQueue + [cmd];
    }

    /** `get_and_clear_commands()`: every queued command in queueing order; none remain. */
    method GetAndClearCommands() returns (cmds: seq<Command>)
      modifies this`commandQueue
      ensures cmds == old(commandQueue) && commandQueue == []
    {
      cmds := commandQueue;
      commandQueue := [];
    }

    /** `get_history()` */
    method GetHistory() returns (h: seq<HistoryPoint>)
      requires Valid()
      ensures h == history && HistoryOk(h)
    {
      h := history;
    }

    /** `update_frame(cam_id, frame_bytes)`: the newest frame of a camera replaces the one
        before. */
    method UpdateFrame(cam: CamId, frame: Bytes)
      modifies this`frameBuffer
      ensures frameBuffer == old(frameBuffer)[CamKey(cam) := frame]
    {
      frameBuffer := frameBuffer[CamKey(cam) := frame];
    }

    /** `get_frame(cam_id)` */
    method GetFrame(cam: CamId) returns (frame: Option<Bytes>)
      ensures frame == FrameOf(frameBuffer, cam)
      ensures frame.None? <==> CamKey(cam) !in frameBuffer
    {
      if CamKey(cam) in frameBuffer {
        frame := Some(frameBuffer[CamKey(cam)]);
      } else {
        frame := None;
      }
    }
  }
}
