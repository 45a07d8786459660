/** `backend/system_manager.py` and the stop and status handlers of the admin controller:
    the detection thread's start/stop control over the shared hub's stop flag and thread
    handle. Whether the current thread is alive, whether importing the detection loop
    succeeds and whether starting the thread succeeds are given from outside. */
module SystemManager {
  import opened Common
  import opened SharedState

  const ALREADY_RUNNING: string := "System is already running."
  const RESUMED: string := "Resumed/Restarting..."
  const STARTED: string := "Detection Started"
  const IMPORT_FAILED: string := "Failed to import main detection process: "
  const START_FAILED: string := "Error triggering detection: "
  const STOP_SENT: string := "Stop signal sent. System stopping..."
  const NOT_RUNNING: string := "System is not running."

  /** The part of the hub the control reads and writes: the stop flag and the handle of the
      detection thread, if one was started. */
  datatype Control = Control(stopSet: bool, thread: Option<nat>)

  /** `start_unified_detection(source)`, with `alive` telling whether the current thread is
      alive, `importError` the import failure if any, `startError` the failure to start the
      thread if any, and `handle` the new thread. */
  function Start(c: Control, alive: bool, importError: Option<string>, startError: Option<string>,
                 handle: nat): (r: (Control, string))
    ensures !r.0.stopSet
    ensures r.0.thread == c.thread || (r.0.thread == Some(handle) && r.1 == STARTED)
    ensures c.thread.Some? && alive ==> r.0.thread == c.thread
  {
    if c.thread.Some? && alive then
      if !c.stopSet then (c, ALREADY_RUNNING) else (c.(stopSet := false), RESUMED)
    else
      var cleared := c.(stopSet := false);
      if importError.Some? then (cleared, IMPORT_FAILED + importError.value)
      else if startError.Some? then (cleared, START_FAILED + startError.value)
      else (cleared.(thread := Some(handle)), STARTED)
  }

  /** `stop_system`: the stop flag is set only when a live thread exists. */
  function Stop(c: Control, alive: bool): (r: (Control, string))
    ensures r.0.thread == c.thread
    ensures r.0.stopSet <==> c.stopSet || (c.thread.Some? && alive)
    ensures r.1 == STOP_SENT <==> c.thread.Some? && alive
  {
    if c.thread.Some? && alive then (c.(stopSet := true), STOP_SENT) else (c, NOT_RUNNING)
  }

  /** `get_system_status`: running means the stop flag is clear, whether or not a thread
      exists. */
  function Running(c: Control): bool {
    !c.stopSet
  }

  /** A fresh hub reports the system as running although no thread was ever started, and
      stopping it then changes nothing. */
  lemma StatusIgnoresThread(alive: bool)
    ensures Running(Control(false, None))
    ensures Stop(Control(false, None), alive) == (Control(false, None), NOT_RUNNING)
  {
  }

  /** Start, stop and start again while the thread is still alive: the second start resumes
      the same thread instead of starting another. */
  lemma StartStopStart(c: Control, importError: Option<string>, startError: Option<string>, h1: nat, h2: nat)
    requires c.thread.None? && importError.None? && startError.None?
    ensures var (c1, m1) := Start(c, false, importError, startError, h1);
      var (c2, _) := Stop(c1, true);
      var (c3, m3) := Start(c2, true, importError, startError, h2);
      m1 == STARTED && !Running(c2) && m3 == RESUMED && Running(c3) && c3.thread == Some(h1)
  {
  }

  /** `start_unified_detection` on the hub. */
  method StartUnifiedDetection(state: SystemState, alive: bool, importError: Option<string>,
                               startError: Option<string>, handle: nat) returns (msg: string)
    modifies state`stopSet, state`detectionThread
    ensures (Control(state.stopSet, state.detectionThread), msg) ==
      Start(Control(old(state.stopSet), old(state.detectionThread)), alive, importError, startError, handle)
  {
    if state.detectionThread.Some? && alive {
      if !state.stopSet {
        return ALREADY_RUNNING;
      }
      state.stopSet := false;
      return RESUMED;
    }
    state.stopSet := false;
    if importError.Some? {
      return IMPORT_FAILED + importError.value;
    }
    if startError.Some? {
      return START_FAILED + startError.value;
    }
    state.detectionThread := Some(handle);
    msg := STARTED;
  }

  /** `stop_system` on the hub. */
  method StopSystem(state: SystemState, alive: bool) returns (msg: string)
    modifies state`stopSet
    ensures (Control(state.stopSet, state.detectionThread), msg) ==
      Stop(Control(old(state.stopSet), state.detectionThread), alive)
  {
    if state.detectionThread.Some? && alive {
      state.stopSet := true;
      return STOP_SENT;
    }
    return NOT_RUNNING;
  }

  /** `get_system_status` on the hub. */
  method GetSystemStatus(state: SystemState) returns (running: bool)
    ensures running == Running(Control(state.stopSet, state.detectionThread))
  {
    running := !state.stopSet;
  }
}
