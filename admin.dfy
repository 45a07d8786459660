/** The admin controller (`backend/controllers/admin_controller.py`): the status code of a
    start request, saving a zone configuration and queueing it for the detection loop,
    listing a camera's configured zones, and the Normal/Overcrowded rule of the export.
    Zones files are modelled by their parsed contents; whether writing one fails is given
    from outside. */
module Admin {
  import opened Common
  import opened Strings
  import opened Counting
  import opened Records
  import opened Zones
  import opened SharedState
  import opened SystemManager
  import Orchestrator

  /** A response: HTTP status and message. */
  datatype Response = Response(status: int, message: string)

  /** What Flask answers when a handler raises. */
  const INTERNAL_ERROR: string := "Internal Server Error"
  const INVALID_ACTION: string := "Invalid action"
  const ZONES_SAVED: string := "Zones saved and command queued"
  const SAVE_FAILED: string := "Failed to save file: "

  // ----- start_system -----

  /** The status `start_system` gives the message of `start_unified_detection`. */
  function StartStatus(msg: string): int {
    if Contains(msg, "Error") || Contains(msg, "Failed") then 500 else 200
  }

  /** The messages of a start that did not fail carry neither word. */
  lemma SuccessMessagesAnswer200(msg: string)
    requires msg == ALREADY_RUNNING || msg == RESUMED || msg == STARTED
    ensures StartStatus(msg) == 200
  {
    if msg == ALREADY_RUNNING {
      AlreadyRunningPlain();
    } else if msg == RESUMED {
      ResumedPlain();
    } else {
      StartedPlain();
    }
    PlainAnswers200(msg);
  }

  /** The success messages have no capital `E` and no capital `F`. */
  lemma AlreadyRunningPlain()
    ensures 'E' !in ALREADY_RUNNING && 'F' !in ALREADY_RUNNING
  {
  }

  lemma ResumedPlain()
    ensures 'E' !in RESUMED && 'F' !in RESUMED
  {
  }

  lemma StartedPlain()
    ensures 'E' !in STARTED && 'F' !in STARTED
  {
  }

  /** A message with no capital `E` and no capital `F` contains neither word. */
  lemma PlainAnswers200(msg: string)
    requires 'E' !in msg && 'F' !in msg
    ensures StartStatus(msg) == 200
  {
    NotContainsFirstChar(msg, "Error");
    NotContainsFirstChar(msg, "Failed");
  }

  /** The messages of a failed start begin with one of the words. */
  lemma FailureMessagesAnswer500(e: string)
    ensures StartStatus(IMPORT_FAILED + e) == 500 && StartStatus(START_FAILED + e) == 500
  {
    assert forall j :: 0 <= j < 6 ==> IMPORT_FAILED[j] == "Failed"[j];
    assert (IMPORT_FAILED + e)[..6] == IMPORT_FAILED[..6] == "Failed";
    StartsWithContained(IMPORT_FAILED + e, "Failed");
    assert forall j :: 0 <= j < 5 ==> START_FAILED[j] == "Error"[j];
    assert (START_FAILED + e)[..5] == START_FAILED[..5] == "Error";
    StartsWithContained(START_FAILED + e, "Error");
  }

  /** A start answers 500 exactly when there was no live thread and importing or starting
      the detection loop failed. */
  lemma StartStatusReportsFailure(c: Control, alive: bool, importError: Option<string>,
                                  startError: Option<string>, handle: nat)
    ensures StartStatus(Start(c, alive, importError, startError, handle).1) == 500
        <==> !(c.thread.Some? && alive) && (importError.Some? || startError.Some?)
  {
    var msg := Start(c, alive, importError, startError, handle).1;
    if (c.thread.Some? && alive) || (importError.None? && startError.None?) {
      SuccessMessagesAnswer200(msg);
    } else if importError.Some? {
      FailureMessagesAnswer500(importError.value);
    } else {
      FailureMessagesAnswer500(startError.value);
    }
  }

  /** `start_system` on the hub. */
  method StartSystem(state: SystemState, alive: bool, importError: Option<string>,
                     startError: Option<string>, handle: nat) returns (resp: Response)
    modifies state`stopSet, state`detectionThread
    ensures var r := Start(Control(old(state.stopSet), old(state.detectionThread)), alive, importError, startError, handle);
      Control(state.stopSet, state.detectionThread) == r.0 && resp == Response(StartStatus(r.1), r.1)
  {
    var msg := StartUnifiedDetection(state, alive, importError, startError, handle);
    resp := Response(StartStatus(msg), msg);
  }

  // ----- update_zones_config -----

  /** The `source` of a request: JSON text or a JSON number. */
  datatype SourceArg = SourceText(text: string) | SourceNumber(n: int)

  /** One zone of a `save_zones` request; each key may be absent. */
  datatype ZoneInput = ZoneInput(name: Option<string>, id: Option<string>, coords: Option<seq<int>>, threshold: Option<Value>)

  /** The body of a zone configuration request. */
  datatype ZonesRequest = ZonesRequest(action: Option<string>, source: Option<SourceArg>, zones: seq<ZoneInput>)

  /** `int(v)` for a JSON value; `None` where it raises. */
  function PyInt(v: Value): (r: Option<int>)
    ensures v.Int? ==> r == Some(v.i)
    ensures v.Bool? ==> r == Some(if v.b then 1 else 0)
    ensures v.Null? || v.ZoneList? || v.ZonesByCamera? || v.Object? ==> r.None?
  {
    match v
    case Int(i) => Some(i)
    case Bool(b) => Some(if b then 1 else 0)
    case Str(s) => ParseInt(s)
    case _ => None
  }

  /** `int()` reads back the decimal text of any integer. */
  lemma {:induction false} PyIntOfText(n: int)
    ensures PyInt(Str(IntToString(n))) == Some(n)
  {
    IntRoundTrip(n);
  }

  /** `z.get('name') or z.get('id')`: a non-empty name, otherwise the id, which may be
      absent (null). */
  function ZoneKey(z: ZoneInput): ZoneId {
    if z.name.Some? && z.name.value != "" then Some(z.name.value) else z.id
  }

  /** The saved form of one zone; `None` where `int(threshold)` raises. */
  function Normalised(z: ZoneInput): (r: Option<ZoneDef>)
    ensures r.Some? <==> PyInt(z.threshold.GetOr(Int(DEFAULT_THRESHOLD))).Some?
    ensures r.Some? ==> r.value.threshold.Some?
    ensures z.threshold.None? ==> r == Some(ZoneDef(ZoneKey(z), z.coords.GetOr([]), Some(DEFAULT_THRESHOLD)))
  {
    var t := PyInt(z.threshold.GetOr(Int(DEFAULT_THRESHOLD)));
    if t.None? then None else Some(ZoneDef(ZoneKey(z), z.coords.GetOr([]), Some(t.value)))
  }

  /** The saved zones in input order, or `None` when any zone raises. */
  function NormalisedAll(zs: seq<ZoneInput>): Option<seq<ZoneDef>> {
    if forall k :: 0 <= k < |zs| ==> Normalised(zs[k]).Some? then
      Some(seq(|zs|, k requires 0 <= k < |zs| && Normalised(zs[k]).Some? => Normalised(zs[k]).value))
    else None
  }

  /** The objects written to the zones file. */
  function Written(defs: seq<ZoneDef>): (es: seq<RawZone>)
    ensures |es| == |defs|
  {
    seq(|defs|, k requires 0 <= k < |defs| => RawZone(Some(defs[k].id), Some(defs[k].coords), defs[k].threshold))
  }

  /** `source` as it appears in the file name. */
  function SourcePath(a: SourceArg): string {
    match a
    case SourceText(s) => s
    case SourceNumber(n) => IntToString(n)
  }

  /** `int(source)`; `None` where it raises. */
  function SourceInt(a: SourceArg): Option<int> {
    match a
    case SourceText(s) => ParseInt(s)
    case SourceNumber(n) => Some(n)
  }

  /** What a configuration request does: the response, the zones file written (keyed by the
      source text of its name) and the command queued. */
  datatype Outcome = Outcome(response: Response, written: Option<(string, ZoneFile)>, command: Option<Command>)

  /** `update_zones_config` with `writeError` the failure of writing the file, if any. The
      zone table of the database is not part of this model. */
  function ConfigUpdate(data: Option<ZonesRequest>, writeError: Option<string>): Outcome {
    if data.None? then Outcome(Response(500, INTERNAL_ERROR), None, None)
    else if data.value.action != Some("save_zones") then Outcome(Response(400, INVALID_ACTION), None, None)
    else
      var defs := NormalisedAll(data.value.zones);
      if defs.None? then Outcome(Response(500, INTERNAL_ERROR), None, None)
      else if writeError.Some? then Outcome(Response(500, SAVE_FAILED + writeError.value), None, None)
      else
        var src := data.value.source.GetOr(SourceText("0"));
        var written := Some((SourcePath(src), Entries(Written(defs.value))));
        var n := SourceInt(src);
        if n.None? then Outcome(Response(500, INTERNAL_ERROR), written, None)
        else
          var cmd := Command(Some("update_zones"), Some("C" + IntToString(n.value + 1)), defs);
          Outcome(Response(200, ZONES_SAVED), written, Some(cmd))
  }

  /** A request answers 200 exactly when a command is queued; a command needs a successful
      write, and a failed write writes nothing; an action other than `save_zones` is refused
      with 400 and has no effect; the command queued is `update_zones` with the normalised
      zones, which are also the zones written. */
  lemma ConfigUpdateOutcomes(data: Option<ZonesRequest>, writeError: Option<string>)
    ensures var o := ConfigUpdate(data, writeError);
      && (o.response.status == 200 <==> o.command.Some?)
      && (o.command.Some? ==> o.written.Some? && writeError.None?)
      && (writeError.Some? ==> o.written.None?)
      && (data.Some? && data.value.action != Some("save_zones") ==>
           o == Outcome(Response(400, INVALID_ACTION), None, None))
      && (o.command.Some? ==>
           && data.Some?
           && NormalisedAll(data.value.zones).Some?
           && o.command.value.action == Some("update_zones")
           && o.command.value.zones == NormalisedAll(data.value.zones)
           && o.written.value.1 == Entries(Written(NormalisedAll(data.value.zones).value)))
  {
  }

  /** The written file is what the detection loop itself would save for the installed
      list. */
  lemma WrittenIsSaved(defs: seq<ZoneDef>)
    requires forall k :: 0 <= k < |defs| ==> defs[k].threshold.Some?
    ensures Written(defs) == Saved(Orchestrator.NewEntries(defs))
  {
  }

  /** A successful save for source `n` writes the file named after `n` and queues an
      `update_zones` command for camera `n` carrying the saved zones. */
  lemma SaveForSource(req: ZonesRequest, n: nat)
    requires req.action == Some("save_zones") && req.source == Some(SourceText(NatToString(n)))
    requires NormalisedAll(req.zones).Some?
    ensures var defs := NormalisedAll(req.zones).value;
      ConfigUpdate(Some(req), None) == Outcome(Response(200, ZONES_SAVED),
        Some((NatToString(n), Entries(Written(defs)))),
        Some(Command(Some("update_zones"), Some(Orchestrator.CamLabel(n)), Some(defs))))
  {
    IntRoundTrip(n);
    assert IntToString(n + 1) == NatToString(n + 1);
  }

  /** Saving zones for source `n` reaches the camera at position `n` of the detection loop
      and no other one, and that camera ends with the zones a fresh load of the written file
      gives and with the very file written. The command addresses a position in the list of
      opened cameras, while a camera's zones file is named after its source index, so the two
      name the same camera only when every earlier source opened. */
  lemma SavedZonesReachCamera(req: ZonesRequest, n: nat, c: Orchestrator.Camera, i: nat)
    requires req.action == Some("save_zones") && req.source == Some(SourceText(NatToString(n)))
    requires NormalisedAll(req.zones).Some?
    ensures var o := ConfigUpdate(Some(req), None);
      && o.command.Some? && o.written.Some? && o.written.value.0 == NatToString(n)
      && var file := o.written.value.1;
      && var after := Orchestrator.CamStep(c, i, o.command.value);
      && (i != n ==> after == c)
      && (i == n ==> after == Orchestrator.Camera(LoadFile(file).0, file, Orchestrator.Converted(LoadFile(file).0)))
  {
    var defs := NormalisedAll(req.zones).value;
    var cmd := Command(Some("update_zones"), Some(Orchestrator.CamLabel(n)), Some(defs));
    var file := Entries(Written(defs));
    assert ConfigUpdate(Some(req), None) == Outcome(Response(200, ZONES_SAVED), Some((NatToString(n), file)), Some(cmd)) by {
      SaveForSource(req, n);
    }
    var es := Orchestrator.NewEntries(defs);
    assert file == Entries(Saved(es)) && LoadFile(file).0 == es by {
      assert forall k :: 0 <= k < |defs| ==> defs[k].threshold.Some?;
      WrittenIsSaved(defs);
      SaveThenLoad(es);
    }
    Orchestrator.UpdateTargetsOneCamera(c, i, n, cmd);
  }

  /** `update_zones_config` on the hub: the loop normalising the zones, then the queueing
      of the command. */
  method UpdateZonesConfig(hub: SystemState, data: Option<ZonesRequest>, writeError: Option<string>)
    returns (o: Outcome)
    modifies hub`commandQueue
    ensures o == ConfigUpdate(data, writeError)
    ensures hub.commandQueue == old(hub.commandQueue) + (if o.command.Some? then [o.command.value] else [])
  {
    if data.None? {
      return Outcome(Response(500, INTERNAL_ERROR), None, None);
    }
    var req := data.value;
    if req.action != Some("save_zones") {
      return Outcome(Response(400, INVALID_ACTION), None, None);
    }
    var defs := NormaliseZones(req.zones);
    if defs.None? {
      return Outcome(Response(500, INTERNAL_ERROR), None, None);
    }
    if writeError.Some? {
      return Outcome(Response(500, SAVE_FAILED + writeError.value), None, None);
    }
    var src := req.source.GetOr(SourceText("0"));
    var written := Some((SourcePath(src), Entries(Written(defs.value))));
    var n := SourceInt(src);
    if n.None? {
      return Outcome(Response(500, INTERNAL_ERROR), written, None);
    }
    var cmd := Command(Some("update_zones"), Some("C" + IntToString(n.value + 1)), defs);
    hub.QueueCommand(cmd);
    o := Outcome(Response(200, ZONES_SAVED), written, Some(cmd));
  }

  /** The loop of `update_zones_config` building the saved zones; it stops at the first
      zone whose threshold raises. */
  method NormaliseZones(zs: seq<ZoneInput>) returns (defs: Option<seq<ZoneDef>>)
    ensures defs == NormalisedAll(zs)
  {
    var out: seq<ZoneDef> := [];
    var k := 0;
    while k < |zs|
      invariant 0 <= k <= |zs| && |out| == k
      invariant forall j :: 0 <= j < k ==> Normalised(zs[j]).Some? && out[j] == Normalised(zs[j]).value
    {
      var z := Normalised(zs[k]);
      if z.None? {
        return None;
      }
      out := out + [z.value];
      k := k + 1;
    }
    assert out == seq(|zs|, j requires 0 <= j < |zs| && Normalised(zs[j]).Some? => Normalised(zs[j]).value);
    return Some(out);
  }

  // ----- get_zones -----

  /** A configured zone as listed: `name` is the id (null when absent), the coordinates
      (empty when absent) and the threshold (10 when absent). */
  datatype ConfiguredZone = ConfiguredZone(name: ZoneId, coords: seq<int>, threshold: int)

  /** `str(z.get('id', 'unknown'))` */
  function IdText(z: RawZone): string {
    if z.id.None? then "unknown" else Orchestrator.PyStr(z.id.value)
  }

  function Formatted(z: RawZone): ConfiguredZone {
    ConfiguredZone(z.id.GetOr(None), z.coords.GetOr([]), z.threshold.GetOr(DEFAULT_THRESHOLD))
  }

  /** The `configured_zones` dict built from the objects of a file, in file order. */
  function Configured(es: seq<RawZone>): (d: Dict<string, ConfiguredZone>)
    ensures DistinctKeys(d)
  {
    Collected(es, IdText, Formatted)
  }

  /** A missing file or one that is not JSON lists nothing. */
  function ConfiguredZones(f: ZoneFile): Dict<string, ConfiguredZone> {
    if f.Entries? then Configured(f.entries) else []
  }

  /** The object at `j`, with no later object sharing its key, is what is listed under
      that key: a later duplicate overwrites an earlier one. */
  lemma LastObjectListed(es: seq<RawZone>, j: nat)
    requires j < |es| && forall j' :: j < j' < |es| ==> IdText(es[j']) != IdText(es[j])
    ensures Get(Configured(es), IdText(es[j])) == Some(Formatted(es[j]))
  {
    CollectedGet(es, IdText, Formatted, IdText(es[j]));
    LastKeyedAt(es, IdText, Formatted, j);
  }

  /** Exactly the keys of the file's objects are listed. */
  lemma ListedKeys(es: seq<RawZone>, key: string)
    ensures Get(Configured(es), key).Some? <==> exists j :: 0 <= j < |es| && IdText(es[j]) == key
  {
    CollectedGet(es, IdText, Formatted, key);
  }

  /** `get_zones` for the camera whose zones file is `file`: the listing built by a loop
      over the file's objects, and the hub's live `zones`. */
  method GetZones(hub: SystemState, file: ZoneFile) returns (configured: Dict<string, ConfiguredZone>, live: Value)
    ensures configured == ConfiguredZones(file)
    ensures live == Get(hub.liveData, "zones").GetOr(ZoneList([]))
  {
    var es := if file.Entries? then file.entries else [];
    configured := [];
    var k := 0;
    while k < |es|
      invariant 0 <= k <= |es| && configured == Configured(es[..k])
    {
      assert es[..k + 1][..k] == es[..k];
      configured := Put(configured, IdText(es[k]), Formatted(es[k]));
      k := k + 1;
    }
    assert es[..k] == es;
    var d := hub.GetData();
    live := Get(d, "zones").GetOr(ZoneList([]));
  }

  // ----- export -----

  /** The two export formats; they differ in the default threshold and the wording. */
  datatype Format = Pdf | Csv

  function DefaultExportThreshold(f: Format): int {
    if f == Pdf then 20 else 10
  }

  function OverWord(f: Format): string {
    if f == Pdf then "OVERCROWDED" else "Overcrowded"
  }

  /** A row of the zone section: name, threshold, live count and status. */
  datatype ExportRow = ExportRow(name: string, threshold: int, count: int, status: string)

  function Row(f: Format, table: Dict<string, int>, z: ZoneItem): ExportRow {
    var name := z.name.GetOr("Unknown");
    var count := z.count.GetOr(0);
    var threshold := Get(table, name).GetOr(DefaultExportThreshold(f));
    ExportRow(name, threshold, count, if count > threshold then OverWord(f) else "Normal")
  }

  /** The zone entries of the live data, flattened. */
  function LiveItems(live: Dict<string, Value>): seq<ZoneItem> {
    Flatten(Get(live, "zones").GetOr(ZonesByCamera([])))
  }

  /** The zone section of an export, one row per live zone entry in order; `table` maps zone
      names to the thresholds of the database. */
  function ExportRows(f: Format, live: Dict<string, Value>, table: Dict<string, int>): (rows: seq<ExportRow>)
    ensures |rows| == |LiveItems(live)|
  {
    var items := LiveItems(live);
    seq(|items|, k requires 0 <= k < |items| => Row(f, table, items[k]))
  }

  /** The summary lines of an export: live occupancy, total visitors, active alerts. */
  function ExportSummary(live: Dict<string, Value>): (r: seq<Value>)
    ensures |r| == 3
  {
    [Get(live, "people_count").GetOr(Int(0)), Get(live, "total_visitors").GetOr(Int(0)),
     Get(live, "alert_count").GetOr(Int(0))]
  }

  /** A row is flagged exactly when its count exceeds the database threshold of its name,
      or the format's default when the name has none. */
  lemma ExportStatusRule(f: Format, live: Dict<string, Value>, table: Dict<string, int>, k: nat)
    requires k < |LiveItems(live)|
    ensures var z := LiveItems(live)[k]; var row := ExportRows(f, live, table)[k];
      && row.name == z.name.GetOr("Unknown") && row.count == z.count.GetOr(0)
      && (row.status != "Normal" <==> z.count.GetOr(0) > Get(table, row.name).GetOr(DefaultExportThreshold(f)))
      && (row.status == "Normal" || row.status == OverWord(f))
  {
  }

  /** The two formats flag the same zones when the database knows the name, and the CSV
      export, with the lower default, flags every zone the PDF export flags. */
  lemma ExportFormatsAgree(live: Dict<string, Value>, table: Dict<string, int>, k: nat)
    requires k < |LiveItems(live)|
    ensures var pdf := ExportRows(Pdf, live, table)[k]; var csv := ExportRows(Csv, live, table)[k];
      && (pdf.status != "Normal" ==> csv.status != "Normal")
      && (Get(table, pdf.name).Some? ==> (pdf.status != "Normal" <==> csv.status != "Normal"))
  {
  }
}
