/** The decision logic of `run_detection_headless` in `main.py`: which video sources to open,
    how the cameras' statistics are aggregated and published, and how the commands that come
    back are applied to the cameras' zone lists. Frame capture, drawing and disk writes are
    outside the model. */
module Orchestrator {
  import opened Common
  import opened Strings
  import opened Counting
  import opened Records
  import opened Zones
  import opened Detection
  import opened SharedState
  import ReId

  // ---------------- Source resolution ----------------

  /** A video source: a webcam index or a file path. */
  datatype Source = Webcam(index: nat) | File(path: string)

  /** The file system as the resolution sees it: whether a path exists, `os.path.abspath`,
      and the joins of a name onto the program's directory and onto its `data/videos`. */
  datatype Paths = Paths(present: string -> bool, absolute: string -> string, underRoot: string -> string,
                         underVideos: string -> string)

  /** `.strip().strip("'").strip('"')` */
  function Clean(s: string): string {
    Strip(Strip(Strip(s, IsSpace), IsQuote), IsDoubleQuote)
  }

  /** A name looked up as given, then under the program's directory, then under its videos
      directory. */
  function Lookup(p: string, fs: Paths): Option<Source> {
    if fs.present(p) then Some(File(fs.absolute(p)))
    else if fs.present(fs.underRoot(p)) then Some(File(fs.underRoot(p)))
    else if fs.present(fs.underVideos(p)) then Some(File(fs.underVideos(p)))
    else None
  }

  /** One part of a comma-separated list: a number is a webcam, anything else is looked up. */
  function ResolvePart(part: string, fs: Paths): Option<Source> {
    var p := Clean(part);
    if IsDigits(p) then Some(Webcam(DigitsValue(p))) else Lookup(p, fs)
  }

  function ResolveParts(parts: seq<string>, fs: Paths): (r: seq<Source>)
    ensures |r| <= |parts|
  {
    FilterMap(parts, p => ResolvePart(p, fs))
  }

  /** One more part: its source, if any, follows those of the parts before it. */
  lemma ResolvePartsSnoc(parts: seq<string>, fs: Paths, i: nat)
    requires i < |parts|
    ensures var found := ResolvePart(parts[i], fs);
      ResolveParts(parts[..i + 1], fs) == ResolveParts(parts[..i], fs) + (if found.Some? then [found.value] else [])
  {
    assert parts[..i + 1][..i] == parts[..i];
    assert parts[..i + 1][i] == parts[i];
  }

  /** The sources for the `--source` argument (`"0"` when absent): a number is one webcam,
      a comma list resolves part by part, anything else is looked up; nothing found falls
      back to webcam 0. */
  function Resolved(arg: Option<string>, fs: Paths): (r: seq<Source>)
    ensures |r| >= 1
  {
    var raw := Clean(arg.GetOr("0"));
    var found :=
      if IsDigits(raw) then [Webcam(DigitsValue(raw))]
      else if ',' in raw then ResolveParts(Split(raw, ','), fs)
      else (var l := Lookup(raw, fs); if l.Some? then [l.value] else []);
    if found == [] then [Webcam(0)] else found
  }

  /** The source resolution of `run_detection_headless`. */
  method ResolveSources(arg: Option<string>, fs: Paths) returns (sources: seq<Source>)
    ensures sources == Resolved(arg, fs)
  {
    var raw := Clean(arg.GetOr("0"));
    sources := [];
    if IsDigits(raw) {
      sources := [Webcam(DigitsValue(raw))];
    } else if ',' in raw {
      sources := ResolveList(Split(raw, ','), fs);
    } else {
      var found := Lookup(raw, fs);
      if found.Some? {
        sources := [found.value];
      }
    }
    if sources == [] {
      sources := [Webcam(0)];
    }
  }

  /** The loop over the parts of a comma list. */
  method ResolveList(parts: seq<string>, fs: Paths) returns (processed: seq<Source>)
    ensures processed == ResolveParts(parts, fs)
  {
    processed := [];
    var i := 0;
    while i < |parts|
      invariant 0 <= i <= |parts|
      invariant processed == ResolveParts(parts[..i], fs)
    {
      ResolvePartsSnoc(parts, fs, i);
      var found := ResolveOne(parts[i], fs);
      if found.Some? {
        processed := processed + [found.value];
      }
      i := i + 1;
    }
    assert parts[..i] == parts;
  }

  /** One part: cleaned, then taken as a webcam number or looked up. */
  method ResolveOne(part: string, fs: Paths) returns (found: Option<Source>)
    ensures found == ResolvePart(part, fs)
  {
    var p := Clean(part);
    if IsDigits(p) {
      found := Some(Webcam(DigitsValue(p)));
    } else {
      found := Lookup(p, fs);
    }
  }

  /** The text of a webcam index resolves to that webcam. */
  lemma WebcamText(n: nat, fs: Paths)
    ensures ResolvePart(NatToString(n), fs) == Some(Webcam(n))
  {
    var s := NatToString(n);
    StripUnchanged(s, IsSpace);
    StripUnchanged(s, IsQuote);
    StripUnchanged(s, IsDoubleQuote);
    DigitsRoundTrip(n);
  }

  // ---------------- Aggregation ----------------

  /** `f"C{i+1}"`: the camera name commands and zone names use. */
  function CamLabel(i: nat): string {
    "C" + NatToString(i + 1)
  }

  /** Distinct cameras have distinct names. */
  lemma CamLabelInjective(i: nat, j: nat)
    ensures CamLabel(i) == CamLabel(j) ==> i == j
  {
    if CamLabel(i) == CamLabel(j) {
      assert CamLabel(i)[1..] == NatToString(i + 1) && CamLabel(j)[1..] == NatToString(j + 1);
      NatToStringInjective(i + 1, j + 1);
    }
  }

  /** `str(z.id)`: a `null` id prints as `None`. */
  function PyStr(id: ZoneId): string {
    if id.Some? then id.value else "None"
  }

  /** The aggregated copy of one zone entry of camera `i`. */
  function Renamed(i: nat, z: ZoneStat): ZoneItem {
    ZoneItem(Some(CamLabel(i) + ": " + PyStr(z.name)), Some(z.count), z.coords, None)
  }

  function Prefixed(i: nat, zs: seq<ZoneStat>): (r: seq<ZoneItem>)
    ensures |r| == |zs| && forall k :: 0 <= k < |zs| ==> r[k] == Renamed(i, zs[k])
  {
    seq(|zs|, k requires 0 <= k < |zs| => Renamed(i, zs[k]))
  }

  /** The name shown for an aggregated zone is its own name, whatever the camera prefix. */
  lemma RenamedShowsName(i: nat, z: ZoneStat)
    requires ':' !in PyStr(z.name)
    ensures DisplayZone(Renamed(i, z).name.value) == Strip(" " + PyStr(z.name), IsSpace)
  {
    assert Renamed(i, z).name.value == CamLabel(i) + [':'] + (" " + PyStr(z.name));
    DisplayDropsCameraPrefix(CamLabel(i), " " + PyStr(z.name));
  }

  function SumLive(stats: seq<Stats>): nat {
    if stats == [] then 0 else SumLive(stats[..|stats| - 1]) + stats[|stats| - 1].peopleCount
  }

  /** The zone lists by camera, keyed by the camera's position. */
  function CameraZones(stats: seq<Stats>): (r: Dict<string, seq<ZoneItem>>)
    ensures |r| == |stats| && DistinctKeys(r)
    ensures forall i :: 0 <= i < |stats| ==> r[i] == (NatToString(i), Prefixed(i, stats[i].zones))
  {
    var r := seq(|stats|, i requires 0 <= i < |stats| => (NatToString(i), Prefixed(i, stats[i].zones)));
    forall i, j | 0 <= i < j < |r| ensures r[i].0 != r[j].0 {
      NatToStringInjective(i, j);
    }
    r
  }

  /** The aggregation loop: the summed live count and the zone lists by camera. */
  method Collect(stats: seq<Stats>) returns (totalLive: nat, byCam: Dict<string, seq<ZoneItem>>)
    ensures totalLive == SumLive(stats) && byCam == CameraZones(stats)
  {
    totalLive := 0;
    byCam := [];
    var i := 0;
    while i < |stats|
      invariant 0 <= i <= |stats|
      invariant totalLive == SumLive(stats[..i]) && byCam == CameraZones(stats[..i])
    {
      assert stats[..i + 1][..i] == stats[..i];
      totalLive := totalLive + stats[i].peopleCount;
      var camZones := RenameZones(i, stats[i].zones);
      NewCameraKey(stats, i);
      byCam := Put(byCam, NatToString(i), camZones);
      i := i + 1;
    }
    assert stats[..i] == stats;
  }

  /** The zones of camera `i`, copied with their names prefixed. */
  method RenameZones(i: nat, zs: seq<ZoneStat>) returns (camZones: seq<ZoneItem>)
    ensures camZones == Prefixed(i, zs)
  {
    camZones := [];
    var j := 0;
    while j < |zs|
      invariant 0 <= j <= |zs| && camZones == Prefixed(i, zs[..j])
    {
      camZones := camZones + [Renamed(i, zs[j])];
      j := j + 1;
    }
    assert zs[..j] == zs;
  }

  /** Camera `i`'s key is new when it is added, so the dict grows by one entry. */
  lemma NewCameraKey(stats: seq<Stats>, i: nat)
    requires i < |stats|
    ensures Get(CameraZones(stats[..i]), NatToString(i)).None?
    ensures CameraZones(stats[..i]) + [(NatToString(i), Prefixed(i, stats[i].zones))] == CameraZones(stats[..i + 1])
  {
    var d := CameraZones(stats[..i]);
    forall k | 0 <= k < |d| ensures d[k].0 != NatToString(i) {
      NatToStringInjective(k, i);
    }
  }

  /** The running visitor total after an iteration: the largest of the total so far, the
      number of global ids handed out and the live count. */
  function Reported(maxSoFar: int, next: int, totalLive: nat): (r: int)
    ensures r >= maxSoFar && r >= next - 1 && r >= totalLive
    ensures r == maxSoFar || r == next - 1 || r == totalLive
  {
    var current := if next - 1 >= totalLive then next - 1 else totalLive;
    if current > maxSoFar then current else maxSoFar
  }

  /** The total over a run of iterations, each given as (next id, live count). */
  function ReportedRun(start: int, run: seq<(int, nat)>): int {
    if run == [] then start else Reported(ReportedRun(start, run[..|run| - 1]), run[|run| - 1].0, run[|run| - 1].1)
  }

  /** The reported total never decreases and never falls below any iteration's count. */
  lemma {:induction false} ReportedRunBounds(start: int, run: seq<(int, nat)>)
    ensures ReportedRun(start, run) >= start
    ensures forall k :: 0 <= k < |run| ==> ReportedRun(start, run) >= run[k].0 - 1 && ReportedRun(start, run) >= run[k].1
    ensures forall k :: 0 <= k <= |run| ==> ReportedRun(start, run) >= ReportedRun(start, run[..k])
  {
    if run != [] {
      var n := |run| - 1;
      ReportedRunBounds(start, run[..n]);
      assert forall k :: 0 <= k < n ==> run[..n][k] == run[k];
      assert forall k :: 0 <= k <= n ==> run[..n][..k] == run[..k];
      assert run[..|run|] == run;
    }
  }

  // ---------------- Publishing ----------------

  /** Publishing happens when more than this many seconds have passed. */
  const PUBLISH_INTERVAL: real := 0.5

  /** Size and rate a camera reports. */
  datatype CamInfo = CamInfo(imW: int, imH: int, fps: int)

  /** `str(src)` */
  function SourceText(s: Source): string {
    match s
    case Webcam(n) => NatToString(n)
    case File(p) => p
  }

  function StatusEntry(src: Source, c: CamInfo): Value {
    Object([("source", Str(SourceText(src))), ("resolution", Str(IntToString(c.imW) + "x" + IntToString(c.imH))),
            ("fps", Int(c.fps))])
  }

  /** The camera status as written: one entry per configured source, reading the system at
      the same position in the list of openSources cameras; `None` is the `IndexError` raised
      when some source did not open. */
  function CameraStatusAsWritten(sources: seq<Source>, infos: seq<CamInfo>): (r: Option<Dict<string, Value>>)
    ensures r.None? <==> |infos| < |sources|
  {
    if |infos| < |sources| then None
    else Some(seq(|sources|, i requires 0 <= i < |sources| => (NatToString(i), StatusEntry(sources[i], infos[i]))))
  }

  /** With one source that did not open, every publishing attempt raises, so the live data is
      never published and the commands are never fetched. */
  lemma CameraStatusAsWrittenFails()
    ensures CameraStatusAsWritten([Webcam(0), Webcam(1)], [CamInfo(640, 360, 0)]).None?
  {
  }

  /** The camera status of the openSources cameras, each with its own source, keyed like the zone
      lists. */
  function CameraStatus(openSources: seq<Source>, infos: seq<CamInfo>): (r: Dict<string, Value>)
    requires |openSources| == |infos|
    ensures |r| == |openSources| && DistinctKeys(r)
    ensures forall i :: 0 <= i < |openSources| ==> r[i] == (NatToString(i), StatusEntry(openSources[i], infos[i]))
  {
    var r := seq(|openSources|, i requires 0 <= i < |openSources| => (NatToString(i), StatusEntry(openSources[i], infos[i])));
    forall i, j | 0 <= i < j < |r| ensures r[i].0 != r[j].0 {
      NatToStringInjective(i, j);
    }
    r
  }

  /** The camera entries and the zone lists of a payload are keyed alike. */
  lemma CameraKeysMatchZoneKeys(openSources: seq<Source>, infos: seq<CamInfo>, stats: seq<Stats>)
    requires |openSources| == |infos| == |stats|
    ensures Keys(CameraStatus(openSources, infos)) == Keys(CameraZones(stats))
  {
  }

  /** The payload published each time. */
  function Payload(totalLive: nat, reported: int, byCam: Dict<string, seq<ZoneItem>>, cams: Dict<string, Value>): (r: Dict<string, Value>)
    ensures DistinctKeys(r)
    ensures Get(r, "people_count") == Some(Int(totalLive))
  {
    [("live_count", Int(totalLive)), ("people_count", Int(totalLive)), ("total_visitors", Int(reported)),
     ("zones", ZonesByCamera(byCam)), ("cameras", Object(cams))]
  }

  /** The payload has five keys: the live count again under `live_count`, the reported total,
      the zone lists by camera and the camera status, each under its own key. */
  lemma PayloadFields(totalLive: nat, reported: int, byCam: Dict<string, seq<ZoneItem>>, cams: Dict<string, Value>)
    ensures var r := Payload(totalLive, reported, byCam, cams);
      && |r| == 5 && Get(r, "live_count") == Some(Int(totalLive))
      && Get(r, "total_visitors") == Some(Int(reported))
      && Get(r, "zones") == Some(ZonesByCamera(byCam))
      && Get(r, "cameras") == Some(Object(cams))
  {
    var r := Payload(totalLive, reported, byCam, cams);
    GetDistinct(r, 2);
    GetDistinct(r, 3);
    GetDistinct(r, 4);
  }

  // ---------------- Commands ----------------

  /** A zone the camera is counting: its id, rectangle and bookkeeping. */
  datatype LiveZone = LiveZone(id: ZoneId, coords: seq<int>, state: ZoneState)

  /** What the commands act on for one camera: its zone manager's list and file, and the
      zones its counting system holds. */
  datatype Camera = Camera(entries: seq<ZoneEntry>, file: ZoneFile, live: seq<LiveZone>)

  /** Fresh counting zones for a zone list. */
  function Converted(es: seq<ZoneEntry>): (r: seq<LiveZone>)
    ensures |r| == |es| && forall k :: 0 <= k < |es| ==> r[k] == LiveZone(es[k].id, es[k].coords, Counting.Initial)
  {
    seq(|es|, k requires 0 <= k < |es| => LiveZone(es[k].id, es[k].coords, Counting.Initial))
  }

  /** The zone list an `update_zones` command installs; the threshold defaults to 10. */
  function NewEntries(defs: seq<ZoneDef>): (r: seq<ZoneEntry>)
    ensures |r| == |defs|
    ensures forall k :: 0 <= k < |defs| ==>
      r[k] == ZoneEntry(defs[k].id, defs[k].coords, defs[k].threshold.GetOr(DEFAULT_THRESHOLD))
  {
    seq(|defs|, k requires 0 <= k < |defs| => ZoneEntry(defs[k].id, defs[k].coords, defs[k].threshold.GetOr(DEFAULT_THRESHOLD)))
  }

  /** Whether an `update_zones` for `target` applies to camera `i`: a missing or empty target
      means every camera. */
  predicate Targets(target: Option<string>, i: nat) {
    target.None? || target.value == "" || target.value == CamLabel(i)
  }

  /** What one command does to camera `i`. */
  function CamStep(c: Camera, i: nat, cmd: Command): Camera {
    if cmd.action == Some("save_zones") then c.(file := Entries(Saved(c.entries)))
    else if cmd.action == Some("clear_zones") then Camera([], Entries(Saved([])), [])
    else if cmd.action == Some("update_zones") && Targets(cmd.camId, i) then
      var es := NewEntries(cmd.zones.GetOr([]));
      Camera(es, Entries(Saved(es)), Converted(es))
    else c
  }

  /** Commands applied in list order. */
  function CamAfter(c: Camera, i: nat, cmds: seq<Command>): Camera {
    if cmds == [] then c else CamStep(CamAfter(c, i, cmds[..|cmds| - 1]), i, cmds[|cmds| - 1])
  }

  /** Applying a list in two halves is applying it whole. */
  lemma {:induction false} CamAfterConcat(c: Camera, i: nat, first: seq<Command>, rest: seq<Command>)
    ensures CamAfter(c, i, first + rest) == CamAfter(CamAfter(c, i, first), i, rest)
  {
    if rest != [] {
      var n := |rest| - 1;
      CamAfterConcat(c, i, first, rest[..n]);
      assert (first + rest)[..|first + rest| - 1] == first + rest[..n];
      assert (first + rest)[|first + rest| - 1] == rest[n];
    } else {
      assert first + rest == first;
    }
  }

  /** `clear_zones` empties every camera, whichever camera it names. */
  lemma ClearEmptiesEveryCamera(c: Camera, i: nat, cmd: Command)
    requires cmd.action == Some("clear_zones")
    ensures CamStep(c, i, cmd).entries == [] && CamStep(c, i, cmd).live == []
    ensures LoadFile(CamStep(c, i, cmd).file) == ([], false)
  {
    SaveThenLoad([]);
  }

  /** An `update_zones` naming camera `j` leaves every other camera as it was, and gives
      camera `j` the new zones with fresh counts. */
  lemma UpdateTargetsOneCamera(c: Camera, i: nat, j: nat, cmd: Command)
    requires cmd.action == Some("update_zones") && cmd.camId == Some(CamLabel(j))
    ensures i != j ==> CamStep(c, i, cmd) == c
    ensures i == j ==> CamStep(c, i, cmd).entries == NewEntries(cmd.zones.GetOr([]))
    ensures i == j ==> CamStep(c, i, cmd).live == Converted(NewEntries(cmd.zones.GetOr([])))
  {
    CamLabelInjective(i, j);
  }

  /** The camera counts exactly the zones of its list, with the same ids and rectangles. */
  ghost predicate LiveMatches(c: Camera) {
    |c.live| == |c.entries|
    && forall k :: 0 <= k < |c.live| ==> c.live[k].id == c.entries[k].id && c.live[k].coords == c.entries[k].coords
  }

  /** The camera's file loads back to its list. */
  ghost predicate Synced(c: Camera) {
    LoadFile(c.file) == (c.entries, false)
  }

  /** Commands keep the counted zones equal to the zone list, and once a camera's file has
      been written it keeps loading back to the list. */
  lemma {:induction false} CommandsKeepCameraConsistent(c: Camera, i: nat, cmds: seq<Command>)
    ensures LiveMatches(c) ==> LiveMatches(CamAfter(c, i, cmds))
    ensures Synced(c) ==> Synced(CamAfter(c, i, cmds))
  {
    if cmds != [] {
      var prior := CamAfter(c, i, cmds[..|cmds| - 1]);
      CommandsKeepCameraConsistent(c, i, cmds[..|cmds| - 1]);
      StepConsistent(prior, i, cmds[|cmds| - 1]);
    }
  }

  /** One command: `save_zones`, `clear_zones` and an applying `update_zones` leave the
      camera synced; no command breaks the match of counted zones and list. */
  lemma StepConsistent(c: Camera, i: nat, cmd: Command)
    ensures LiveMatches(c) ==> LiveMatches(CamStep(c, i, cmd))
    ensures Synced(c) ==> Synced(CamStep(c, i, cmd))
    ensures cmd.action in {Some("save_zones"), Some("clear_zones")} ==> Synced(CamStep(c, i, cmd))
    ensures cmd.action == Some("update_zones") && Targets(cmd.camId, i) ==> Synced(CamStep(c, i, cmd)) && LiveMatches(CamStep(c, i, cmd))
  {
    SaveThenLoad(c.entries);
    SaveThenLoad([]);
    SaveThenLoad(NewEntries(cmd.zones.GetOr([])));
  }

  /** The zones a counting system holds, as values. */
  function LiveOf(zs: seq<Zone>): (r: seq<LiveZone>)
    reads zs
    ensures |r| == |zs| && forall k :: 0 <= k < |zs| ==> r[k] == LiveZone(zs[k].id, zs[k].coords, zs[k].State())
  {
    seq(|zs|, k requires 0 <= k < |zs| reads zs => LiveZone(zs[k].id, zs[k].coords, zs[k].State()))
  }

  function CameraOf(m: ZoneManager, s: PeopleCountingSystem): Camera
    reads m, s, s.zones
  {
    Camera(m.zones, m.file, LiveOf(s.zones))
  }

  /** The latest statistics of every camera, as the aggregation step reads them. */
  function Latest(systems: seq<PeopleCountingSystem>): (r: seq<Stats>)
    requires forall i :: 0 <= i < |systems| ==> systems[i].latestStats.Some?
    reads systems
    ensures |r| == |systems| && forall i :: 0 <= i < |systems| ==> Some(r[i]) == systems[i].latestStats
  {
    seq(|systems|, i requires 0 <= i < |systems| && systems[i].latestStats.Some? reads systems => systems[i].latestStats.value)
  }

  // ---------------- The loop's state ----------------

  /** The state `run_detection_headless` keeps across iterations: the openSources cameras (each
      with its source, counting system and zone manager), the shared gallery and state hub,
      the running visitor total and the time of the last publish. */
  class DetectionLoop {
    const openSources: seq<Source>
    const systems: seq<PeopleCountingSystem>
    const managers: seq<ZoneManager>
    const gallery: ReId.ReIDGallery
    const hub: SystemState
    var maxReported: int
    var lastUpdate: real

    ghost predicate Valid() {
      && |openSources| == |systems| == |managers|
      && (forall i, j :: 0 <= i < j < |systems| ==> systems[i] != systems[j])
      && (forall i, j :: 0 <= i < j < |managers| ==> managers[i] != managers[j])
    }

    /** The loop starts with no total reported and its publish timer at `now`. */
    constructor (openSources: seq<Source>, systems: seq<PeopleCountingSystem>, managers: seq<ZoneManager>,
                 gallery: ReId.ReIDGallery, hub: SystemState, now: real)
      ensures this.openSources == openSources && this.systems == systems && this.managers == managers
      ensures this.gallery == gallery && this.hub == hub
      ensures maxReported == 0 && lastUpdate == now
    {
      this.openSources := openSources;
      this.systems := systems;
      this.managers := managers;
      this.gallery := gallery;
      this.hub := hub;
      maxReported := 0;
      lastUpdate := now;
    }

    /** The stop check at the top of each iteration: the caller's event or the hub's flag. */
    predicate StopRequested(directStop: Option<bool>)
      reads hub
    {
      directStop == Some(true) || hub.stopSet
    }

    /** The running-max update of the visitor total. */
    method Report(totalLive: nat)
      modifies this`maxReported
      ensures maxReported == Reported(old(maxReported), gallery.nextGlobalId, totalLive)
    {
      var maxGlobalId := gallery.nextGlobalId - 1;
      var currentTotal := if maxGlobalId >= totalLive then maxGlobalId else totalLive;
      if currentTotal > maxReported {
        maxReported := currentTotal;
      }
    }

    function Infos(): (r: seq<CamInfo>)
      reads systems
      ensures |r| == |systems| && forall i :: 0 <= i < |systems| ==> r[i] == CamInfo(systems[i].imW, systems[i].imH, systems[i].fps)
    {
      seq(|systems|, i requires 0 <= i < |systems| reads systems => CamInfo(systems[i].imW, systems[i].imH, systems[i].fps))
    }

    /** The throttled publish: when more than half a second has passed, the payload goes to
        the hub and the queued commands are fetched; otherwise nothing happens. */
    method Publish(now: real, nowStr: string, totalLive: nat, byCam: Dict<string, seq<ZoneItem>>)
      returns (published: bool, cmds: seq<Command>)
      requires Valid() && hub.Valid()
      modifies this`lastUpdate, hub
      ensures hub.Valid()
      ensures published <==> now - old(lastUpdate) > PUBLISH_INTERVAL
      ensures !published ==> lastUpdate == old(lastUpdate) && hub.Snapshot() == old(hub.Snapshot()) && cmds == []
      ensures published ==> lastUpdate == now && cmds == old(hub.commandQueue)
      ensures published ==>
        hub.Snapshot() == Updated(old(hub.Snapshot()), Payload(totalLive, maxReported, byCam, CameraStatus(openSources, old(Infos()))), nowStr).(commands := [])
    {
      published := now - lastUpdate > PUBLISH_INTERVAL;
      cmds := [];
      if published {
        var payload := Payload(totalLive, maxReported, byCam, CameraStatus(openSources, Infos()));
        ghost var s0 := hub.Snapshot();
        hub.Update(payload, nowStr);
        ghost var s1 := hub.Snapshot();
        cmds := hub.GetAndClearCommands();
        assert hub.Snapshot() == s1.(commands := []);
        lastUpdate := now;
      }
    }

    /** The camera at position `i`, as values. */
    function CameraAt(i: nat): Camera
      requires Valid() && i < |systems|
      reads managers[i], systems[i], systems[i].zones
    {
      CameraOf(managers[i], systems[i])
    }

    /** The commands fetched by a publish, applied in order; each command acts on every
        camera independently. */
    method ApplyCommands(cmds: seq<Command>)
      requires Valid()
      modifies managers, systems
      ensures forall i :: 0 <= i < |systems| ==> CameraAt(i) == CamAfter(old(CameraAt(i)), i, cmds)
      ensures unchanged(hub)
    {
      var n := 0;
      while n < |cmds|
        invariant 0 <= n <= |cmds|
        invariant forall i :: 0 <= i < |systems| ==> CameraAt(i) == CamAfter(old(CameraAt(i)), i, cmds[..n])
      {
        assert cmds[..n + 1][..n] == cmds[..n];
        ApplyCommand(cmds[n]);
        n := n + 1;
      }
      assert cmds[..n] == cmds;
    }

    /** One command, camera by camera. */
    method ApplyCommand(cmd: Command)
      requires Valid()
      modifies managers, systems
      ensures forall i :: 0 <= i < |systems| ==> CameraAt(i) == CamStep(old(CameraAt(i)), i, cmd)
    {
      var i := 0;
      while i < |systems|
        invariant 0 <= i <= |systems|
        invariant forall j :: 0 <= j < i ==> CameraAt(j) == CamStep(old(CameraAt(j)), j, cmd)
        invariant forall j :: i <= j < |systems| ==> CameraAt(j) == old(CameraAt(j))
      {
        ApplyToCamera(i, cmd);
        i := i + 1;
      }
    }

    /** The command on camera `i`; the other cameras are untouched. */
    method ApplyToCamera(i: nat, cmd: Command)
      requires Valid() && i < |systems|
      modifies managers[i], systems[i]
      ensures CameraAt(i) == CamStep(old(CameraAt(i)), i, cmd)
      ensures forall j :: 0 <= j < |systems| && j != i ==> CameraAt(j) == old(CameraAt(j))
    {
      if cmd.action == Some("save_zones") {
        SaveCamera(i);
      } else if cmd.action == Some("clear_zones") {
        ClearCamera(i);
      } else if cmd.action == Some("update_zones") {
        if cmd.camId.None? || cmd.camId.value == "" || cmd.camId.value == CamLabel(i) {
          UpdateCamera(i, cmd.zones.GetOr([]));
        }
      }
    }

    method SaveCamera(i: nat)
      requires Valid() && i < |systems|
      modifies managers[i]
      ensures CameraAt(i) == old(CameraAt(i)).(file := Entries(Saved(old(CameraAt(i)).entries)))
    {
      managers[i].SaveZones();
    }

    method ClearCamera(i: nat)
      requires Valid() && i < |systems|
      modifies managers[i], systems[i]
      ensures CameraAt(i) == Camera([], Entries(Saved([])), [])
    {
      managers[i].zones := [];
      systems[i].zones := [];
      managers[i].SaveZones();
    }

    /** The list is rebuilt entry by entry, saved, and converted into fresh counting zones. */
    method UpdateCamera(i: nat, defs: seq<ZoneDef>)
      requires Valid() && i < |systems|
      modifies managers[i], systems[i]
      ensures CameraAt(i) == Camera(NewEntries(defs), Entries(Saved(NewEntries(defs))), Converted(NewEntries(defs)))
    {
      var es := [];
      var k := 0;
      while k < |defs|
        invariant 0 <= k <= |defs| && es == NewEntries(defs[..k])
      {
        es := es + [ZoneEntry(defs[k].id, defs[k].coords, defs[k].threshold.GetOr(DEFAULT_THRESHOLD))];
        k := k + 1;
      }
      assert defs[..k] == defs;
      managers[i].zones := es;
      managers[i].SaveZones();
      var objs := PeopleCountingSystem.ConvertZones(es);
      systems[i].zones := objs;
      assert LiveOf(objs) == Converted(es);
    }

    /** One pass of the loop after the cameras' frames are processed (so every camera has
        its latest statistics): stop if asked, otherwise aggregate those statistics, report,
        publish and apply the fetched commands. */
    method Iterate(directStop: Option<bool>, now: real, nowStr: string)
      returns (stopped: bool, published: bool)
      requires Valid() && hub.Valid()
      requires forall i :: 0 <= i < |systems| ==> systems[i].latestStats.Some?
      modifies this, hub, managers, systems
      ensures hub.Valid()
      ensures stopped <==> old(StopRequested(directStop))
      ensures stopped ==> !published && maxReported == old(maxReported) && lastUpdate == old(lastUpdate)
      ensures stopped ==> hub.Snapshot() == old(hub.Snapshot())
      ensures stopped ==> forall i :: 0 <= i < |systems| ==> CameraAt(i) == old(CameraAt(i))
      ensures !stopped ==> maxReported == Reported(old(maxReported), gallery.nextGlobalId, SumLive(old(Latest(systems))))
      ensures !stopped && !published ==> forall i :: 0 <= i < |systems| ==> CameraAt(i) == old(CameraAt(i))
      ensures published ==> forall i :: 0 <= i < |systems| ==> CameraAt(i) == CamAfter(old(CameraAt(i)), i, old(hub.commandQueue))
    {
      stopped := StopRequested(directStop);
      published := false;
      if stopped {
        return;
      }
      var totalLive, byCam := Collect(Latest(systems));
      Report(totalLive);
      published := PublishAndApply(now, nowStr, totalLive, byCam);
    }

    /** The publish and, when it happened, the fetched commands applied to the cameras. */
    method PublishAndApply(now: real, nowStr: string, totalLive: nat, byCam: Dict<string, seq<ZoneItem>>)
      returns (published: bool)
      requires Valid() && hub.Valid()
      modifies this`lastUpdate, hub, managers, systems
      ensures hub.Valid()
      ensures !published ==> forall i :: 0 <= i < |systems| ==> CameraAt(i) == old(CameraAt(i))
      ensures published ==> forall i :: 0 <= i < |systems| ==> CameraAt(i) == CamAfter(old(CameraAt(i)), i, old(hub.commandQueue))
    {
      var cmds;
      published, cmds := Publish(now, nowStr, totalLive, byCam);
      if published {
        ApplyCommands(cmds);
      }
    }
  }
}
