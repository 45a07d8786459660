/** `detection.py`: one camera's counting system. Each frame, the confirmed tracks get a
    global id from the shared gallery and their centroid is fed to every zone of the
    camera; then the frame's statistics are recorded. Detection and tracking are outside the
    model: a frame arrives as the tracker's list of tracks. */
module Detection {
  import opened Common
  import opened Strings
  import opened Counting
  import opened ReId
  import opened Zones

  /** The zone colours `_convert_zones` cycles through. */
  const ZONE_COLORS: seq<Color> :=
    [Color(0, 255, 0), Color(255, 0, 0), Color(0, 0, 255), Color(0, 255, 255), Color(255, 0, 255)]

  /** One track reported by the tracker for the current frame: its id, whether it is
      confirmed, its box, frames since its last detection, and the appearance vector the
      extractor gets from the box's crop (`None` when extraction fails). */
  datatype Track = Track(trackId: nat, confirmed: bool, box: Rect, timeSinceUpdate: int,
                         features: Option<Feature>)

  /** A zone's entry in the frame statistics. */
  datatype ZoneStat = ZoneStat(name: ZoneId, count: nat, coords: seq<int>)

  /** `latest_stats` */
  datatype Stats = Stats(liveCount: nat, peopleCount: nat, totalVisitors: int, zones: seq<ZoneStat>)

  // ---------------- The per-frame rules, on values ----------------

  /** Every zone sees the observation of `gid` at `c`. */
  function FeedAll(zs: seq<ZoneState>, boxes: seq<Rect>, gid: int, c: Point): (r: seq<ZoneState>)
    requires |boxes| == |zs|
    ensures |r| == |zs|
    ensures forall k :: 0 <= k < |zs| ==> r[k] == Entry(zs[k], boxes[k], gid, c)
  {
    seq(|zs|, k requires 0 <= k < |zs| => Entry(zs[k], boxes[k], gid, c))
  }

  /** The position of the zone whose id labels a track at `c`: the last zone containing
      `c`, if any. */
  function LastInside(boxes: seq<Rect>, c: Point): (r: Option<nat>)
    ensures r.None? ==> forall k :: 0 <= k < |boxes| ==> !Inside(c, boxes[k])
    ensures r.Some? ==> r.value < |boxes| && Inside(c, boxes[r.value])
    ensures r.Some? ==> forall k :: r.value < k < |boxes| ==> !Inside(c, boxes[k])
  {
    if boxes == [] then None
    else if Inside(c, boxes[|boxes| - 1]) then Some(|boxes| - 1)
    else LastInside(boxes[..|boxes| - 1], c)
  }

  /** The id of that zone (itself possibly `null`), or none when no zone contains `c`. */
  function CurrentZone(boxes: seq<Rect>, ids: seq<ZoneId>, c: Point): Option<ZoneId>
    requires |ids| == |boxes|
  {
    var k := LastInside(boxes, c);
    if k.Some? then Some(ids[k.value]) else None
  }

  /** Looking at one more zone: it labels the track when it contains `c`; otherwise the
      label found so far stays. */
  lemma CurrentZoneStep(boxes: seq<Rect>, ids: seq<ZoneId>, c: Point, j: nat)
    requires |ids| == |boxes| && j < |boxes|
    ensures CurrentZone(boxes[..j + 1], ids[..j + 1], c) ==
      if Inside(c, boxes[j]) then Some(ids[j]) else CurrentZone(boxes[..j], ids[..j], c)
  {
    assert boxes[..j + 1][..j] == boxes[..j];
    var k := LastInside(boxes[..j], c);
    assert k.Some? ==> ids[..j + 1][k.value] == ids[..j][k.value];
  }

  /** The zone name shown next to a track: the text after the last `':'`, stripped. */
  function DisplayZone(name: string): string {
    var parts := Split(name, ':');
    Strip(parts[|parts| - 1], IsSpace)
  }

  /** The text after the last separator of `prefix + [sep] + rest` is the text of `rest` when
      `rest` has no separator: `"C1: Entrance"` shows as `"Entrance"`. */
  lemma DisplayDropsCameraPrefix(prefix: string, rest: string)
    requires ':' !in rest
    ensures DisplayZone(prefix + [':'] + rest) == Strip(rest, IsSpace)
  {
    SplitLastPiece(prefix, ':', rest);
  }

  /** Python truthiness of a zone id: neither `null` nor the empty string. */
  predicate Named(id: ZoneId) {
    id.Some? && id.value != ""
  }

  /** The text drawn above a track. */
  function Label(gid: int, current: Option<ZoneId>): string {
    var base := "ID: " + IntToString(gid);
    if current.Some? && Named(current.value) then base + " | " + DisplayZone(current.value.value) else base
  }

  /** The zones' bookkeeping together with the shared gallery. */
  datatype Scene = Scene(zones: seq<ZoneState>, gallery: GalleryState)

  /** What one track of a frame does: an unconfirmed track nothing; a confirmed one gets its
      global id, every zone sees that id at the box's centroid, and it gets a label. */
  function TrackStep(sc: Scene, boxes: seq<Rect>, ids: seq<ZoneId>, t: Track, now: real, m: Metric,
                     confirm: nat): (Scene, Option<string>)
    requires |boxes| == |sc.zones| == |ids|
  {
    if !t.confirmed then (sc, None)
    else
      var (g, gid) := GetGlobal(sc.gallery, t.trackId, t.features, now, m, confirm);
      var c := Centroid(t.box.x1, t.box.y1, t.box.x2, t.box.y2);
      (Scene(FeedAll(sc.zones, boxes, gid, c), g), Some(Label(gid, CurrentZone(boxes, ids, c))))
  }

  /** The tracks of a frame, in order; the labels of the confirmed ones. */
  function TrackSteps(sc: Scene, boxes: seq<Rect>, ids: seq<ZoneId>, ts: seq<Track>, now: real,
                      m: Metric, confirm: nat): (r: (Scene, seq<string>))
    requires |boxes| == |sc.zones| == |ids|
    ensures |r.0.zones| == |sc.zones|
  {
    if ts == [] then (sc, [])
    else
      var prior := TrackSteps(sc, boxes, ids, ts[..|ts| - 1], now, m, confirm);
      var step := TrackStep(prior.0, boxes, ids, ts[|ts| - 1], now, m, confirm);
      (step.0, prior.1 + (if step.1.Some? then [step.1.value] else []))
  }

  /** One more track: the frame so far, then that track's step. */
  lemma TrackStepsSnoc(sc: Scene, boxes: seq<Rect>, ids: seq<ZoneId>, ts: seq<Track>, i: nat,
                       now: real, m: Metric, confirm: nat)
    requires |boxes| == |sc.zones| == |ids| && i < |ts|
    ensures var prior := TrackSteps(sc, boxes, ids, ts[..i], now, m, confirm);
      var step := TrackStep(prior.0, boxes, ids, ts[i], now, m, confirm);
      TrackSteps(sc, boxes, ids, ts[..i + 1], now, m, confirm) ==
        (step.0, prior.1 + (if step.1.Some? then [step.1.value] else []))
  {
    assert ts[..i + 1][..i] == ts[..i];
  }

  function Confirmed(ts: seq<Track>): (r: seq<Track>)
    ensures forall k :: 0 <= k < |r| ==> r[k].confirmed
  {
    if ts == [] then []
    else Confirmed(ts[..|ts| - 1]) + (if ts[|ts| - 1].confirmed then [ts[|ts| - 1]] else [])
  }

  /** Unconfirmed tracks are invisible: dropping them changes neither the zones, nor the
      gallery, nor the labels. */
  lemma {:induction false} UnconfirmedIgnored(sc: Scene, boxes: seq<Rect>, ids: seq<ZoneId>, ts: seq<Track>,
                                              now: real, m: Metric, confirm: nat)
    requires |boxes| == |sc.zones| == |ids|
    ensures TrackSteps(sc, boxes, ids, ts, now, m, confirm) == TrackSteps(sc, boxes, ids, Confirmed(ts), now, m, confirm)
  {
    if ts != [] {
      var init, t := ts[..|ts| - 1], ts[|ts| - 1];
      UnconfirmedIgnored(sc, boxes, ids, init, now, m, confirm);
      var prior := TrackSteps(sc, boxes, ids, init, now, m, confirm);
      var c := Confirmed(ts);
      if t.confirmed {
        assert c == Confirmed(init) + [t];
        assert c[..|c| - 1] == Confirmed(init) && c[|c| - 1] == t;
      } else {
        assert c == Confirmed(init);
        assert TrackStep(prior.0, boxes, ids, t, now, m, confirm) == (prior.0, None);
        assert prior.1 + [] == prior.1;
      }
    }
  }

  /** Every confirmed track is passed to the gallery, in track order, with its own id and
      features; a frame of confirmed tracks leaves the gallery where `get_global_id` on each
      in turn leaves it. */
  function GalleryAfter(g: GalleryState, ts: seq<Track>, now: real, m: Metric, confirm: nat): GalleryState {
    if ts == [] then g
    else
      var prior := GalleryAfter(g, ts[..|ts| - 1], now, m, confirm);
      if ts[|ts| - 1].confirmed then GetGlobal(prior, ts[|ts| - 1].trackId, ts[|ts| - 1].features, now, m, confirm).0
      else prior
  }

  /** The gallery evolves independently of the zones. */
  lemma {:induction false} TrackStepsGallery(sc: Scene, boxes: seq<Rect>, ids: seq<ZoneId>, ts: seq<Track>,
                                             now: real, m: Metric, confirm: nat)
    requires |boxes| == |sc.zones| == |ids|
    ensures TrackSteps(sc, boxes, ids, ts, now, m, confirm).0.gallery == GalleryAfter(sc.gallery, ts, now, m, confirm)
  {
    if ts != [] {
      TrackStepsGallery(sc, boxes, ids, ts[..|ts| - 1], now, m, confirm);
    }
  }

  /** A frame keeps the gallery invariant and the zones' counting invariant. */
  lemma {:induction false} TrackStepsKeepInvariants(sc: Scene, boxes: seq<Rect>, ids: seq<ZoneId>, ts: seq<Track>,
                                                    now: real, m: Metric, confirm: nat)
    requires |boxes| == |sc.zones| == |ids|
    requires Inv(sc.gallery, confirm) && forall k :: 0 <= k < |sc.zones| ==> Consistent(sc.zones[k])
    ensures var r := TrackSteps(sc, boxes, ids, ts, now, m, confirm).0;
      Inv(r.gallery, confirm) && forall k :: 0 <= k < |r.zones| ==> Consistent(r.zones[k])
  {
    if ts != [] {
      var prior := TrackSteps(sc, boxes, ids, ts[..|ts| - 1], now, m, confirm).0;
      TrackStepsKeepInvariants(sc, boxes, ids, ts[..|ts| - 1], now, m, confirm);
      var t := ts[|ts| - 1];
      if t.confirmed {
        GetGlobalKeepsInv(prior.gallery, t.trackId, t.features, now, m, confirm);
        var gid := GetGlobal(prior.gallery, t.trackId, t.features, now, m, confirm).1;
        FeedAllKeepsConsistent(prior.zones, boxes, gid, Centroid(t.box.x1, t.box.y1, t.box.x2, t.box.y2));
      }
    }
  }

  /** Every zone counting an observation keeps its counting invariant. */
  lemma FeedAllKeepsConsistent(zs: seq<ZoneState>, boxes: seq<Rect>, gid: int, c: Point)
    requires |boxes| == |zs| && forall k :: 0 <= k < |zs| ==> Consistent(zs[k])
    ensures var r := FeedAll(zs, boxes, gid, c); forall k :: 0 <= k < |r| ==> Consistent(r[k])
  {
    forall k | 0 <= k < |zs|
      ensures Consistent(FeedAll(zs, boxes, gid, c)[k])
    {
      EntryFacts(zs[k], boxes[k], gid, c);
    }
  }

  /** The live-count rule: confirmed tracks updated in this frame or the one before. */
  predicate Live(t: Track) {
    t.confirmed && t.timeSinceUpdate <= 1
  }

  function CountLive(ts: seq<Track>): (n: nat)
    ensures n <= |ts|
  {
    if ts == [] then 0 else CountLive(ts[..|ts| - 1]) + (if Live(ts[|ts| - 1]) then 1 else 0)
  }

  /** The live count is the number of live tracks, so it never exceeds the number of
      confirmed tracks and ignores tracks that are not live. */
  lemma {:induction false} LiveCountBounds(ts: seq<Track>)
    ensures CountLive(ts) <= |Confirmed(ts)|
    ensures (forall k :: 0 <= k < |ts| ==> Live(ts[k])) ==> CountLive(ts) == |ts|
    ensures (forall k :: 0 <= k < |ts| ==> !Live(ts[k])) ==> CountLive(ts) == 0
  {
    if ts != [] {
      var init := ts[..|ts| - 1];
      LiveCountBounds(init);
      assert forall k :: 0 <= k < |init| ==> init[k] == ts[k];
    }
  }

  /** The frame statistics: the live count twice, the visitors as the number of ids handed
      out, and each zone's name, occupancy and coordinates in zone order. */
  function FrameStats(live: nat, next: int, zs: seq<ZoneState>, ids: seq<ZoneId>, coords: seq<seq<int>>): (r: Stats)
    requires |zs| == |ids| == |coords|
    ensures r.liveCount == r.peopleCount == live && r.totalVisitors == next - 1 && |r.zones| == |zs|
    ensures forall k :: 0 <= k < |zs| ==> r.zones[k] == ZoneStat(ids[k], Occupancy(zs[k]), coords[k])
  {
    Stats(live, live, next - 1, seq(|zs|, k requires 0 <= k < |zs| => ZoneStat(ids[k], Occupancy(zs[k]), coords[k])))
  }

  // ---------------- The objects ----------------

  function StatesOf(zs: seq<Zone>): (r: seq<ZoneState>)
    reads zs
    ensures |r| == |zs| && forall k :: 0 <= k < |zs| ==> r[k] == zs[k].State()
  {
    seq(|zs|, k requires 0 <= k < |zs| reads zs => zs[k].State())
  }

  function IdsOf(zs: seq<Zone>): (r: seq<ZoneId>)
    ensures |r| == |zs| && forall k :: 0 <= k < |zs| ==> r[k] == zs[k].id
  {
    seq(|zs|, k requires 0 <= k < |zs| => zs[k].id)
  }

  function CoordsOf(zs: seq<Zone>): (r: seq<seq<int>>)
    ensures |r| == |zs| && forall k :: 0 <= k < |zs| ==> r[k] == zs[k].coords
  {
    seq(|zs|, k requires 0 <= k < |zs| => zs[k].coords)
  }

  function BoxesOf(zs: seq<Zone>): (r: seq<Rect>)
    requires forall k :: 0 <= k < |zs| ==> |zs[k].coords| == 4
    ensures |r| == |zs| && forall k :: 0 <= k < |zs| ==> r[k] == Box(zs[k].coords)
  {
    seq(|zs|, k requires 0 <= k < |zs| => Box(zs[k].coords))
  }

  /** `PeopleCountingSystem`. The gallery object may be shared with other cameras. */
  class PeopleCountingSystem {
    var zones: seq<Zone>
    const reidGallery: ReIDGallery
    var latestStats: Option<Stats>
    var imH: int
    var imW: int
    var fps: int

    function ZoneStates(): (r: seq<ZoneState>)
      reads this`zones, zones
      ensures |r| == |zones| && forall k :: 0 <= k < |zones| ==> r[k] == zones[k].State()
    {
      StatesOf(zones)
    }

    function Ids(): (r: seq<ZoneId>)
      reads this`zones
      ensures |r| == |zones| && forall k :: 0 <= k < |zones| ==> r[k] == zones[k].id
    {
      IdsOf(zones)
    }

    function CoordLists(): (r: seq<seq<int>>)
      reads this`zones
      ensures |r| == |zones| && forall k :: 0 <= k < |zones| ==> r[k] == zones[k].coords
    {
      CoordsOf(zones)
    }

    /** Every zone has a four-number rectangle, keeps the counting invariant and is a
        different object. */
    ghost predicate ZonesOk()
      reads this`zones, zones
    {
      && (forall k :: 0 <= k < |zones| ==> zones[k].Valid() && |zones[k].coords| == 4)
      && (forall j, k :: 0 <= j < k < |zones| ==> zones[j] != zones[k])
    }

    function Boxes(): (r: seq<Rect>)
      reads this`zones
      requires forall k :: 0 <= k < |zones| ==> |zones[k].coords| == 4
      ensures |r| == |zones| && forall k :: 0 <= k < |zones| ==> r[k] == Box(zones[k].coords)
    {
      BoxesOf(zones)
    }

    ghost predicate Valid()
      reads this, zones, reidGallery
    {
      ZonesOk() && reidGallery.Valid()
    }

    /** The detector, tracker and heat map are not modelled; the zones come from the list
        the default zone manager holds after loading. */
    constructor (gallery: ReIDGallery, loaded: seq<ZoneEntry>)
      ensures reidGallery == gallery && latestStats.None? && fps == 0
      ensures |zones| == |loaded| && forall k :: 0 <= k < |loaded| ==>
        && fresh(zones[k]) && zones[k].State() == Counting.Initial
        && zones[k].id == loaded[k].id && zones[k].coords == loaded[k].coords
      ensures forall k :: 0 <= k < |loaded| ==> zones[k].Valid()
      ensures forall j, k :: 0 <= j < k < |zones| ==> zones[j] != zones[k]
    {
      reidGallery := gallery;
      var objs := ConvertZones(loaded);
      zones := objs;
      latestStats := None;
      fps := 0;
    }

    /** `_convert_zones(zone_list)`: one new zone per entry, in order, with the entry's id
        and coordinates and the colours taken in turn. */
    static method ConvertZones(entries: seq<ZoneEntry>) returns (objs: seq<Zone>)
      ensures |objs| == |entries|
      ensures forall k :: 0 <= k < |entries| ==>
        && fresh(objs[k]) && objs[k].Valid() && objs[k].State() == Counting.Initial
        && objs[k].id == entries[k].id && objs[k].coords == entries[k].coords
        && objs[k].color == ZONE_COLORS[k % |ZONE_COLORS|]
      ensures forall j, k :: 0 <= j < k < |objs| ==> objs[j] != objs[k]
    {
      objs := [];
      var i := 0;
      while i < |entries|
        invariant 0 <= i <= |entries| && |objs| == i
        invariant forall k :: 0 <= k < i ==>
          && fresh(objs[k]) && objs[k].Valid() && objs[k].State() == Counting.Initial
          && objs[k].id == entries[k].id && objs[k].coords == entries[k].coords
          && objs[k].color == ZONE_COLORS[k % |ZONE_COLORS|]
        invariant forall j, k :: 0 <= j < k < i ==> objs[j] != objs[k]
      {
        var z := new Zone(entries[i].id, entries[i].coords, ZONE_COLORS[i % |ZONE_COLORS|]);
        objs := objs + [z];
        i := i + 1;
      }
    }

    /** The zone loop of `process_frame` for one track: every zone counts the observation;
        the answer is the id of the last zone containing the centroid. */
    method FeedZones(gid: int, c: Point) returns (current: Option<ZoneId>)
      requires ZonesOk()
      modifies zones
      ensures ZonesOk()
      ensures ZoneStates() == FeedAll(old(ZoneStates()), Boxes(), gid, c)
      ensures current == CurrentZone(Boxes(), Ids(), c)
    {
      ghost var before := ZoneStates();
      ghost var boxes, ids := Boxes(), Ids();
      current := None;
      var j := 0;
      while j < |zones|
        invariant 0 <= j <= |zones|
        invariant ZonesOk()
        invariant forall k :: 0 <= k < j ==> zones[k].State() == Entry(before[k], boxes[k], gid, c)
        invariant forall k :: j <= k < |zones| ==> zones[k].State() == before[k]
        invariant current == CurrentZone(boxes[..j], ids[..j], c)
      {
        CurrentZoneStep(boxes, ids, c, j);
        FeedOne(j, gid, c);
        if zones[j].IsInside(c) {
          current := Some(zones[j].id);
        }
        j := j + 1;
      }
      assert boxes[..j] == boxes && ids[..j] == ids;
    }

    /** One zone of that loop counts the observation; the others are untouched. */
    method FeedOne(j: nat, gid: int, c: Point)
      requires ZonesOk() && j < |zones|
      modifies zones[j]
      ensures ZonesOk()
      ensures zones[j].State() == Entry(old(zones[j].State()), Box(zones[j].coords), gid, c)
      ensures forall k :: 0 <= k < |zones| && k != j ==> zones[k].State() == old(zones[k].State())
    {
      zones[j].CountEntry(gid, c);
    }

    /** The body of the track loop of `process_frame` for one track. */
    method ProcessTrack(t: Track, now: real) returns (text: Option<string>)
      requires Valid()
      modifies zones, reidGallery
      ensures Valid()
      ensures var r := TrackStep(Scene(old(ZoneStates()), old(reidGallery.State())), Boxes(), Ids(), t, now,
                                 reidGallery.metric, reidGallery.confirmFrames);
        ZoneStates() == r.0.zones && reidGallery.State() == r.0.gallery && text == r.1
    {
      if !t.confirmed {
        return None;
      }
      var gid := reidGallery.GetGlobalId(t.trackId, t.features, now);
      var c := Centroid(t.box.x1, t.box.y1, t.box.x2, t.box.y2);
      var current := FeedZones(gid, c);
      text := Some(Label(gid, current));
    }

    /** The live-count loop of `process_frame`. */
    static method LiveCount(tracks: seq<Track>) returns (n: nat)
      ensures n == CountLive(tracks)
    {
      n := 0;
      var i := 0;
      while i < |tracks|
        invariant 0 <= i <= |tracks|
        invariant n == CountLive(tracks[..i])
      {
        assert tracks[..i + 1][..i] == tracks[..i];
        if tracks[i].confirmed && tracks[i].timeSinceUpdate <= 1 {
          n := n + 1;
        }
        i := i + 1;
      }
      assert tracks[..i] == tracks;
    }

    /** The track loop of `process_frame`. */
    method ProcessTracks(tracks: seq<Track>, now: real) returns (labels: seq<string>)
      requires Valid()
      modifies zones, reidGallery
      ensures Valid()
      ensures var r := TrackSteps(Scene(old(ZoneStates()), old(reidGallery.State())), Boxes(), Ids(), tracks, now,
                                  reidGallery.metric, reidGallery.confirmFrames);
        ZoneStates() == r.0.zones && reidGallery.State() == r.0.gallery && labels == r.1
    {
      ghost var s0 := Scene(ZoneStates(), reidGallery.State());
      labels := [];
      var i := 0;
      while i < |tracks|
        invariant 0 <= i <= |tracks|
        invariant Valid()
        invariant |s0.zones| == |zones|
        invariant Scene(ZoneStates(), reidGallery.State()) ==
          TrackSteps(s0, Boxes(), Ids(), tracks[..i], now, reidGallery.metric, reidGallery.confirmFrames).0
        invariant labels ==
          TrackSteps(s0, Boxes(), Ids(), tracks[..i], now, reidGallery.metric, reidGallery.confirmFrames).1
      {
        labels := NextTrack(s0, tracks, i, now, labels);
        i := i + 1;
      }
      assert tracks[..i] == tracks;
    }

    /** One iteration of the track loop: track `i` processed after the first `i`. */
    method NextTrack(ghost s0: Scene, tracks: seq<Track>, i: nat, now: real, labels: seq<string>)
      returns (labels': seq<string>)
      requires Valid() && i < |tracks| && |s0.zones| == |zones|
      requires var r := TrackSteps(s0, Boxes(), Ids(), tracks[..i], now, reidGallery.metric, reidGallery.confirmFrames);
        Scene(ZoneStates(), reidGallery.State()) == r.0 && labels == r.1
      modifies zones, reidGallery
      ensures Valid()
      ensures var r := TrackSteps(s0, Boxes(), Ids(), tracks[..i + 1], now, reidGallery.metric, reidGallery.confirmFrames);
        Scene(ZoneStates(), reidGallery.State()) == r.0 && labels' == r.1
    {
      ghost var boxes, ids := Boxes(), Ids();
      ghost var m, cf := reidGallery.metric, reidGallery.confirmFrames;
      ghost var prior := TrackSteps(s0, boxes, ids, tracks[..i], now, m, cf);
      TrackStepsSnoc(s0, boxes, ids, tracks, i, now, m, cf);
      var text := ProcessTrack(tracks[i], now);
      assert Boxes() == boxes && Ids() == ids;
      ghost var step := TrackStep(prior.0, boxes, ids, tracks[i], now, m, cf);
      assert ZoneStates() == step.0.zones && reidGallery.State() == step.0.gallery && text == step.1;
      labels' := labels;
      if text.Some? {
        labels' := labels + [text.value];
      }
    }

    /** The `zone_data` loop of `process_frame`: each zone's name, occupancy and
        coordinates, in zone order. */
    method ZoneData() returns (data: seq<ZoneStat>)
      requires ZonesOk()
      ensures |data| == |zones|
      ensures forall k :: 0 <= k < |zones| ==> data[k] == ZoneStat(zones[k].id, Occupancy(zones[k].State()), zones[k].coords)
    {
      data := [];
      var j := 0;
      while j < |zones|
        invariant 0 <= j <= |zones| && |data| == j
        invariant forall k :: 0 <= k < j ==> data[k] == ZoneStat(zones[k].id, Occupancy(zones[k].State()), zones[k].coords)
      {
        var count := zones[j].Count();
        data := data + [ZoneStat(zones[j].id, count, zones[j].coords)];
        j := j + 1;
      }
    }

    /** `process_frame(frame)` for a frame of size `h` by `w` whose tracks the tracker
        reports as `tracks`; answers the labels drawn, in track order. */
    method ProcessFrame(tracks: seq<Track>, now: real, h: int, w: int) returns (labels: seq<string>)
      requires Valid()
      modifies this, zones, reidGallery
      ensures Valid() && zones == old(zones) && imH == h && imW == w && fps == old(fps)
      ensures var r := TrackSteps(Scene(old(ZoneStates()), old(reidGallery.State())), Boxes(), Ids(), tracks, now,
                                  reidGallery.metric, reidGallery.confirmFrames);
        ZoneStates() == r.0.zones && reidGallery.State() == r.0.gallery && labels == r.1
      ensures latestStats == Some(FrameStats(CountLive(tracks), reidGallery.nextGlobalId, ZoneStates(), Ids(), CoordLists()))
    {
      labels := ProcessTracks(tracks, now);
      RecordStats(tracks, h, w);
    }

    /** The end of `process_frame`: the frame size is kept, and the live count, the zone
        records and the visitor count become the latest statistics. */
    method RecordStats(tracks: seq<Track>, h: int, w: int)
      requires Valid()
      modifies this`latestStats, this`imH, this`imW
      ensures Valid() && imH == h && imW == w
      ensures latestStats == Some(FrameStats(CountLive(tracks), reidGallery.nextGlobalId, ZoneStates(), Ids(), CoordLists()))
    {
      imH, imW := h, w;
      var live := LiveCount(tracks);
      var data := ZoneData();
      assert data == FrameStats(live, reidGallery.nextGlobalId, ZoneStates(), Ids(), CoordLists()).zones;
      latestStats := Some(Stats(live, live, reidGallery.nextGlobalId - 1, data));
    }
  }
}
