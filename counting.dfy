/** Zone occupancy counting: which tracked identities are inside a rectangular zone,
    how many distinct visits the zone has seen, and the exit hysteresis that keeps a
    person who steps out briefly from being counted twice. */
module Counting {
  import opened Common

  datatype Point = Point(x: int, y: int)

  /** A zone rectangle `(x1, y1, x2, y2)` exactly as stored; nothing forces `x1 <= x2`. */
  datatype Rect = Rect(x1: int, y1: int, x2: int, y2: int)

  /** A BGR drawing colour. */
  datatype Color = Color(b: int, g: int, r: int)

  /** Outside observations a counted identity may accumulate before it may be counted again. */
  const HYSTERESIS_THRESHOLD: nat := 30

  /** `int(n / 2)`: true division followed by truncation toward zero. */
  function HalfTowardZero(n: int): (h: int)
    ensures 0 <= n ==> 0 <= n - 2 * h <= 1
    ensures n <= 0 ==> -1 <= n - 2 * h <= 0
  {
    if n >= 0 then n / 2 else -((-n) / 2)
  }

  /** `calculate_centroid`: the integer midpoint of a box. */
  function Centroid(x1: int, y1: int, x2: int, y2: int): (c: Point)
    ensures 0 <= x1 + x2 ==> c.x == (x1 + x2) / 2
    ensures 0 <= y1 + y2 ==> c.y == (y1 + y2) / 2
    ensures x1 <= x2 ==> x1 <= c.x <= x2
    ensures y1 <= y2 ==> y1 <= c.y <= y2
  {
    Point(HalfTowardZero(x1 + x2), HalfTowardZero(y1 + y2))
  }

  /** `point_inside_rectangle`: inclusive on all four edges. */
  predicate Inside(p: Point, r: Rect) {
    r.x1 <= p.x <= r.x2 && r.y1 <= p.y <= r.y2
  }

  /** The four corners of a well-ordered rectangle are inside it, a point just past any edge
      is not, and a rectangle with an inverted side contains no point at all. */
  lemma InsideIsInclusive(r: Rect, p: Point)
    ensures r.x1 <= r.x2 && r.y1 <= r.y2 ==>
      Inside(Point(r.x1, r.y1), r) && Inside(Point(r.x2, r.y2), r)
      && Inside(Point(r.x1, r.y2), r) && Inside(Point(r.x2, r.y1), r)
    ensures !Inside(Point(r.x1 - 1, p.y), r) && !Inside(Point(r.x2 + 1, p.y), r)
    ensures !Inside(Point(p.x, r.y1 - 1), r) && !Inside(Point(p.x, r.y2 + 1), r)
    ensures r.x1 > r.x2 || r.y1 > r.y2 ==> !Inside(p, r)
  {
  }

  /** The bookkeeping of one zone: identities inside now, identities already counted in
      the current visit, how long each counted identity has been outside, the visit total
      and the last inside/outside observation of each identity. */
  datatype ZoneState = ZoneState(
    active: set<int>,
    counted: set<int>,
    outside: map<int, nat>,
    total: nat,
    prev: map<int, bool>)

  const Initial := ZoneState({}, {}, map[], 0, map[])

  /** The invariant the counting rules keep: whoever is inside has been counted, only
      counted identities that are out have an outside counter, and that counter lies
      between 1 and the hysteresis threshold. */
  ghost predicate Consistent(s: ZoneState) {
    && s.active <= s.counted
    && s.outside.Keys <= s.counted
    && s.outside.Keys !! s.active
    && forall g :: g in s.outside ==> 1 <= s.outside[g] <= HYSTERESIS_THRESHOLD
  }

  /** `count_entry(gid, p)` on a zone with rectangle `r`. */
  function Entry(s: ZoneState, r: Rect, gid: int, p: Point): ZoneState {
    if gid < 0 then s
    else if Inside(p, r) then
      var outside := s.outside - {gid};
      if gid !in s.active then
        var firstVisit := gid !in s.counted;
        ZoneState(s.active + {gid}, s.counted + {gid}, outside,
                  if firstVisit then s.total + 1 else s.total, s.prev[gid := true])
      else
        s.(outside := outside, prev := s.prev[gid := true])
    else
      var active := s.active - {gid};
      if gid in s.counted then
        var frames := (if gid in s.outside then s.outside[gid] else 0) + 1;
        if frames > HYSTERESIS_THRESHOLD then
          s.(active := active, counted := s.counted - {gid}, outside := s.outside - {gid},
             prev := s.prev[gid := false])
        else
          s.(active := active, outside := s.outside[gid := frames], prev := s.prev[gid := false])
      else
        s.(active := active, prev := s.prev[gid := false])
  }

  /** What one observation does: a negative id changes nothing; otherwise the id is active
      exactly when `p` is inside, its last observation is recorded, the total grows by one
      exactly on the first entry of a visit, the invariant is kept and no other id is
      touched. */
  lemma EntryFacts(s: ZoneState, r: Rect, gid: int, p: Point)
    ensures var t := Entry(s, r, gid, p);
      && (gid < 0 ==> t == s)
      && (gid >= 0 ==> (gid in t.active <==> Inside(p, r)) && t.prev == s.prev[gid := Inside(p, r)])
      && s.total <= t.total <= s.total + 1
      && (Consistent(s) ==> Consistent(t))
      && (Consistent(s) ==> (t.total == s.total + 1 <==> gid >= 0 && Inside(p, r) && gid !in s.counted))
      && (forall g :: g != gid ==>
           && (g in t.active <==> g in s.active)
           && (g in t.counted <==> g in s.counted)
           && (g in t.outside <==> g in s.outside)
           && (g in t.outside ==> t.outside[g] == s.outside[g]))
  {
  }

  /** `remove_id(gid)`: the identity leaves the active set and its last observation is
      forgotten; the visit bookkeeping is untouched. */
  function Remove(s: ZoneState, gid: int): (t: ZoneState)
    ensures gid !in t.active && gid !in t.prev
    ensures forall g :: g != gid ==> (g in t.active <==> g in s.active)
    ensures t.counted == s.counted && t.outside == s.outside && t.total == s.total
    ensures Consistent(s) ==> Consistent(t)
  {
    s.(active := s.active - {gid}, prev := s.prev - {gid})
  }

  /** The same observation of `gid` at `p`, `k` times in a row. */
  function Repeat(s: ZoneState, r: Rect, gid: int, p: Point, k: nat): ZoneState {
    if k == 0 then s else Entry(Repeat(s, r, gid, p, k - 1), r, gid, p)
  }

  /** An identity that was inside and is then seen outside `k >= 1` times in a row stays
      counted, with `k` outside frames, while `k` is at most the threshold; from the
      following frame on it is no longer counted. The total does not move meanwhile. */
  lemma {:induction false} StayingOutside(s: ZoneState, r: Rect, gid: int, p: Point, k: nat)
    requires Consistent(s) && gid >= 0 && gid in s.active && !Inside(p, r) && k >= 1
    ensures var t := Repeat(s, r, gid, p, k);
      && Consistent(t)
      && gid !in t.active
      && t.total == s.total
      && (k <= HYSTERESIS_THRESHOLD ==> gid in t.counted && gid in t.outside && t.outside[gid] == k)
      && (k > HYSTERESIS_THRESHOLD ==> gid !in t.counted && gid !in t.outside)
  {
    var prior := Repeat(s, r, gid, p, k - 1);
    if k > 1 {
      StayingOutside(s, r, gid, p, k - 1);
    } else {
      assert gid !in prior.outside;
    }
    OutsideStep(prior, r, gid, p);
  }

  /** One outside observation of a counted identity adds one outside frame, or uncounts it
      once the threshold is passed; one of an uncounted identity only marks it outside. */
  lemma OutsideStep(s: ZoneState, r: Rect, gid: int, p: Point)
    requires Consistent(s) && gid >= 0 && !Inside(p, r)
    ensures var t := Entry(s, r, gid, p);
      var frames := (if gid in s.outside then s.outside[gid] else 0) + 1;
      && Consistent(t)
      && gid !in t.active
      && t.total == s.total
      && (gid in s.counted && frames <= HYSTERESIS_THRESHOLD ==> gid in t.counted && gid in t.outside && t.outside[gid] == frames)
      && (gid in s.counted && frames > HYSTERESIS_THRESHOLD ==> gid !in t.counted && gid !in t.outside)
      && (gid !in s.counted ==> gid !in t.counted && gid !in t.outside)
  {
  }

  /** The hysteresis rule: enter, leave for `k` consecutive frames, enter again. The zone
      total grows again exactly when the absence lasted more than the threshold, and the
      identity is inside again either way. */
  lemma ReentryAfterAbsence(s: ZoneState, r: Rect, gid: int, p: Point, q: Point, k: nat)
    requires Consistent(s) && gid >= 0 && gid in s.active && !Inside(p, r) && Inside(q, r)
    ensures var t := Entry(Repeat(s, r, gid, p, k), r, gid, q);
      && gid in t.active
      && (t.total == s.total + 1 <==> k > HYSTERESIS_THRESHOLD)
      && (k <= HYSTERESIS_THRESHOLD ==> t.total == s.total)
  {
    if k >= 1 {
      StayingOutside(s, r, gid, p, k);
    }
  }

  /** A zone's occupancy as the dashboard reads it: how many identities are inside. */
  function Occupancy(s: ZoneState): nat {
    |s.active|
  }

  /** The unit-test scenarios on the zone `(0, 0, 100, 100)`: a first entry counts once, an
      exit keeps the total, a quick re-entry is not counted again, a re-entry after 36
      outside frames is, and an unconfirmed id changes nothing. */
  lemma TestScenarios()
    ensures var r, gid, inP, outP := Rect(0, 0, 100, 100), 1, Point(50, 50), Point(150, 150);
      var entered := Entry(Initial, r, gid, inP);
      var exited := Entry(entered, r, gid, outP);
      var back := Entry(exited, r, gid, inP);
      var longBack := Entry(Repeat(entered, r, gid, outP, 36), r, gid, inP);
      && entered.active == {1} && entered.counted == {1}
      && Occupancy(entered) == 1 && entered.total == 1
      && Occupancy(exited) == 0 && exited.total == 1
      && gid in back.active && back.total == 1
      && gid in longBack.active && longBack.total == 2
      && Occupancy(Entry(Initial, r, -1, inP)) == 0
  {
    var r, gid, inP, outP := Rect(0, 0, 100, 100), 1, Point(50, 50), Point(150, 150);
    var entered := Entry(Initial, r, gid, inP);
    ReentryAfterAbsence(entered, r, gid, outP, inP, 1);
    ReentryAfterAbsence(entered, r, gid, outP, inP, 36);
    assert Repeat(entered, r, gid, outP, 1) == Entry(entered, r, gid, outP);
  }

  /** A zone id as stored in the JSON files: a string, or `null`. */
  type ZoneId = Option<string>

  /** The rectangle a coordinate list stands for, once it has exactly four entries. */
  function Box(coords: seq<int>): Rect
    requires |coords| == 4
  {
    Rect(coords[0], coords[1], coords[2], coords[3])
  }

  /** `counting.Zone`: a named rectangle with its counting state, updated in place. The
      coordinates are kept as given; they are unpacked into four numbers only when a point
      is tested against them. */
  class Zone {
    const id: ZoneId
    const coords: seq<int>
    const color: Color
    var totalCount: nat
    var countedIds: set<int>
    var activeIds: set<int>
    var prev: map<int, bool>
    var framesOutside: map<int, nat>

    function State(): ZoneState
      reads this
    {
      ZoneState(activeIds, countedIds, framesOutside, totalCount, prev)
    }

    ghost predicate Valid()
      reads this
    {
      Consistent(State())
    }

    constructor (id: ZoneId, coords: seq<int>, color: Color)
      ensures Valid() && State() == Initial
      ensures this.id == id && this.coords == coords && this.color == color
    {
      this.id := id;
      this.coords := coords;
      this.color := color;
      totalCount := 0;
      countedIds := {};
      activeIds := {};
      prev := map[];
      framesOutside := map[];
    }

    /** The `count` property: the number of identities inside now. */
    function Count(): (n: nat)
      reads this
      ensures n == Occupancy(State())
      ensures n == 0 <==> activeIds == {}
    {
      |activeIds|
    }

    predicate IsInside(p: Point)
      requires |coords| == 4
    {
      Inside(p, Box(coords))
    }

    /** `count_entry(gid, centroid)`: ids below zero are ignored. */
    method CountEntry(gid: int, centroid: Point)
      requires Valid() && |coords| == 4
      modifies this
      ensures Valid()
      ensures State() == Entry(old(State()), Box(coords), gid, centroid)
    {
      if gid < 0 {
        return;
      }
      var inside := IsInside(centroid);
      if inside {
        MarkInside(gid, centroid);
      } else {
        MarkOutside(gid, centroid);
      }
    }

    /** The inside branch of `count_entry`: the outside counter is dropped, and an id not
        yet active becomes active and, when not yet counted, is counted. */
    method MarkInside(gid: int, centroid: Point)
      requires Valid() && |coords| == 4 && gid >= 0 && IsInside(centroid)
      modifies this
      ensures Valid()
      ensures State() == Entry(old(State()), Box(coords), gid, centroid)
    {
      if gid in framesOutside {
        framesOutside := framesOutside - {gid};
      }
      if gid !in activeIds {
        activeIds := activeIds + {gid};
        if gid !in countedIds {
          totalCount := totalCount + 1;
          countedIds := countedIds + {gid};
        }
      }
      prev := prev[gid := true];
    }

    /** The outside branch of `count_entry`: the id leaves the active set, and a counted id
        gains an outside frame, losing its counted mark past the threshold. */
    method MarkOutside(gid: int, centroid: Point)
      requires Valid() && |coords| == 4 && gid >= 0 && !IsInside(centroid)
      modifies this
      ensures Valid()
      ensures State() == Entry(old(State()), Box(coords), gid, centroid)
    {
      if gid in activeIds {
        activeIds := activeIds - {gid};
      }
      if gid in countedIds {
        var curr := if gid in framesOutside then framesOutside[gid] else 0;
        framesOutside := framesOutside[gid := curr + 1];
        if framesOutside[gid] > HYSTERESIS_THRESHOLD {
          countedIds := countedIds - {gid};
          framesOutside := framesOutside - {gid};
        }
      }
      prev := prev[gid := false];
    }

    method RemoveId(gid: int)
      requires Valid()
      modifies this
      ensures Valid()
      ensures State() == Remove(old(State()), gid)
    {
      activeIds := activeIds - {gid};
      prev := prev - {gid};
    }
  }
}
