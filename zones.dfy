/** `zones.py`: the per-camera zone list, its JSON file, and the mouse-driven editor that
    draws a new rectangle or moves an existing zone. */
module Zones {
  import opened Common
  import opened Counting

  /** `z.get("threshold", 10)` */
  const DEFAULT_THRESHOLD: int := 10

  /** A released rectangle narrower or lower than this many pixels is ignored. */
  const MIN_ZONE_SIZE: int := 5

  /** A zone of the list: id, coordinate list, crowding threshold. */
  datatype ZoneEntry = ZoneEntry(id: ZoneId, coords: seq<int>, threshold: int)

  /** One object of a zones file; each key may be absent. */
  datatype RawZone = RawZone(id: Option<ZoneId>, coords: Option<seq<int>>, threshold: Option<int>)

  /** A zones file: absent, not valid JSON, or its objects in order. */
  datatype ZoneFile = Missing | NotJson | Entries(entries: seq<RawZone>)

  /** How many objects of the file carry `coords`. */
  function CountWithCoords(es: seq<RawZone>): nat {
    if es == [] then 0 else CountWithCoords(es[..|es| - 1]) + (if es[|es| - 1].coords.Some? then 1 else 0)
  }

  /** The loop of `load_zones` over the objects of a file: objects without `coords` are
      skipped, the others are kept in file order with a missing threshold read as the
      default. An object with `coords` but no `id` raises `KeyError`; the entries appended
      before it stay. The flag says whether that happened. */
  function LoadEntries(es: seq<RawZone>): (r: (seq<ZoneEntry>, bool))
    ensures |r.0| <= CountWithCoords(es)
    ensures !r.1 ==> |r.0| == CountWithCoords(es)
    ensures r.1 <==> exists i :: 0 <= i < |es| && es[i].coords.Some? && es[i].id.None?
  {
    if es == [] then ([], false)
    else
      var prior := LoadEntries(es[..|es| - 1]);
      var z := es[|es| - 1];
      assert forall i :: 0 <= i < |es| - 1 ==> es[..|es| - 1][i] == es[i];
      if prior.1 || z.coords.None? then prior
      else if z.id.None? then (prior.0, true)
      else (prior.0 + [ZoneEntry(z.id.value, z.coords.value, z.threshold.GetOr(DEFAULT_THRESHOLD))], false)
  }

  /** `load_zones()`: a missing file or one that is not JSON gives no zones. */
  function LoadFile(f: ZoneFile): (seq<ZoneEntry>, bool) {
    match f
    case Entries(es) => LoadEntries(es)
    case _ => ([], false)
  }

  /** The objects `save_zones` writes for a zone list. */
  function Saved(zs: seq<ZoneEntry>): (es: seq<RawZone>)
    ensures |es| == |zs|
    ensures forall i :: 0 <= i < |zs| ==>
      es[i] == RawZone(Some(zs[i].id), Some(zs[i].coords), Some(zs[i].threshold))
  {
    seq(|zs|, i requires 0 <= i < |zs| => RawZone(Some(zs[i].id), Some(zs[i].coords), Some(zs[i].threshold)))
  }

  /** Loading what `save_zones` wrote gives the same zones back. */
  lemma {:induction false} LoadSaved(zs: seq<ZoneEntry>)
    ensures LoadEntries(Saved(zs)) == (zs, false)
  {
    if zs != [] {
      var init := zs[..|zs| - 1];
      LoadSaved(init);
      assert Saved(zs)[..|zs| - 1] == Saved(init);
      assert zs == init + [zs[|zs| - 1]];
    }
  }

  /** A file whose every object has `coords` and `id` loads one zone per object, with the
      object's id and coordinates, in file order. */
  lemma {:induction false} LoadComplete(es: seq<RawZone>)
    requires forall i :: 0 <= i < |es| ==> es[i].coords.Some? && es[i].id.Some?
    ensures var r := LoadEntries(es);
      && !r.1 && |r.0| == |es|
      && forall i :: 0 <= i < |es| ==>
           r.0[i] == ZoneEntry(es[i].id.value, es[i].coords.value, es[i].threshold.GetOr(DEFAULT_THRESHOLD))
  {
    if es != [] {
      var init := es[..|es| - 1];
      LoadComplete(init);
      assert forall i :: 0 <= i < |init| ==> init[i] == es[i];
    }
  }

  /** The mouse events the editor reacts to; every other event is ignored. */
  datatype MouseEvent = ButtonDown | Move | ButtonUp | OtherEvent

  /** A rectangle as four numbers `(x1, y1, x2, y2)`. */
  datatype Quad = Quad(x1: int, y1: int, x2: int, y2: int)

  /** The editor fields `handle_mouse` reads and writes. */
  datatype Editor = Editor(
    zones: seq<ZoneEntry>,
    drawing: bool,
    ix: int, iy: int,
    current: Option<Quad>,
    newZoneDrawn: bool,
    zoneEdited: bool,
    editMode: bool,
    selected: Option<int>)

  /** Python list indexing: `-n <= i < n`, negative indices counting from the end. */
  function PyIndex(i: int, n: nat): (k: Option<nat>)
    ensures k.Some? <==> -(n as int) <= i < n
    ensures k.Some? ==> k.value < n && (k.value == i || k.value == i + n)
  {
    if 0 <= i < n then Some(i) else if -(n as int) <= i < 0 then Some(i + n) else None
  }

  /** The rectangle spanned by two corners, with `x1 <= x2` and `y1 <= y2`. */
  function Normalised(ax: int, ay: int, cx: int, cy: int): (q: Quad)
    ensures q.x1 <= q.x2 && q.y1 <= q.y2
    ensures {q.x1, q.x2} == {ax, cx} && {q.y1, q.y2} == {ay, cy}
  {
    Quad(if ax < cx then ax else cx, if ay < cy then ay else cy,
         if ax < cx then cx else ax, if ay < cy then cy else ay)
  }

  /** `handle_mouse(event, x, y)`. The result also says whether the edit of a selected
      zone raised `IndexError` (an index outside the list). */
  function Mouse(s: Editor, e: MouseEvent, x: int, y: int): (Editor, bool) {
    match e
    case ButtonDown => (s.(drawing := true, ix := x, iy := y), false)
    case Move => (if s.drawing then s.(current := Some(Quad(s.ix, s.iy, x, y))) else s, false)
    case ButtonUp =>
      var up := s.(drawing := false);
      var q := Normalised(s.ix, s.iy, x, y);
      if q.x2 - q.x1 < MIN_ZONE_SIZE || q.y2 - q.y1 < MIN_ZONE_SIZE then (up.(current := None), false)
      else if s.editMode && s.selected.Some? then
        match PyIndex(s.selected.value, |s.zones|)
        case None => (up, true)
        case Some(k) =>
          var z := s.zones[k].(coords := [q.x1, q.y1, q.x2, q.y2]);
          (up.(zones := s.zones[k := z], editMode := false, zoneEdited := true), false)
      else (up.(current := Some(q), newZoneDrawn := true), false)
    case OtherEvent => (s, false)
  }

  /** No mouse event adds or removes a zone, renames one or changes a threshold; only the
      coordinates of the selected zone can change, and only on an accepted button-up in
      edit mode. */
  lemma MouseKeepsZoneList(s: Editor, e: MouseEvent, x: int, y: int)
    ensures var t := Mouse(s, e, x, y).0;
      && |t.zones| == |s.zones|
      && (forall i :: 0 <= i < |s.zones| ==> t.zones[i].id == s.zones[i].id && t.zones[i].threshold == s.zones[i].threshold)
      && (t.zones != s.zones ==> e == ButtonUp && s.editMode && !t.editMode && t.zoneEdited)
  {
  }

  /** Whatever the editor shows after a button-up is a normalised rectangle of at least the
      minimum size, and so is any zone the button-up moved. */
  lemma ButtonUpRectIsNormalised(s: Editor, x: int, y: int)
    ensures var t := Mouse(s, ButtonUp, x, y).0;
      && !t.drawing
      && (t.current != s.current && t.current.Some? ==> t.current == Some(Normalised(s.ix, s.iy, x, y)))
      && (t.current != s.current && t.current.Some? ==>
            t.current.value.x2 - t.current.value.x1 >= MIN_ZONE_SIZE
            && t.current.value.y2 - t.current.value.y1 >= MIN_ZONE_SIZE)
      && forall i :: 0 <= i < |s.zones| && t.zones[i] != s.zones[i] ==>
           var q := Normalised(s.ix, s.iy, x, y);
           t.zones[i].coords == [q.x1, q.y1, q.x2, q.y2] && q.x2 - q.x1 >= MIN_ZONE_SIZE
           && q.y2 - q.y1 >= MIN_ZONE_SIZE
  {
  }

  /** A release that spans less than the minimum size changes nothing but the drawing flag
      and clears the preview. */
  lemma SmallReleaseRejected(s: Editor, x: int, y: int)
    requires var q := Normalised(s.ix, s.iy, x, y); q.x2 - q.x1 < MIN_ZONE_SIZE || q.y2 - q.y1 < MIN_ZONE_SIZE
    ensures Mouse(s, ButtonUp, x, y) == (s.(drawing := false, current := None), false)
  {
  }

  /** The events of one drag: press at `(ax, ay)`, the given moves, release at `(cx, by)`. */
  function Drag(s: Editor, ax: int, ay: int, moves: seq<(int, int)>, cx: int, cy: int): Editor {
    Mouse(Moves(Mouse(s, ButtonDown, ax, ay).0, moves), ButtonUp, cx, cy).0
  }

  function Moves(s: Editor, moves: seq<(int, int)>): Editor
    decreases |moves|
  {
    if moves == [] then s else Moves(Mouse(s, Move, moves[0].0, moves[0].1).0, moves[1..])
  }

  /** Moving the mouse while drawing only changes the preview; the anchor and the rest stay. */
  lemma {:induction false} MovesKeepAnchor(s: Editor, moves: seq<(int, int)>)
    requires s.drawing
    ensures Moves(s, moves).(current := s.current) == s
    decreases |moves|
  {
    if moves != [] {
      MovesKeepAnchor(Mouse(s, Move, moves[0].0, moves[0].1).0, moves[1..]);
    }
  }

  /** Outside edit mode, a drag shows the rectangle between the press and release points,
      whatever path the mouse took, when it is large enough, and leaves the zones alone. */
  lemma DragDrawsRectangle(s: Editor, ax: int, ay: int, moves: seq<(int, int)>, cx: int, cy: int)
    requires !s.editMode
    ensures var t, q := Drag(s, ax, ay, moves, cx, cy), Normalised(ax, ay, cx, cy);
      && t.zones == s.zones && !t.drawing
      && (q.x2 - q.x1 >= MIN_ZONE_SIZE && q.y2 - q.y1 >= MIN_ZONE_SIZE ==> t.current == Some(q) && t.newZoneDrawn)
      && (q.x2 - q.x1 < MIN_ZONE_SIZE || q.y2 - q.y1 < MIN_ZONE_SIZE ==> t.current.None?)
  {
    MovesKeepAnchor(Mouse(s, ButtonDown, ax, ay).0, moves);
  }

  /** `zones.ZoneManager`. The zones file is part of the object: `save_zones` writes it and
      `load_zones` reads it. */
  class ZoneManager {
    var file: ZoneFile
    var zones: seq<ZoneEntry>
    var drawing: bool
    var ix: int
    var iy: int
    var currentRect: Option<Quad>
    var newZoneDrawn: bool
    var zoneEdited: bool
    var previewMode: bool
    var editMode: bool
    var selectedZoneIndex: Option<int>

    function EditorState(): Editor
      reads this
    {
      Editor(zones, drawing, ix, iy, currentRect, newZoneDrawn, zoneEdited, editMode, selectedZoneIndex)
    }

    /** The field assignments of `ZoneManager(filepath)`, with `file` the contents found at
        the path; the load that follows them is `Create`. */
    constructor (file: ZoneFile)
      ensures this.file == file && zones == []
      ensures !drawing && ix == -1 && iy == -1 && currentRect.None? && !newZoneDrawn
      ensures !zoneEdited && previewMode && !editMode && selectedZoneIndex.None?
    {
      this.file := file;
      zones := [];
      drawing := false;
      ix, iy := -1, -1;
      currentRect := None;
      newZoneDrawn := false;
      zoneEdited := false;
      previewMode := true;
      editMode := false;
      selectedZoneIndex := None;
    }

    /** `ZoneManager(filepath)`: the fields are set and the zones loaded. When the load raises
        `KeyError` the exception leaves the constructor and no manager exists (`null`). */
    static method Create(file: ZoneFile) returns (m: ZoneManager?)
      ensures m == null <==> LoadFile(file).1
      ensures m != null ==> fresh(m) && m.file == file && m.zones == LoadFile(file).0
      ensures m != null ==> !m.drawing && m.ix == -1 && m.iy == -1 && m.currentRect.None? && !m.newZoneDrawn
      ensures m != null ==> !m.zoneEdited && m.previewMode && !m.editMode && m.selectedZoneIndex.None?
    {
      var made := new ZoneManager(file);
      var raised := made.LoadZones();
      m := if raised then null else made;
    }

    /** `load_zones()`: the list is cleared and refilled from the file; `raised` says
        whether an object without `id` stopped the loop with `KeyError`. */
    method LoadZones() returns (raised: bool)
      modifies this`zones
      ensures (zones, raised) == LoadFile(file)
    {
      zones := [];
      raised := false;
      if !file.Entries? {
        return;
      }
      var es := file.entries;
      var i := 0;
      while i < |es|
        invariant 0 <= i <= |es|
        invariant (zones, raised) == LoadEntries(es[..i])
        invariant raised ==> (zones, raised) == LoadEntries(es)
      {
        assert es[..i + 1][..i] == es[..i];
        var z := es[i];
        if z.coords.Some? {
          if z.id.None? {
            raised := true;
            LoadEntriesStops(es, i + 1);
            return;
          }
          zones := zones + [ZoneEntry(z.id.value, z.coords.value, z.threshold.GetOr(DEFAULT_THRESHOLD))];
        }
        i := i + 1;
      }
      assert es[..i] == es;
    }

    /** `save_zones()` */
    method SaveZones()
      modifies this`file
      ensures file == Entries(Saved(zones))
    {
      file := Entries(Saved(zones));
    }

    /** `handle_mouse(event, x, y, flags, param)`; `raised` reports an `IndexError`. */
    method HandleMouse(event: MouseEvent, x: int, y: int) returns (raised: bool)
      modifies this`zones, this`drawing, this`ix, this`iy, this`currentRect, this`newZoneDrawn,
        this`zoneEdited, this`editMode
      ensures (EditorState(), raised) == Mouse(old(EditorState()), event, x, y)
    {
      raised := false;
      if event == ButtonDown {
        drawing := true;
        ix, iy := x, y;
      } else if event == Move && drawing {
        currentRect := Some(Quad(ix, iy, x, y));
      } else if event == ButtonUp {
        raised := Release(x, y);
      }
    }

    /** The button-up branch of `handle_mouse`: the rectangle from the press point to
        `(x, y)` is dropped when too small, becomes the selected zone's in edit mode, and is
        otherwise the newly drawn zone. */
    method Release(x: int, y: int) returns (raised: bool)
      modifies this`zones, this`drawing, this`currentRect, this`newZoneDrawn, this`zoneEdited, this`editMode
      ensures (EditorState(), raised) == Mouse(old(EditorState()), ButtonUp, x, y)
    {
      raised := false;
      drawing := false;
      var q := Normalised(ix, iy, x, y);
      if q.x2 - q.x1 < MIN_ZONE_SIZE || q.y2 - q.y1 < MIN_ZONE_SIZE {
        currentRect := None;
        return;
      }
      if editMode && selectedZoneIndex.Some? {
        var k := PyIndex(selectedZoneIndex.value, |zones|);
        if k.None? {
          return true;
        }
        zones := zones[k.value := zones[k.value].(coords := [q.x1, q.y1, q.x2, q.y2])];
        editMode := false;
        zoneEdited := true;
      } else {
        currentRect := Some(q);
        newZoneDrawn := true;
      }
    }
  }

  /** Once the loop of `load_zones` has raised, later objects change nothing. */
  lemma {:induction false} LoadEntriesStops(es: seq<RawZone>, n: nat)
    requires n <= |es| && LoadEntries(es[..n]).1
    ensures LoadEntries(es) == LoadEntries(es[..n])
    decreases |es| - n
  {
    if n < |es| {
      assert es[..n + 1][..n] == es[..n];
      LoadEntriesStops(es, n + 1);
    } else {
      assert es[..n] == es;
    }
  }

  /** Saving and loading again restores the zone list. */
  lemma SaveThenLoad(zs: seq<ZoneEntry>)
    ensures LoadFile(Entries(Saved(zs))) == (zs, false)
  {
    LoadSaved(zs);
  }
}
