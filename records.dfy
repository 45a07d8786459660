/** The records the parts of the system hand to each other: the live data published by the
    detection loop, the zone entries inside it, stored zone definitions and the commands
    sent back to the detection loop. */
module Records {
  import opened Common
  import opened Counting

  /** A zone entry of the live data: a dict whose keys `name`, `count` and `threshold` may
      each be absent; `coords` is the zone's coordinate list. */
  datatype ZoneItem = ZoneItem(name: Option<string>, count: Option<int>, coords: seq<int>, threshold: Option<int>)

  /** A JSON value of the live data. The `zones` entry is either a list of zone entries or a
      dict from camera key to such a list; the two are kept as their own cases. */
  datatype Value =
    | Null
    | Bool(b: bool)
    | Int(i: int)
    | Str(s: string)
    | ZoneList(items: seq<ZoneItem>)
    | ZonesByCamera(cams: Dict<string, seq<ZoneItem>>)
    | Object(fields: Dict<string, Value>)

  /** A zone definition as saved to a zones file and carried by an `update_zones` command;
      `threshold` may be absent. */
  datatype ZoneDef = ZoneDef(id: ZoneId, coords: seq<int>, threshold: Option<int>)

  /** A command for the detection loop: the `action`, `cam_id` and `zones` keys, each of
      which may be absent. */
  datatype Command = Command(action: Option<string>, camId: Option<string>, zones: Option<seq<ZoneDef>>)

  /** The zone entries of a `zones` value: a dict gives the concatenation of its lists in key
      order, a list is taken as it is, anything else gives none. */
  function Flatten(v: Value): (items: seq<ZoneItem>)
    ensures v.ZoneList? ==> items == v.items
    ensures !v.ZoneList? && !v.ZonesByCamera? ==> items == []
  {
    match v
    case ZoneList(items) => items
    case ZonesByCamera(cams) => Concat(Values(cams))
    case _ => []
  }

  /** `for k, v in d.items(): out.extend(v)` */
  function Concat(lists: seq<seq<ZoneItem>>): (r: seq<ZoneItem>)
    ensures |r| == SumLengths(lists)
  {
    if lists == [] then [] else lists[0] + Concat(lists[1..])
  }

  function SumLengths(lists: seq<seq<ZoneItem>>): nat {
    if lists == [] then 0 else |lists[0]| + SumLengths(lists[1..])
  }

  /** Flattening keeps every camera's entries, in order, right after those of the cameras
      before it. */
  lemma {:induction false} ConcatPlacesEachList(lists: seq<seq<ZoneItem>>, k: nat, j: nat)
    requires k < |lists| && j < |lists[k]|
    ensures SumLengths(lists[..k]) + j < |Concat(lists)|
    ensures Concat(lists)[SumLengths(lists[..k]) + j] == lists[k][j]
  {
    if k > 0 {
      ConcatPlacesEachList(lists[1..], k - 1, j);
      assert lists[1..][..k - 1] == lists[..k][1..];
      assert lists[..k][0] == lists[0];
    }
  }
}
