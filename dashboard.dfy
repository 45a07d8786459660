/** The dashboard controller (`backend/controllers/dashboard_controller.py`): the module's
    in-memory store (live counts, trend history, command queue) with the alert and
    analytics tables it writes, the live-data update with its alert rule, the threshold
    sync of the live view, trend downsampling, and the command queue endpoints. Database
    queries are modelled as the rows they read and write, and every timestamp one call
    takes is one clock reading `now`. */
module Dashboard {
  import opened Common
  import opened Strings
  import opened Counting
  import opened Records
  import Orchestrator
  import Detection

  /** The trend keeps this many points. */
  const TREND_SIZE: nat := 100

  /** The analytics row name of the global occupancy record. */
  const GLOBAL_ZONE: string := "_GLOBAL_OCCUPANCY_"

  /** The global occupancy is recorded at most once per this many seconds. */
  const GLOBAL_PERIOD: real := 60.0

  /** A zone is alerted at most once per this many seconds. */
  const ALERT_COOLDOWN: real := 60.0

  /** The live view counts the alerts of this many seconds back (24 hours). */
  const ALERT_WINDOW: real := 86400.0

  /** The threshold of a zone the database does not know. */
  const ALERT_DEFAULT_THRESHOLD: int := 1000

  /** A trend point: the `%H:%M:%S` time and the people count. */
  datatype TrendPoint = TrendPoint(time: string, count: Value)

  /** A row of the alert table. */
  datatype AlertRow = AlertRow(zoneName: string, message: string, time: real)

  /** A row of the analytics table. */
  datatype AnalyticsRow = AnalyticsRow(zoneName: string, count: Value, time: real)

  /** `live_counts` at import time. */
  const InitialLiveCounts: Dict<string, Value> := [
    ("live_count", Int(0)), ("people_count", Int(0)), ("total_visitors", Int(0)),
    ("zones", ZonesByCamera([])), ("cameras", Object([]))
  ]

  /** The store as a value: the module globals and the two tables. */
  datatype Board = Board(liveCounts: Dict<string, Value>, trend: seq<TrendPoint>, commands: seq<Command>,
                         alerts: seq<AlertRow>, analytics: seq<AnalyticsRow>)

  // ----- trend -----

  /** `trend_history.append(p)` then one `pop(0)` when longer than 100. */
  function NextTrend(trend: seq<TrendPoint>, p: TrendPoint): (r: seq<TrendPoint>)
    ensures |trend| <= |r| <= |trend| + 1
    ensures |trend| <= TREND_SIZE ==> |r| <= TREND_SIZE
    ensures |r| > 0 && r[|r| - 1] == p
    ensures r[..|r| - 1] == trend[|trend| + 1 - |r|..]
  {
    var t := trend + [p];
    if |t| > TREND_SIZE then t[1..] else t
  }

  // ----- global occupancy -----

  /** The most recent analytics row of the global occupancy, if any. */
  function LatestGlobal(rows: seq<AnalyticsRow>): Option<AnalyticsRow> {
    if rows == [] then None
    else if rows[|rows| - 1].zoneName == GLOBAL_ZONE then Some(rows[|rows| - 1])
    else LatestGlobal(rows[..|rows| - 1])
  }

  /** A global record is saved when there is none yet or the latest is a minute old. */
  predicate ShouldSaveGlobal(rows: seq<AnalyticsRow>, now: real) {
    var last := LatestGlobal(rows);
    last.None? || now - last.value.time >= GLOBAL_PERIOD
  }

  // ----- alerts -----

  /** `name.replace('C0: ', '').replace('C1: ', '')` */
  function AlertName(name: string): string {
    Replace(Replace(name, "C0: ", ""), "C1: ", "")
  }

  /** The most recent alert for `name`, if any. */
  function LatestAlert(alerts: seq<AlertRow>, name: string): (r: Option<AlertRow>)
    ensures r.None? <==> forall i :: 0 <= i < |alerts| ==> alerts[i].zoneName != name
    ensures r.Some? ==> r.value.zoneName == name && r.value in alerts
  {
    if alerts == [] then None
    else if alerts[|alerts| - 1].zoneName == name then Some(alerts[|alerts| - 1])
    else
      assert forall i :: 0 <= i < |alerts| - 1 ==> alerts[..|alerts| - 1][i] == alerts[i];
      LatestAlert(alerts[..|alerts| - 1], name)
  }

  /** The threshold the alert rule uses for a zone entry. */
  function AlertThreshold(z: ZoneItem, db: Dict<string, int>): int {
    Get(db, AlertName(z.name.GetOr(""))).GetOr(ALERT_DEFAULT_THRESHOLD)
  }

  /** The alert one zone entry raises, given the alerts so far. */
  function AlertFor(alerts: seq<AlertRow>, z: ZoneItem, now: real, db: Dict<string, int>): Option<AlertRow> {
    var name := AlertName(z.name.GetOr(""));
    var threshold := AlertThreshold(z, db);
    var count := z.count.GetOr(0);
    var recent := LatestAlert(alerts, name);
    if count > threshold && (recent.None? || now - recent.value.time > ALERT_COOLDOWN) then
      Some(AlertRow(name, "Occupancy exceeded! (" + IntToString(count) + "/" + IntToString(threshold) + ")", now))
    else None
  }

  /** The alert loop over the zone entries, each entry seeing the alerts of the ones
      before it. */
  function AlertsAfter(alerts: seq<AlertRow>, items: seq<ZoneItem>, now: real, db: Dict<string, int>): (r: seq<AlertRow>)
    ensures |r| >= |alerts| && r[..|alerts|] == alerts
  {
    if items == [] then alerts
    else
      var prior := AlertsAfter(alerts, items[..|items| - 1], now, db);
      var a := AlertFor(prior, items[|items| - 1], now, db);
      if a.Some? then prior + [a.value] else prior
  }

  /** One more zone entry extends the alert loop by that entry's alert, if any. */
  lemma AlertsAfterSnoc(alerts: seq<AlertRow>, items: seq<ZoneItem>, k: nat, now: real, db: Dict<string, int>)
    requires k < |items|
    ensures var prior := AlertsAfter(alerts, items[..k], now, db);
      var a := AlertFor(prior, items[k], now, db);
      AlertsAfter(alerts, items[..k + 1], now, db) == if a.Some? then prior + [a.value] else prior
  {
    assert items[..k + 1][..k] == items[..k];
  }

  /** Alerts are stored in time order. */
  ghost predicate Chronological(alerts: seq<AlertRow>) {
    forall i, j :: 0 <= i < j < |alerts| ==> alerts[i].time <= alerts[j].time
  }

  /** Two alerts for the same zone are more than a minute apart. */
  ghost predicate Spaced(alerts: seq<AlertRow>) {
    forall i, j :: 0 <= i < j < |alerts| && alerts[i].zoneName == alerts[j].zoneName ==>
      alerts[j].time - alerts[i].time > ALERT_COOLDOWN
  }

  /** No alert is later than `now`. */
  ghost predicate NotAfter(alerts: seq<AlertRow>, now: real) {
    forall i :: 0 <= i < |alerts| ==> alerts[i].time <= now
  }

  /** In time order, the most recent alert of a zone is the latest in time. */
  lemma {:induction false} LatestAlertIsLatest(alerts: seq<AlertRow>, name: string, i: nat)
    requires Chronological(alerts) && i < |alerts| && alerts[i].zoneName == name
    ensures LatestAlert(alerts, name).Some? && alerts[i].time <= LatestAlert(alerts, name).value.time
  {
    var n := |alerts| - 1;
    if alerts[n].zoneName != name {
      var init := alerts[..n];
      assert i < n && init[i] == alerts[i];
      LatestAlertIsLatest(init, name, i);
    }
  }

  /** The cool-down in its own words: an entry raises an alert exactly when its count
      exceeds its threshold and no alert for its zone is a minute old or newer. */
  lemma AlertRule(alerts: seq<AlertRow>, z: ZoneItem, now: real, db: Dict<string, int>)
    requires Chronological(alerts)
    ensures var name := AlertName(z.name.GetOr(""));
      AlertFor(alerts, z, now, db).Some? <==>
        z.count.GetOr(0) > AlertThreshold(z, db)
        && forall i :: 0 <= i < |alerts| && alerts[i].zoneName == name ==> now - alerts[i].time > ALERT_COOLDOWN
  {
    var name := AlertName(z.name.GetOr(""));
    var recent := LatestAlert(alerts, name);
    if recent.Some? {
      forall i | 0 <= i < |alerts| && alerts[i].zoneName == name
        ensures alerts[i].time <= recent.value.time
      {
        LatestAlertIsLatest(alerts, name, i);
      }
      assert recent.value in alerts;
    }
  }

  /** One more alert at `now`, allowed by the rule, keeps the table ordered and spaced. */
  lemma AlertForKeepsSpacing(alerts: seq<AlertRow>, z: ZoneItem, now: real, db: Dict<string, int>)
    requires Chronological(alerts) && Spaced(alerts) && NotAfter(alerts, now)
    requires AlertFor(alerts, z, now, db).Some?
    ensures var next := alerts + [AlertFor(alerts, z, now, db).value];
      Chronological(next) && Spaced(next) && NotAfter(next, now)
  {
    AlertRule(alerts, z, now, db);
  }

  /** The alert loop keeps the table ordered and spaced: at most one alert per zone per
      minute, however many entries share a name. */
  lemma {:induction false} AlertsKeepSpacing(alerts: seq<AlertRow>, items: seq<ZoneItem>, now: real, db: Dict<string, int>)
    requires Chronological(alerts) && Spaced(alerts) && NotAfter(alerts, now)
    ensures var r := AlertsAfter(alerts, items, now, db);
      Chronological(r) && Spaced(r) && NotAfter(r, now)
  {
    if items != [] {
      var prior := AlertsAfter(alerts, items[..|items| - 1], now, db);
      AlertsKeepSpacing(alerts, items[..|items| - 1], now, db);
      var a := AlertFor(prior, items[|items| - 1], now, db);
      if a.Some? {
        AlertForKeepsSpacing(prior, items[|items| - 1], now, db);
      }
    }
  }

  /** Removing `pat` from `[c] + s` where `c` cannot start `pat` is removing it from `s`. */
  lemma HeadNotPattern(d: char, e: char, n: string)
    requires d != e && d != 'C' && !Contains(n, ['C', e, ':', ' '])
    ensures !Contains(['C', d, ':', ' '] + n, ['C', e, ':', ' '])
  {
    var t := ['C', e, ':', ' '];
    var n1 := [' '] + n;
    var n2 := [':'] + n1;
    var n3 := [d] + n2;
    assert !Contains(n3, t) by {
      ContainsAfterHead(' ', n, t);
      ContainsAfterHead(':', n1, t);
      ContainsAfterHead(d, n2, t);
    }
    var s := ['C'] + n3;
    assert s == ['C', d, ':', ' '] + n;
    assert !StartsWith(s, t) by {
      assert |t| <= |s| ==> s[..|t|][1] == d;
    }
    assert s[1..] == n3;
  }

  /** Removing `C0: ` and `C1: ` strips the prefix of the first camera's zones. */
  lemma FirstCameraPrefixRemoved(n: string)
    requires !Contains(n, "C0: ") && !Contains(n, "C1: ")
    ensures AlertName(Orchestrator.CamLabel(0) + ": " + n) == n
  {
    var s := Orchestrator.CamLabel(0) + ": " + n;
    assert s == ['C', '1', ':', ' '] + n;
    HeadNotPattern('1', '0', n);
    ReplaceAbsent(s, "C0: ", "");
    assert StartsWith(s, "C1: ") && s[4..] == n;
    ReplaceAbsent(n, "C1: ", "");
  }

  /** The second camera's zones keep their `C2: ` prefix, so the alert rule looks their
      threshold up under the prefixed name. */
  lemma SecondCameraPrefixKept(n: string)
    requires !Contains(n, "C0: ") && !Contains(n, "C1: ")
    ensures AlertName(Orchestrator.CamLabel(1) + ": " + n) == Orchestrator.CamLabel(1) + ": " + n
  {
    var s := Orchestrator.CamLabel(1) + ": " + n;
    assert s == ['C', '2', ':', ' '] + n;
    HeadNotPattern('2', '0', n);
    ReplaceAbsent(s, "C0: ", "");
    HeadNotPattern('2', '1', n);
    ReplaceAbsent(s, "C1: ", "");
  }

  // ----- update_counts -----

  /** An accepted update: merge, trend point, global occupancy record, alerts, and the
      command queue drained. */
  function Accepted(b: Board, data: Dict<string, Value>, nowStr: string, now: real, db: Dict<string, int>): Board {
    var live := Merge(b.liveCounts, data);
    var count := Get(live, "people_count").GetOr(Int(0));
    var analytics := if ShouldSaveGlobal(b.analytics, now) then b.analytics + [AnalyticsRow(GLOBAL_ZONE, count, now)] else b.analytics;
    var items := Flatten(Get(live, "zones").GetOr(ZoneList([])));
    Board(live, NextTrend(b.trend, TrendPoint(nowStr, count)), [], AlertsAfter(b.alerts, items, now, db), analytics)
  }

  /** What the store keeps true between calls. */
  ghost predicate BoardOk(b: Board) {
    DistinctKeys(b.liveCounts) && |b.trend| <= TREND_SIZE && Chronological(b.alerts) && Spaced(b.alerts)
  }

  /** An accepted update keeps the store well formed, ends the trend with the new point and
      only appends to the alert table. */
  lemma AcceptedKeepsBoardOk(b: Board, data: Dict<string, Value>, nowStr: string, now: real, db: Dict<string, int>)
    requires BoardOk(b) && DistinctKeys(data) && NotAfter(b.alerts, now)
    ensures var a := Accepted(b, data, nowStr, now, db);
      && BoardOk(a)
      && a.trend[|a.trend| - 1] == TrendPoint(nowStr, Get(a.liveCounts, "people_count").GetOr(Int(0)))
      && a.alerts[..|b.alerts|] == b.alerts
      && NotAfter(a.alerts, now)
  {
    MergeDistinct(b.liveCounts, data);
    var items := Flatten(Get(Merge(b.liveCounts, data), "zones").GetOr(ZoneList([])));
    AlertsKeepSpacing(b.alerts, items, now, db);
  }

  // ----- sync_threshold -----

  /** `sync_threshold(z)`: the raw name, then the stripped second `':'` piece when the name
      has a `':'`; the first one the database knows sets the threshold. */
  function SyncThreshold(z: ZoneItem, db: Dict<string, int>): (r: ZoneItem)
    ensures r.name == z.name && r.count == z.count && r.coords == z.coords
    ensures Get(db, z.name.GetOr("")).Some? ==> r.threshold == Get(db, z.name.GetOr(""))
    ensures var raw := z.name.GetOr(""); var parts := Split(raw, ':');
      var fallback := if ':' in raw && |parts| > 1 then Get(db, Strip(parts[1], IsSpace)) else None;
      && (Get(db, raw).None? && fallback.Some? ==> r.threshold == fallback)
      && (Get(db, raw).None? && fallback.None? ==> r == z)
  {
    var raw := z.name.GetOr("");
    var parts := Split(raw, ':');
    if Get(db, raw).Some? then z.(threshold := Get(db, raw))
    else if ':' in raw && |parts| > 1 && Get(db, Strip(parts[1], IsSpace)).Some? then
      z.(threshold := Get(db, Strip(parts[1], IsSpace)))
    else z
  }

  /** A zone renamed by the detection loop (`C<i+1>: <name>`) takes the threshold the
      database holds for its bare name. */
  lemma SyncFindsRenamedZone(i: nat, z: Detection.ZoneStat, db: Dict<string, int>)
    requires var n := Orchestrator.PyStr(z.name); ':' !in n && (n != [] ==> !IsSpace(n[0]) && !IsSpace(n[|n| - 1]))
    requires Get(db, Orchestrator.CamLabel(i) + ": " + Orchestrator.PyStr(z.name)).None?
    ensures SyncThreshold(Orchestrator.Renamed(i, z), db).threshold ==
      (if Get(db, Orchestrator.PyStr(z.name)).Some? then Get(db, Orchestrator.PyStr(z.name)) else None)
  {
    var n := Orchestrator.PyStr(z.name);
    var cam := Orchestrator.CamLabel(i);
    assert Orchestrator.Renamed(i, z).name.GetOr("") == cam + ": " + n;
    CamLabelHasNoColon(i);
    LabelledNameSplits(cam, n);
  }

  /** A camera label is `C` and digits. */
  lemma CamLabelHasNoColon(i: nat)
    ensures ':' !in Orchestrator.CamLabel(i)
  {
    var cam := Orchestrator.CamLabel(i);
    assert forall k :: 0 <= k < |cam| ==> cam[k] == 'C' || IsDigit(cam[k]);
  }

  /** `<cam>: <n>` has a `':'`, and its second `':'` piece, stripped, is `n`. */
  lemma LabelledNameSplits(cam: string, n: string)
    requires ':' !in cam && ':' !in n && (n != [] ==> !IsSpace(n[0]) && !IsSpace(n[|n| - 1]))
    ensures var raw := cam + ": " + n;
      ':' in raw && |Split(raw, ':')| > 1 && Strip(Split(raw, ':')[1], IsSpace) == n
  {
    var raw := cam + ": " + n;
    assert raw[|cam|] == ':';
    assert raw == cam + [':'] + (" " + n);
    SplitTwo(cam, ':', " " + n);
    StripLeadingSpace(n);
  }

  /** The threshold sync of a `zones` value. */
  function SyncedItems(items: seq<ZoneItem>, db: Dict<string, int>): (r: seq<ZoneItem>)
    ensures |r| == |items| && forall k :: 0 <= k < |items| ==> r[k] == SyncThreshold(items[k], db)
  {
    seq(|items|, k requires 0 <= k < |items| => SyncThreshold(items[k], db))
  }

  function SyncedCams(cams: Dict<string, seq<ZoneItem>>, db: Dict<string, int>): (r: Dict<string, seq<ZoneItem>>)
    ensures |r| == |cams| && forall k :: 0 <= k < |cams| ==> r[k] == (cams[k].0, SyncedItems(cams[k].1, db))
  {
    seq(|cams|, k requires 0 <= k < |cams| => (cams[k].0, SyncedItems(cams[k].1, db)))
  }

  function SyncedValue(v: Value, db: Dict<string, int>): Value {
    match v
    case ZoneList(items) => ZoneList(SyncedItems(items, db))
    case ZonesByCamera(cams) => ZonesByCamera(SyncedCams(cams, db))
    case _ => v
  }

  /** Syncing two stretches of items is syncing each of them. */
  lemma SyncedItemsAppend(a: seq<ZoneItem>, b: seq<ZoneItem>, db: Dict<string, int>)
    ensures SyncedItems(a + b, db) == SyncedItems(a, db) + SyncedItems(b, db)
  {
    var l, r := SyncedItems(a + b, db), SyncedItems(a, db) + SyncedItems(b, db);
    assert forall k :: 0 <= k < |l| ==> l[k] == r[k] by {
      forall k | 0 <= k < |l|
        ensures l[k] == r[k]
      {
        if k < |a| {
          assert (a + b)[k] == a[k];
        } else {
          assert (a + b)[k] == b[k - |a|];
        }
      }
    }
  }

  lemma {:induction false} ConcatSynced(lists: seq<seq<ZoneItem>>, synced: seq<seq<ZoneItem>>, db: Dict<string, int>)
    requires |synced| == |lists| && forall k :: 0 <= k < |lists| ==> synced[k] == SyncedItems(lists[k], db)
    ensures Concat(synced) == SyncedItems(Concat(lists), db)
  {
    if lists != [] {
      ConcatSynced(lists[1..], synced[1..], db);
      SyncedItemsAppend(lists[0], Concat(lists[1..]), db);
    }
  }

  /** Syncing the nested value syncs every flattened entry, in place. */
  lemma FlattenSynced(v: Value, db: Dict<string, int>)
    ensures Flatten(SyncedValue(v, db)) == SyncedItems(Flatten(v), db)
  {
    if v.ZonesByCamera? {
      ConcatSynced(Values(v.cams), Values(SyncedCams(v.cams, db)), db);
    }
  }

  /** `len(v)`; `None` where it raises. */
  function LenOf(v: Value): Option<nat> {
    match v
    case Str(s) => Some(|s|)
    case ZoneList(items) => Some(|items|)
    case ZonesByCamera(cams) => Some(|cams|)
    case Object(fields) => Some(|fields|)
    case _ => None
  }

  /** The alert query of `get_live_data`: the rows stamped no earlier than a day before `now`. */
  function RecentAlertCount(alerts: seq<AlertRow>, now: real): (n: nat)
    ensures n <= |alerts|
  {
    if alerts == [] then 0
    else RecentAlertCount(alerts[..|alerts| - 1], now) + (if alerts[|alerts| - 1].time >= now - ALERT_WINDOW then 1 else 0)
  }

  /** The count of two stretches of rows is the sum of their counts. */
  lemma {:induction false} RecentAlertCountAppend(a: seq<AlertRow>, b: seq<AlertRow>, now: real)
    ensures RecentAlertCount(a + b, now) == RecentAlertCount(a, now) + RecentAlertCount(b, now)
    decreases |b|
  {
    if b == [] {
      assert a + b == a;
    } else {
      assert (a + b)[..|a + b| - 1] == a + b[..|b| - 1];
      assert (a + b)[|a + b| - 1] == b[|b| - 1];
      RecentAlertCountAppend(a, b[..|b| - 1], now);
    }
  }

  /** Every row of the last day is counted, and no other row. */
  lemma {:induction false} RecentAlertCountBounds(alerts: seq<AlertRow>, now: real)
    ensures (forall i :: 0 <= i < |alerts| ==> alerts[i].time >= now - ALERT_WINDOW) ==> RecentAlertCount(alerts, now) == |alerts|
    ensures (forall i :: 0 <= i < |alerts| ==> alerts[i].time < now - ALERT_WINDOW) ==> RecentAlertCount(alerts, now) == 0
    ensures RecentAlertCount(alerts, now) == |alerts| ==> forall i :: 0 <= i < |alerts| ==> alerts[i].time >= now - ALERT_WINDOW
    decreases |alerts|
  {
    if alerts != [] {
      var init := alerts[..|alerts| - 1];
      RecentAlertCountBounds(init, now);
      assert forall i :: 0 <= i < |init| ==> init[i] == alerts[i];
    }
  }

  /** `get_live_data` on the live counts, with `alertCount` the alerts of the last day: the
      alert count and camera count set and every zone entry synced; a `cameras` value
      without a length stops it after the alert count. */
  function LiveView(live: Dict<string, Value>, alertCount: nat, db: Dict<string, int>): Dict<string, Value> {
    var l1 := Put(live, "alert_count", Int(alertCount));
    var n := LenOf(Get(l1, "cameras").GetOr(Object([])));
    if n.None? then l1
    else
      var l2 := Put(l1, "active_cameras", Int(n.value));
      var zones := Get(l2, "zones");
      if zones.None? then l2 else Put(l2, "zones", SyncedValue(zones.value, db))
  }

  /** The live view changes only the alert count, the camera count and the zone
      thresholds: every other key reads as before. */
  lemma LiveViewKeepsOtherKeys(live: Dict<string, Value>, alertCount: nat, db: Dict<string, int>, key: string)
    requires key != "alert_count" && key != "active_cameras" && key != "zones"
    ensures Get(LiveView(live, alertCount, db), key) == Get(live, key)
  {
    var l1 := Put(live, "alert_count", Int(alertCount));
    PutGet(live, "alert_count", Int(alertCount), key);
    var n := LenOf(Get(l1, "cameras").GetOr(Object([])));
    if n.Some? {
      var l2 := Put(l1, "active_cameras", Int(n.value));
      PutGet(l1, "active_cameras", Int(n.value), key);
      var zones := Get(l2, "zones");
      if zones.Some? {
        PutGet(l2, "zones", SyncedValue(zones.value, db), key);
      }
    }
  }

  /** The live view of a well-formed dict is well formed. */
  lemma LiveViewDistinct(live: Dict<string, Value>, alertCount: nat, db: Dict<string, int>)
    requires DistinctKeys(live)
    ensures DistinctKeys(LiveView(live, alertCount, db))
  {
    var l1 := Put(live, "alert_count", Int(alertCount));
    PutDistinct(live, "alert_count", Int(alertCount));
    var n := LenOf(Get(l1, "cameras").GetOr(Object([])));
    if n.Some? {
      var l2 := Put(l1, "active_cameras", Int(n.value));
      PutDistinct(l1, "active_cameras", Int(n.value));
      var zones := Get(l2, "zones");
      if zones.Some? {
        PutDistinct(l2, "zones", SyncedValue(zones.value, db));
      }
    }
  }

  /** The live view reports the alert count it was given. */
  lemma LiveViewAlertCount(live: Dict<string, Value>, alertCount: nat, db: Dict<string, int>)
    ensures Get(LiveView(live, alertCount, db), "alert_count") == Some(Int(alertCount))
  {
    var l1 := Put(live, "alert_count", Int(alertCount));
    PutGet(live, "alert_count", Int(alertCount), "alert_count");
    var n := LenOf(Get(l1, "cameras").GetOr(Object([])));
    if n.Some? {
      var l2 := Put(l1, "active_cameras", Int(n.value));
      PutGet(l1, "active_cameras", Int(n.value), "alert_count");
      var zones := Get(l2, "zones");
      if zones.Some? {
        PutGet(l2, "zones", SyncedValue(zones.value, db), "alert_count");
      }
    }
  }

  /** When `cameras` has a length, the zone entries of the live view are the old ones, each
      synced with the database. */
  lemma LiveViewSyncsZones(live: Dict<string, Value>, alertCount: nat, db: Dict<string, int>)
    requires LenOf(Get(live, "cameras").GetOr(Object([]))).Some?
    ensures Flatten(Get(LiveView(live, alertCount, db), "zones").GetOr(ZoneList([])))
      == SyncedItems(Flatten(Get(live, "zones").GetOr(ZoneList([]))), db)
  {
    var l1 := Put(live, "alert_count", Int(alertCount));
    PutGet(live, "alert_count", Int(alertCount), "cameras");
    PutGet(live, "alert_count", Int(alertCount), "zones");
    var n := LenOf(Get(l1, "cameras").GetOr(Object([])));
    var l2 := Put(l1, "active_cameras", Int(n.value));
    PutGet(l1, "active_cameras", Int(n.value), "zones");
    var zones := Get(l2, "zones");
    if zones.Some? {
      PutGet(l2, "zones", SyncedValue(zones.value, db), "zones");
      FlattenSynced(zones.value, db);
    }
  }

  // ----- downsample -----

  /** `t[:5] if len(t) >= 5 else t`: the `HH:MM` of a `HH:MM:SS` time. */
  function Minute(t: string): (m: string)
    ensures |m| <= 5 && StartsWith(t, m)
  {
    if |t| >= 5 then t[..5] else t
  }

  function PointMinute(p: TrendPoint): string { Minute(p.time) }
  function PointCount(p: TrendPoint): Value { p.count }

  /** The `sampled` dict of `downsample`. */
  function Sampled(ps: seq<TrendPoint>): (d: Dict<string, Value>)
    ensures DistinctKeys(d)
  {
    Collected(ps, PointMinute, PointCount)
  }

  /** The labels are exactly the minutes of the points. */
  lemma DownsampleLabels(ps: seq<TrendPoint>, minute: string)
    ensures Get(Sampled(ps), minute).Some? <==> exists j :: 0 <= j < |ps| && Minute(ps[j].time) == minute
  {
    CollectedGet(ps, PointMinute, PointCount, minute);
  }

  /** Each label carries the count of the last point of its minute. */
  lemma DownsampleKeepsLast(ps: seq<TrendPoint>, j: nat)
    requires j < |ps| && forall j' :: j < j' < |ps| ==> Minute(ps[j'].time) != Minute(ps[j].time)
    ensures Get(Sampled(ps), Minute(ps[j].time)) == Some(ps[j].count)
  {
    CollectedGet(ps, PointMinute, PointCount, Minute(ps[j].time));
    LastKeyedAt(ps, PointMinute, PointCount, j);
  }

  /** Labels appear in the order their minute first appears. */
  lemma DownsampleFirstAppearanceOrder(ps: seq<TrendPoint>, n: nat)
    requires n <= |ps|
    ensures |Sampled(ps[..n])| <= |Sampled(ps)| && Keys(Sampled(ps))[..|Sampled(ps[..n])|] == Keys(Sampled(ps[..n]))
  {
    CollectedPrefix(ps, PointMinute, PointCount, n);
  }

  // ----- the store -----

  /** The module globals `live_counts`, `trend_history` and `command_queue`, and the alert
      and analytics tables. */
  class DashboardStore {
    var liveCounts: Dict<string, Value>
    var trend: seq<TrendPoint>
    var commandQueue: seq<Command>
    var alerts: seq<AlertRow>
    var analytics: seq<AnalyticsRow>

    function State(): Board
      reads this
    {
      Board(liveCounts, trend, commandQueue, alerts, analytics)
    }

    ghost predicate Valid()
      reads this
    {
      BoardOk(State())
    }

    constructor ()
      ensures Valid()
      ensures State() == Board(InitialLiveCounts, [], [], [], [])
    {
      liveCounts := InitialLiveCounts;
      trend := [];
      commandQueue := [];
      alerts := [];
      analytics := [];
    }

    /** `update_counts`, with `data` the JSON body (`None` when there is none), `nowStr`
        and `now` the clock, and `db` the zone thresholds of the database. A missing or
        empty body is ignored and leaves the command queue alone; otherwise the queued
        commands are returned, oldest first, and the queue is emptied. */
    method UpdateCounts(data: Option<Dict<string, Value>>, nowStr: string, now: real, db: Dict<string, int>)
      returns (ignored: bool, cmds: seq<Command>)
      requires Valid() && NotAfter(alerts, now)
      requires data.Some? ==> DistinctKeys(data.value)
      modifies this
      ensures Valid() && NotAfter(alerts, now)
      ensures ignored <==> data.None? || data.value == []
      ensures ignored ==> State() == old(State()) && cmds == []
      ensures !ignored ==> cmds == old(commandQueue) && State() == Accepted(old(State()), data.value, nowStr, now, db)
    {
      if data.None? || data.value == [] {
        return true, [];
      }
      AcceptedKeepsBoardOk(State(), data.value, nowStr, now, db);
      liveCounts := Merge(liveCounts, data.value);
      var count := Get(liveCounts, "people_count").GetOr(Int(0));
      trend := trend + [TrendPoint(nowStr, count)];
      if |trend| > TREND_SIZE {
        trend := trend[1..];
      }
      if ShouldSaveGlobal(analytics, now) {
        analytics := analytics + [AnalyticsRow(GLOBAL_ZONE, count, now)];
      }
      var items := Flatten(Get(liveCounts, "zones").GetOr(ZoneList([])));
      RaiseAlerts(items, now, db);
      ignored := false;
      cmds := commandQueue;
      commandQueue := [];
    }

    /** The alert loop of `update_counts`. */
    method RaiseAlerts(items: seq<ZoneItem>, now: real, db: Dict<string, int>)
      modifies this`alerts
      ensures alerts == AlertsAfter(old(alerts), items, now, db)
    {
      ghost var start := alerts;
      var k := 0;
      while k < |items|
        invariant 0 <= k <= |items| && alerts == AlertsAfter(start, items[..k], now, db)
      {
        AlertsAfterSnoc(start, items, k, now, db);
        var a := AlertFor(alerts, items[k], now, db);
        if a.Some? {
          alerts := alerts + [a.value];
        }
        k := k + 1;
      }
      assert items[..k] == items;
    }

    /** `get_live_data` at time `now`: the alerts of the last day are counted, and the live
        counts are updated in place and returned. */
    method GetLiveData(now: real, db: Dict<string, int>) returns (view: Dict<string, Value>)
      requires Valid()
      modifies this`liveCounts
      ensures Valid()
      ensures liveCounts == LiveView(old(liveCounts), RecentAlertCount(alerts, now), db) && view == liveCounts
    {
      var alertCount := RecentAlertCount(alerts, now);
      LiveViewDistinct(liveCounts, alertCount, db);
      view := Put(liveCounts, "alert_count", Int(alertCount));
      var n := LenOf(Get(view, "cameras").GetOr(Object([])));
      if n.Some? {
        view := Put(view, "active_cameras", Int(n.value));
        var zones := Get(view, "zones");
        if zones.Some? {
          var synced := SyncZones(zones.value, db);
          view := Put(view, "zones", synced);
        }
      }
      liveCounts := view;
    }

    /** The sync loops over a list of zone entries or over each camera's list. */
    static method SyncZones(v: Value, db: Dict<string, int>) returns (r: Value)
      ensures r == SyncedValue(v, db)
    {
      match v {
        case ZoneList(items) =>
          var synced := SyncList(items, db);
          r := ZoneList(synced);
        case ZonesByCamera(cams) =>
          var out: Dict<string, seq<ZoneItem>> := [];
          var k := 0;
          while k < |cams|
            invariant 0 <= k <= |cams| && |out| == k
            invariant forall j :: 0 <= j < k ==> out[j] == (cams[j].0, SyncedItems(cams[j].1, db))
          {
            var synced := SyncList(cams[k].1, db);
            out := out + [(cams[k].0, synced)];
            k := k + 1;
          }
          r := ZonesByCamera(out);
        case _ =>
          r := v;
      }
    }

    static method SyncList(items: seq<ZoneItem>, db: Dict<string, int>) returns (r: seq<ZoneItem>)
      ensures r == SyncedItems(items, db)
    {
      r := [];
      var k := 0;
      while k < |items|
        invariant 0 <= k <= |items| && r == SyncedItems(items[..k], db)
      {
        r := r + [SyncThreshold(items[k], db)];
        k := k + 1;
      }
      assert items[..k] == items;
    }

    /** `downsample(trend_history)` of `get_analytics`: the labels and the data of the
        minute buckets. */
    method Downsample() returns (labels: seq<string>, data: seq<Value>)
      ensures labels == Keys(Sampled(trend)) && data == Values(Sampled(trend))
      ensures |labels| == |data| && forall i, j :: 0 <= i < j < |labels| ==> labels[i] != labels[j]
    {
      var sampled: Dict<string, Value> := [];
      var k := 0;
      while k < |trend|
        invariant 0 <= k <= |trend| && sampled == Sampled(trend[..k])
      {
        assert trend[..k + 1][..k] == trend[..k];
        sampled := Put(sampled, Minute(trend[k].time), trend[k].count);
        k := k + 1;
      }
      assert trend[..k] == trend;
      labels := Keys(sampled);
      data := Values(sampled);
    }

    /** `get_commands`: every queued command, oldest first; none remain. */
    method GetCommands() returns (cmds: seq<Command>)
      modifies this`commandQueue
      ensures cmds == old(commandQueue) && commandQueue == []
    {
      cmds := commandQueue;
      commandQueue := [];
    }

    /** `post_command`: the command joins the tail of the queue. */
    method PostCommand(cmd: Command)
      modifies this`commandQueue
      ensures commandQueue == old(commandQueue) + [cmd]
    {
      commandQueue := commandQueue + [cmd];
    }
  }
}
