/** Re-identification bookkeeping: the gallery of known people, the binding of tracker
    track ids to global ids, the pending feature buffers of unconfirmed tracks, and the
    allocation of fresh global ids. Appearance features and their comparison are abstract:
    only the decisions taken on the similarity values are modelled. */
module ReId {
  import opened Common
  import opened Strings

  /** An appearance feature vector. */
  type Feature = seq<real>

  const REID_SIMILARITY_THRESHOLD: real := 0.65
  const REID_GALLERY_SIZE: nat := 5
  const REID_MEMORY_TIME: real := 63072000.0
  const REID_CONFIRM_FRAMES: nat := 1

  /** The numeric parts, left abstract: cosine similarity, the element-wise mean of several
      vectors (including the fallback to the newest vector when they cannot be stacked),
      and scaling to unit length. */
  datatype Metric = Metric(
    similarity: (Feature, Feature) -> real,
    average: seq<Feature> -> Feature,
    normalize: Feature -> Feature)

  /** A known person: the most recent feature vectors (oldest first) and when it was last seen. */
  datatype Identity = Identity(features: seq<Feature>, lastSeen: real)

  /** `gallery`: global id to identity, in insertion order. */
  type Gallery = Dict<int, Identity>

  /** The whole bookkeeping of a gallery object. */
  datatype GalleryState = GalleryState(
    gallery: Gallery,
    bindings: map<int, int>,
    next: int,
    buffers: map<int, seq<Feature>>)

  /** What the bookkeeping keeps true: gallery keys are unique, below the next id to hand
      out, and each carries between one and `REID_GALLERY_SIZE` vectors; bound global ids
      are below the next id too; a track with a pending buffer is unbound and its buffer is
      non-empty and shorter than the confirmation window. */
  ghost predicate Inv(s: GalleryState, confirm: nat) {
    && GalleryOk(s.gallery, s.next)
    && (forall t :: t in s.bindings ==> s.bindings[t] < s.next)
    && (forall t :: t in s.buffers ==> t !in s.bindings && 1 <= |s.buffers[t]| < confirm)
  }

  /** The gallery part of the invariant, for the next id `next`. */
  ghost predicate GalleryOk(g: Gallery, next: int) {
    && DistinctKeys(g)
    && forall i :: 0 <= i < |g| ==> g[i].0 < next && 1 <= |g[i].1.features| <= REID_GALLERY_SIZE
  }

  // ---------------- Matching ----------------

  function Tagged(gid: int, fs: seq<Feature>): (c: seq<(int, Feature)>)
    ensures |c| == |fs|
    ensures forall k :: 0 <= k < |fs| ==> c[k] == (gid, fs[k])
  {
    seq(|fs|, k requires 0 <= k < |fs| => (gid, fs[k]))
  }

  /** Every stored (global id, vector) pair, in the order the matcher visits them: identities
      in gallery order, each identity's vectors oldest first. */
  function Candidates(g: Gallery): seq<(int, Feature)> {
    if g == [] then [] else Candidates(g[..|g| - 1]) + Tagged(g[|g| - 1].0, g[|g| - 1].1.features)
  }

  /** The similarity of `f` to each candidate. */
  function Sims(c: seq<(int, Feature)>, f: Feature, sim: (Feature, Feature) -> real): (s: seq<real>)
    ensures |s| == |c|
    ensures forall k :: 0 <= k < |c| ==> s[k] == sim(f, c[k].1)
  {
    seq(|c|, k requires 0 <= k < |c| => sim(f, c[k].1))
  }

  /** The left-to-right scan of `_find_best_match`: starting from `0.0`, a value replaces the
      best only when strictly greater. The result is the position of the first greatest
      value and that value, or no position and `0.0` when no value is positive. */
  function Scan(s: seq<real>): (r: (Option<nat>, real))
    ensures r.1 >= 0.0
    ensures forall k :: 0 <= k < |s| ==> s[k] <= r.1
    ensures r.0.None? ==> r.1 == 0.0
    ensures r.0.Some? ==>
      r.0.value < |s| && s[r.0.value] == r.1 && r.1 > 0.0
      && forall k :: 0 <= k < r.0.value ==> s[k] < r.1
  {
    if s == [] then (None, 0.0)
    else
      var prior := Scan(s[..|s| - 1]);
      if s[|s| - 1] > prior.1 then (Some(|s| - 1), s[|s| - 1]) else prior
  }

  /** The scan of `_find_best_match` over the candidates themselves: the id of the first
      candidate with the greatest similarity, if any is positive, with that similarity. */
  function ScanCandidates(c: seq<(int, Feature)>, f: Feature, sim: (Feature, Feature) -> real): (Option<int>, real) {
    if c == [] then (None, 0.0)
    else
      var prior := ScanCandidates(c[..|c| - 1], f, sim);
      var v := sim(f, c[|c| - 1].1);
      if v > prior.1 then (Some(c[|c| - 1].0), v) else prior
  }

  /** Scanning the candidates is scanning their similarities and reading off the winner. */
  lemma {:induction false} ScanCandidatesIsScan(c: seq<(int, Feature)>, f: Feature, sim: (Feature, Feature) -> real)
    ensures var best := Scan(Sims(c, f, sim));
      ScanCandidates(c, f, sim) == (if best.0.Some? then Some(c[best.0.value].0) else None, best.1)
  {
    if c != [] {
      ScanCandidatesIsScan(c[..|c| - 1], f, sim);
      assert Sims(c, f, sim)[..|c| - 1] == Sims(c[..|c| - 1], f, sim);
    }
  }

  /** `_find_best_match(f)`: the best-scoring global id with its score when that score
      reaches the threshold, otherwise nothing and `0.0`. */
  function Match(g: Gallery, f: Feature, sim: (Feature, Feature) -> real): (Option<int>, real) {
    var best := ScanCandidates(Candidates(g), f, sim);
    if best.1 >= REID_SIMILARITY_THRESHOLD then best else (None, 0.0)
  }

  /** A match is found exactly when some stored vector is similar enough; the winner is
      the first candidate reaching the greatest similarity, and no candidate beats it. */
  lemma MatchSpec(g: Gallery, f: Feature, sim: (Feature, Feature) -> real)
    ensures var c, s, r := Candidates(g), Sims(Candidates(g), f, sim), Match(g, f, sim);
      && (r.0.Some? <==> exists k :: 0 <= k < |s| && s[k] >= REID_SIMILARITY_THRESHOLD)
      && (r.0.None? ==> r.1 == 0.0)
      && (r.0.Some? ==> r.1 >= REID_SIMILARITY_THRESHOLD && forall k :: 0 <= k < |s| ==> s[k] <= r.1)
      && (r.0.Some? ==> exists k :: 0 <= k < |c| && c[k].0 == r.0.value && s[k] == r.1
                                     && forall j :: 0 <= j < k ==> s[j] < r.1)
  {
    var c, s := Candidates(g), Sims(Candidates(g), f, sim);
    var best := Scan(s);
    ScanCandidatesIsScan(c, f, sim);
    if best.0.Some? && best.1 >= REID_SIMILARITY_THRESHOLD {
      var k := best.0.value;
      assert c[k].0 == Match(g, f, sim).0.value && s[k] == best.1;
    }
  }

  // ---------------- Gallery updates ----------------

  /** `_update_gallery(gid, crop)` with `features` the extraction result: the vector joins
      the identity's bounded deque (the identity is created when new) and `now` becomes its
      last-seen time; a failed extraction changes nothing. */
  function Record(g: Gallery, gid: int, features: Option<Feature>, now: real): Gallery {
    if features.None? then g
    else
      var kept := match Get(g, gid) case Some(id) => id.features case None => [];
      Put(g, gid, Identity(AppendBounded(kept, features.value, REID_GALLERY_SIZE), now))
  }

  /** A failed extraction changes nothing; otherwise `gid` reads an identity last seen now
      whose newest vector is the new one, with at most `REID_GALLERY_SIZE` vectors. */
  lemma RecordSpec(g: Gallery, gid: int, features: Option<Feature>, now: real)
    ensures var r := Record(g, gid, features, now);
      && (features.None? ==> r == g)
      && (features.Some? ==>
           && Get(r, gid).Some? && Get(r, gid).value.lastSeen == now
           && var fs := Get(r, gid).value.features;
              1 <= |fs| <= REID_GALLERY_SIZE && fs[|fs| - 1] == features.value)
  {
    if features.Some? {
      var kept := match Get(g, gid) case Some(id) => id.features case None => [];
      var fs := AppendBounded(kept, features.value, REID_GALLERY_SIZE);
      assert 1 <= |fs| <= REID_GALLERY_SIZE && fs[|fs| - 1] == features.value by {
        AppendBoundedEnds(kept, features.value, REID_GALLERY_SIZE);
      }
      PutGet(g, gid, Identity(fs, now), gid);
    }
  }

  /** Recording keeps the place of a known id and adds a new one at the end. */
  lemma RecordKeys(g: Gallery, gid: int, features: Option<Feature>, now: real)
    ensures var r := Record(g, gid, features, now);
      && (Get(g, gid).Some? ==> Keys(r) == Keys(g))
      && (Get(g, gid).None? && features.Some? ==> Keys(r) == Keys(g) + [gid])
  {
    if features.Some? && Get(g, gid).None? {
      var fs := AppendBounded([], features.value, REID_GALLERY_SIZE);
      KeysSnoc(g, gid, Identity(fs, now));
    }
  }

  /** Refreshing the last-seen time of `gid`, if it is in the gallery. */
  function Touch(g: Gallery, gid: int, now: real): (r: Gallery)
    ensures Keys(r) == Keys(g)
  {
    match Get(g, gid)
    case Some(id) => Put(g, gid, id.(lastSeen := now))
    case None => g
  }

  /** `Touch` leaves every identity's vectors alone and moves no identity; only the first
      entry for `gid` gets the new time. */
  lemma TouchOnlyTime(g: Gallery, gid: int, now: real, i: nat)
    requires DistinctKeys(g) && i < |g|
    ensures |Touch(g, gid, now)| == |g|
    ensures Touch(g, gid, now)[i] == if g[i].0 == gid then (gid, g[i].1.(lastSeen := now)) else g[i]
  {
    var r := Get(g, gid);
    assert |Touch(g, gid, now)| == |Keys(g)|;
    if g[i].0 == gid {
      GetDistinct(g, i);
      var v := g[i].1.(lastSeen := now);
      var t := Put(g, gid, v);
      PutDistinct(g, gid, v);
      PutGet(g, gid, v, gid);
      GetDistinct(t, i);
    }
  }

  // ---------------- Identity assignment ----------------

  /** Bind track `t` to `gid`, record the vector under `gid` and drop the track's buffer. */
  function Bind(s: GalleryState, t: int, gid: int, f: Feature, now: real): GalleryState {
    s.(bindings := s.bindings[t := gid], gallery := Record(s.gallery, gid, Some(f), now),
       buffers := s.buffers - {t})
  }

  /** `get_global_id(t, crop)`, with `features` the extraction result for the crop.
      Returns the new state and the id handed back. */
  function GetGlobal(s: GalleryState, t: nat, features: Option<Feature>, now: real, m: Metric,
                     confirm: nat): (GalleryState, int)
  {
    if t in s.bindings then
      var gid := s.bindings[t];
      (s.(gallery := Touch(s.gallery, gid, now)), gid)
    else if features.None? then (s, -(t as int))
    else Assign(s, t, features.value, now, m, confirm)
  }

  /** An unbound track with vector `f`: bound to the best match, if any; otherwise the
      vector goes into its pending buffer. */
  function Assign(s: GalleryState, t: nat, f: Feature, now: real, m: Metric, confirm: nat): (GalleryState, int) {
    var first := Match(s.gallery, f, m.similarity);
    if first.0.Some? then (Bind(s, t, first.0.value, f, now), first.0.value)
    else
      var buf := (if t in s.buffers then s.buffers[t] else []) + [f];
      var pending := s.(buffers := s.buffers[t := buf]);
      if |buf| < confirm then (pending, -(t as int))
      else Confirm(pending, t, f, buf, now, m)
  }

  /** A full buffer: the track is bound to the best match for the buffer's average, or to a
      newly allocated id. */
  function Confirm(s: GalleryState, t: nat, f: Feature, buf: seq<Feature>, now: real, m: Metric): (GalleryState, int) {
    var second := Match(s.gallery, m.average(buf), m.similarity);
    if second.0.Some? then (Bind(s, t, second.0.value, f, now), second.0.value)
    else (Bind(s.(next := s.next + 1), t, s.next, f, now), s.next)
  }

  /** `get_global_id` on a bound track gives its id back; only the gallery's last-seen
      time of that id may change. */
  lemma BoundTrackOutcome(s: GalleryState, t: nat, features: Option<Feature>, now: real, m: Metric,
                          confirm: nat)
    requires t in s.bindings
    ensures var r := GetGlobal(s, t, features, now, m, confirm);
      && r.1 == s.bindings[t]
      && r.0 == s.(gallery := Touch(s.gallery, r.1, now))
  {
  }

  /** `get_global_id` on an unbound track whose features could not be extracted answers
      `-t` and changes nothing. */
  lemma FailedExtractionOutcome(s: GalleryState, t: nat, now: real, m: Metric, confirm: nat)
    requires t !in s.bindings
    ensures GetGlobal(s, t, None, now, m, confirm) == (s, -(t as int))
  {
  }

  /** `get_global_id` allocates at most one id, and a newly allocated id is the answer. */
  lemma AllocationOutcome(s: GalleryState, t: nat, features: Option<Feature>, now: real, m: Metric,
                          confirm: nat)
    ensures var r := GetGlobal(s, t, features, now, m, confirm);
      r.0.next == s.next || (r.0.next == s.next + 1 && r.1 == s.next)
  {
    if t !in s.bindings && features.Some? {
      var f := features.value;
      var buf := (if t in s.buffers then s.buffers[t] else []) + [f];
      if Match(s.gallery, f, m.similarity).0.None? && |buf| >= confirm {
        var second := Match(s.gallery, m.average(buf), m.similarity);
      }
    }
  }

  /** `get_global_id` on an unbound track with features: either the track stays pending
      (answer `-t`, its buffer grown by the new vector, nothing else changed), or it is bound
      to the answer, loses its buffer and the vector is recorded under the answer. */
  lemma UnboundTrackOutcome(s: GalleryState, t: nat, f: Feature, now: real, m: Metric, confirm: nat)
    requires t !in s.bindings
    ensures var r := GetGlobal(s, t, Some(f), now, m, confirm);
      var buf := (if t in s.buffers then s.buffers[t] else []) + [f];
      || (r.1 == -(t as int) && |buf| < confirm && r.0 == s.(buffers := s.buffers[t := buf]))
      || (r.0.bindings == s.bindings[t := r.1] && r.0.buffers == s.buffers - {t}
          && r.0.gallery == Record(s.gallery, r.1, Some(f), now))
  {
    var buf := (if t in s.buffers then s.buffers[t] else []) + [f];
    if Match(s.gallery, f, m.similarity).0.None? && |buf| >= confirm {
      var pending := s.(buffers := s.buffers[t := buf]);
      assert pending.buffers - {t} == s.buffers - {t};
      assert GetGlobal(s, t, Some(f), now, m, confirm) == Confirm(pending, t, f, buf, now, m);
    }
  }

  /** A matched id is a key of the gallery. */
  lemma MatchInGallery(g: Gallery, f: Feature, sim: (Feature, Feature) -> real)
    ensures Match(g, f, sim).0.Some? ==> Get(g, Match(g, f, sim).0.value).Some?
  {
    var c := Candidates(g);
    var best := Scan(Sims(c, f, sim));
    ScanCandidatesIsScan(c, f, sim);
    if best.0.Some? {
      CandidatesFromGallery(g, best.0.value);
    }
  }

  /** Every candidate's id is a gallery key. */
  lemma {:induction false} CandidatesFromGallery(g: Gallery, k: nat)
    requires k < |Candidates(g)|
    ensures Get(g, Candidates(g)[k].0).Some?
  {
    var init := g[..|g| - 1];
    var last := g[|g| - 1];
    if k < |Candidates(init)| {
      CandidatesFromGallery(init, k);
      var i :| 0 <= i < |init| && init[i] == (Candidates(init)[k].0, Get(init, Candidates(init)[k].0).value);
      assert g[i] == init[i];
    } else {
      assert Candidates(g)[k].0 == last.0;
      assert g[|g| - 1] == last;
    }
  }

  /** `get_global_id` keeps the bookkeeping invariant. */
  lemma GetGlobalKeepsInv(s: GalleryState, t: nat, features: Option<Feature>, now: real, m: Metric,
                          confirm: nat)
    requires Inv(s, confirm)
    ensures Inv(GetGlobal(s, t, features, now, m, confirm).0, confirm)
  {
    if t in s.bindings {
      TouchKeepsInv(s, s.bindings[t], now, confirm);
    } else if features.Some? {
      AssignKeepsInv(s, t, features.value, now, m, confirm);
    }
  }

  /** Matching, buffering or confirming an unbound track keeps the invariant. */
  lemma AssignKeepsInv(s: GalleryState, t: nat, f: Feature, now: real, m: Metric, confirm: nat)
    requires Inv(s, confirm) && t !in s.bindings
    ensures Inv(Assign(s, t, f, now, m, confirm).0, confirm)
  {
    var buf := (if t in s.buffers then s.buffers[t] else []) + [f];
    if Match(s.gallery, f, m.similarity).0.Some? {
      MatchedKeepsInv(s, t, f, f, now, m, confirm);
    } else if |buf| >= confirm {
      ConfirmKeepsInv(s, t, f, buf, now, m, confirm);
    }
  }

  /** Confirming a track with a full buffer keeps the invariant of the state before the
      buffer grew. */
  lemma ConfirmKeepsInv(s: GalleryState, t: nat, f: Feature, buf: seq<Feature>, now: real, m: Metric,
                        confirm: nat)
    requires Inv(s, confirm)
    ensures Inv(Confirm(s.(buffers := s.buffers[t := buf]), t, f, buf, now, m).0, confirm)
  {
    var second := Match(s.gallery, m.average(buf), m.similarity);
    ConfirmIsBind(s, t, f, buf, now, m);
    if second.0.Some? {
      MatchedKeepsInv(s, t, m.average(buf), f, now, m, confirm);
    } else {
      BumpKeepsInv(s, confirm);
      RecordKeepsInv(s.(next := s.next + 1), t, s.next, f, now, confirm);
    }
  }

  /** Confirming binds the track either to the match for the buffer's average or to the
      next id, which is then raised; the grown buffer is dropped either way. */
  lemma ConfirmIsBind(s: GalleryState, t: nat, f: Feature, buf: seq<Feature>, now: real, m: Metric)
    ensures var second := Match(s.gallery, m.average(buf), m.similarity);
      Confirm(s.(buffers := s.buffers[t := buf]), t, f, buf, now, m).0 ==
        if second.0.Some? then Bind(s, t, second.0.value, f, now)
        else Bind(s.(next := s.next + 1), t, s.next, f, now)
  {
    var second := Match(s.gallery, m.average(buf), m.similarity);
    if second.0.Some? {
      BindPending(s, t, buf, second.0.value, f, now);
    } else {
      BindPending(s.(next := s.next + 1), t, buf, s.next, f, now);
    }
  }

  /** Binding drops the track's buffer, so what the buffer held beforehand does not matter. */
  lemma BindPending(s: GalleryState, t: int, buf: seq<Feature>, gid: int, f: Feature, now: real)
    ensures Bind(s.(buffers := s.buffers[t := buf]), t, gid, f, now) == Bind(s, t, gid, f, now)
  {
    assert s.buffers[t := buf] - {t} == s.buffers - {t};
  }

  /** Raising the next id keeps the invariant. */
  lemma BumpKeepsInv(s: GalleryState, confirm: nat)
    requires Inv(s, confirm)
    ensures Inv(s.(next := s.next + 1), confirm)
  {
  }

  /** Refreshing a last-seen time keeps the invariant. */
  lemma TouchKeepsInv(s: GalleryState, gid: int, now: real, confirm: nat)
    requires Inv(s, confirm)
    ensures Inv(s.(gallery := Touch(s.gallery, gid, now)), confirm)
  {
    TouchKeepsGalleryOk(s.gallery, gid, now, s.next);
  }

  /** Refreshing a last-seen time keeps the gallery part of the invariant. */
  lemma TouchKeepsGalleryOk(g: Gallery, gid: int, now: real, next: int)
    requires GalleryOk(g, next)
    ensures GalleryOk(Touch(g, gid, now), next)
  {
    var r := Touch(g, gid, now);
    forall i | 0 <= i < |r|
      ensures r[i].0 < next && 1 <= |r[i].1.features| <= REID_GALLERY_SIZE
    {
      TouchOnlyTime(g, gid, now, i);
    }
    KeysDistinct(g, r);
  }

  /** Binding a track to the id matched for `probe` keeps the invariant. */
  lemma MatchedKeepsInv(s: GalleryState, t: int, probe: Feature, f: Feature, now: real, m: Metric,
                        confirm: nat)
    requires Inv(s, confirm) && Match(s.gallery, probe, m.similarity).0.Some?
    ensures Inv(Bind(s, t, Match(s.gallery, probe, m.similarity).0.value, f, now), confirm)
  {
    var gid := Match(s.gallery, probe, m.similarity).0.value;
    MatchInGallery(s.gallery, probe, m.similarity);
    var w :| 0 <= w < |s.gallery| && s.gallery[w] == (gid, Get(s.gallery, gid).value);
    RecordKeepsInv(s, t, gid, f, now, confirm);
  }

  /** Two dicts with the same key sequence have distinct keys together. */
  lemma KeysDistinct<V, W>(d: Dict<int, V>, e: Dict<int, W>)
    requires DistinctKeys(d) && Keys(d) == Keys(e)
    ensures DistinctKeys(e)
  {
    forall i, j | 0 <= i < j < |e| ensures e[i].0 != e[j].0 {
      assert e[i].0 == Keys(e)[i] && e[j].0 == Keys(e)[j];
      assert d[i].0 == Keys(d)[i] && d[j].0 == Keys(d)[j];
    }
  }

  /** Binding a track to an id that is a gallery key or below the next id keeps the invariant. */
  lemma RecordKeepsInv(s: GalleryState, t: int, gid: int, f: Feature, now: real, confirm: nat)
    requires Inv(s, confirm) && gid < s.next
    ensures Inv(Bind(s, t, gid, f, now), confirm)
  {
    RecordKeepsGalleryOk(s.gallery, gid, f, now, s.next);
  }

  /** Recording a vector under an id below the next id keeps the gallery part of the
      invariant. */
  lemma RecordKeepsGalleryOk(g: Gallery, gid: int, f: Feature, now: real, next: int)
    requires GalleryOk(g, next) && gid < next
    ensures GalleryOk(Record(g, gid, Some(f), now), next)
  {
    var kept := match Get(g, gid) case Some(id) => id.features case None => [];
    var v := Identity(AppendBounded(kept, f, REID_GALLERY_SIZE), now);
    assert Record(g, gid, Some(f), now) == Put(g, gid, v);
    PutKeepsGalleryOk(g, gid, v, next);
  }

  /** Storing an identity with between one and `REID_GALLERY_SIZE` vectors under an id below
      the next id keeps the gallery part of the invariant. */
  lemma PutKeepsGalleryOk(g: Gallery, gid: int, v: Identity, next: int)
    requires GalleryOk(g, next) && gid < next && 1 <= |v.features| <= REID_GALLERY_SIZE
    ensures GalleryOk(Put(g, gid, v), next)
  {
    var r := Put(g, gid, v);
    PutDistinct(g, gid, v);
    forall i | 0 <= i < |r| ensures r[i].0 < next && 1 <= |r[i].1.features| <= REID_GALLERY_SIZE {
      PutAt(g, gid, v, i);
    }
  }

  /** A newly created id was never handed out before: it is no gallery key and no track is
      bound to it. */
  lemma NewIdIsFresh(s: GalleryState, t: nat, features: Option<Feature>, now: real, m: Metric,
                     confirm: nat)
    requires Inv(s, confirm)
    ensures var r := GetGlobal(s, t, features, now, m, confirm);
      r.0.next == s.next + 1 ==>
        && Get(s.gallery, r.1).None?
        && forall u :: u in s.bindings ==> s.bindings[u] != r.1
  {
    AllocationOutcome(s, t, features, now, m, confirm);
  }

  /** An unbound track that gets a non-pending answer is bound to it afterwards and has no
      buffer; a pending answer is `-t` and leaves the track unbound with a buffer. */
  lemma UnboundOutcome(s: GalleryState, t: nat, f: Feature, now: real, m: Metric, confirm: nat)
    requires t !in s.bindings
    ensures var r := GetGlobal(s, t, Some(f), now, m, confirm);
      || (r.1 == -(t as int) && t !in r.0.bindings && t in r.0.buffers)
      || (t in r.0.bindings && r.0.bindings[t] == r.1 && t !in r.0.buffers)
  {
    UnboundTrackOutcome(s, t, f, now, m, confirm);
  }

  /** `remove_track(t)`: refresh the bound identity's time and forget the binding; nothing
      happens to an unbound track. */
  function Unbind(s: GalleryState, t: int, now: real): (r: GalleryState)
    ensures t !in r.bindings
    ensures t !in s.bindings ==> r == s
    ensures r.bindings == s.bindings - {t} && r.next == s.next && r.buffers == s.buffers
    ensures Keys(r.gallery) == Keys(s.gallery)
  {
    if t in s.bindings then
      s.(gallery := Touch(s.gallery, s.bindings[t], now), bindings := s.bindings - {t})
    else s
  }

  /** `remove_track` of a bound track refreshes its identity: that identity reads back with
      the time `now` and its vectors unchanged, and every other identity is unchanged. */
  lemma {:induction false} UnbindRefreshes(s: GalleryState, t: int, now: real, i: nat)
    requires DistinctKeys(s.gallery) && t in s.bindings && i < |s.gallery|
    ensures var g := Unbind(s, t, now).gallery;
      && |g| == |s.gallery|
      && (s.gallery[i].0 == s.bindings[t] ==> g[i] == (s.bindings[t], s.gallery[i].1.(lastSeen := now)))
      && (s.gallery[i].0 != s.bindings[t] ==> g[i] == s.gallery[i])
  {
    TouchOnlyTime(s.gallery, s.bindings[t], now, i);
  }

  /** `remove_track` keeps the bookkeeping invariant. */
  lemma UnbindKeepsInv(s: GalleryState, t: int, now: real, confirm: nat)
    requires Inv(s, confirm)
    ensures Inv(Unbind(s, t, now), confirm)
  {
    if t in s.bindings {
      TouchKeepsGalleryOk(s.gallery, s.bindings[t], now, s.next);
    }
  }

  // ---------------- Ageing ----------------

  predicate Expired(id: Identity, now: real) {
    now - id.lastSeen > REID_MEMORY_TIME
  }

  /** The identities seen within the memory time, in gallery order. */
  function Recent(g: Gallery, now: real): (r: Gallery)
    ensures forall i :: 0 <= i < |r| ==> r[i] in g && !Expired(r[i].1, now)
    ensures forall i :: 0 <= i < |g| && !Expired(g[i].1, now) ==> g[i] in r
  {
    if g == [] then [] else (if Expired(g[0].1, now) then [] else [g[0]]) + Recent(g[1..], now)
  }

  /** Deleting the keys of the expired identities from a gallery with distinct keys leaves
      exactly the recent ones. */
  lemma {:induction false} WithoutExpired(g: Gallery, ks: set<int>, now: real)
    requires DistinctKeys(g)
    requires forall i :: 0 <= i < |g| ==> (g[i].0 in ks <==> Expired(g[i].1, now))
    ensures Without(g, ks) == Recent(g, now)
  {
    if g != [] {
      WithoutExpired(g[1..], ks, now);
    }
  }

  // ---------------- Loading ----------------

  /** A stored `features`/`feature` value: one vector or a list of vectors. */
  datatype RawFeatures = Vector(v: Feature) | Matrix(rows: seq<Feature>)

  /** One stored identity. `Broken` is an entry whose processing raises (not an object,
      rows of different lengths, an unconvertible time). */
  datatype RawIdentity =
    | RawIdentity(features: Option<RawFeatures>, feature: Option<RawFeatures>, lastSeen: Option<real>)
    | Broken

  /** The gallery file: absent, not valid JSON, or its entries in file order. */
  datatype GalleryFile = NoFile | Unreadable | Parsed(entries: seq<(string, RawIdentity)>)

  /** Python truthiness of an optional list. */
  predicate Truthy(f: Option<RawFeatures>) {
    f.Some? && match f.value case Vector(v) => |v| > 0 case Matrix(rows) => |rows| > 0
  }

  /** `data.get("features") or data.get("feature")` */
  function StoredFeatures(e: RawIdentity): Option<RawFeatures>
    requires e.RawIdentity?
  {
    if Truthy(e.features) then e.features else e.feature
  }

  /** An entry that loads as `gid`: an integer key and some stored features. */
  predicate Loads(e: (string, RawIdentity), gid: int) {
    ParseInt(e.0) == Some(gid) && e.1.RawIdentity? && Truthy(StoredFeatures(e.1))
  }

  /** The identity loaded from a usable entry: one normalised vector (a list of vectors is
      averaged first), last seen when stored or at `now`. */
  function Loaded(e: RawIdentity, m: Metric, now: real): Identity
    requires e.RawIdentity? && StoredFeatures(e).Some?
  {
    var vec := match StoredFeatures(e).value case Vector(v) => v case Matrix(rows) => m.average(rows);
    Identity([m.normalize(vec)], e.lastSeen.GetOr(now))
  }

  /** The loop of `_load_persistent_gallery` from gallery `g` on: non-integer keys and entries
      without features are skipped, later duplicates of a key overwrite earlier ones. The flag
      says whether a broken entry stopped the loop with an exception. */
  function LoadFrom(g: Gallery, es: seq<(string, RawIdentity)>, m: Metric, now: real): (r: (Gallery, bool))
    ensures r.1 <==> exists i :: 0 <= i < |es| && ParseInt(es[i].0).Some? && es[i].1.Broken?
    decreases |es|
  {
    if es == [] then (g, false)
    else
      var e := es[0];
      match ParseInt(e.0)
      case None => LoadFrom(g, es[1..], m, now)
      case Some(gid) =>
        if e.1.Broken? then (g, true)
        else if !Truthy(StoredFeatures(e.1)) then LoadFrom(g, es[1..], m, now)
        else LoadFrom(Put(g, gid, Loaded(e.1, m, now)), es[1..], m, now)
  }

  /** The greatest key of a non-empty gallery. */
  function MaxKey(g: Gallery): (k: int)
    requires g != []
    ensures k in Keys(g)
    ensures forall i :: 0 <= i < |g| ==> g[i].0 <= k
  {
    if |g| == 1 then g[0].0
    else
      var rest := MaxKey(g[1..]);
      assert forall i :: 1 <= i < |g| ==> g[i] == g[1..][i - 1];
      if g[0].0 >= rest then g[0].0 else rest
  }

  /** `_load_persistent_gallery` as the code runs it inside the constructor's `try`: a broken
      entry escapes the loop, the constructor swallows the exception, and `next_global_id`
      keeps its initial value 1 while the entries before the broken one stay loaded. */
  function LoadAsWritten(file: GalleryFile, m: Metric, now: real): (r: (Gallery, int))
    ensures file.Parsed? ==> r.0 == LoadFrom([], file.entries, m, now).0
  {
    match file
    case Parsed(es) =>
      var loaded := LoadFrom([], es, m, now);
      if loaded.1 then (loaded.0, 1)
      else (loaded.0, if loaded.0 == [] then 1 else MaxKey(loaded.0) + 1)
    case _ => ([], 1)
  }

  /** The written loader hands out ids that are still in the gallery: with one good entry
      under key 5 followed by a broken one, the next id to allocate is 1, so the fifth new
      person gets id 5 and is merged into the stored identity 5. */
  lemma LoadAsWrittenReusesIds(m: Metric, now: real)
    ensures var file := Parsed([("5", RawIdentity(None, Some(Vector([1.0])), None)), ("6", Broken)]);
      var r := LoadAsWritten(file, m, now);
      && Get(r.0, 5).Some? && r.1 == 1
      && !(forall i :: 0 <= i < |r.0| ==> r.0[i].0 < r.1)
  {
    var e5 := RawIdentity(None, Some(Vector([1.0])), None);
    var es := [("5", e5), ("6", Broken)];
    var g := Put([], 5, Loaded(e5, m, now));
    assert LoadFrom([], es, m, now) == LoadFrom(g, es[1..], m, now) by {
      SmallIntText(5);
    }
    assert LoadFrom(g, es[1..], m, now) == (g, true) by {
      SmallIntText(6);
      assert es[1..][0] == ("6", Broken);
    }
    assert g[0].0 == 5;
  }

  /** `int()` reads back a one-digit number. */
  lemma SmallIntText(n: nat)
    requires n < 10
    ensures ParseInt([DigitChar(n)]) == Some(n)
  {
    IntRoundTrip(n);
    assert IntToString(n) == [DigitChar(n)];
  }

  /** The loader the rest of the model uses: `next_global_id` is one above the greatest
      loaded id (1 for an empty gallery) whatever stopped the loop. */
  function Load(file: GalleryFile, m: Metric, now: real): (r: (Gallery, int))
    ensures r.0 == [] ==> r.1 == 1
    ensures r.0 != [] ==> r.1 - 1 in Keys(r.0)
    ensures forall i :: 0 <= i < |r.0| ==> r.0[i].0 < r.1
    ensures DistinctKeys(r.0) && forall i :: 0 <= i < |r.0| ==> |r.0[i].1.features| == 1
  {
    var g := if file.Parsed? then LoadFrom([], file.entries, m, now).0 else [];
    assert DistinctKeys(g) && forall i :: 0 <= i < |g| ==> |g[i].1.features| == 1 by {
      if file.Parsed? {
        LoadFromShape([], file.entries, m, now);
      }
    }
    (g, if g == [] then 1 else MaxKey(g) + 1)
  }

  /** Loading keeps the keys distinct and gives every identity exactly one vector. */
  lemma {:induction false} LoadFromShape(g: Gallery, es: seq<(string, RawIdentity)>, m: Metric, now: real)
    requires DistinctKeys(g) && forall i :: 0 <= i < |g| ==> |g[i].1.features| == 1
    ensures var r := LoadFrom(g, es, m, now).0;
      DistinctKeys(r) && forall i :: 0 <= i < |r| ==> |r[i].1.features| == 1
    decreases |es|
  {
    if es != [] {
      var e := es[0];
      match ParseInt(e.0)
      case None => LoadFromShape(g, es[1..], m, now);
      case Some(gid) =>
        if e.1.RawIdentity? && Truthy(StoredFeatures(e.1)) {
          var v := Loaded(e.1, m, now);
          var g' := Put(g, gid, v);
          PutDistinct(g, gid, v);
          forall i | 0 <= i < |g'| ensures |g'[i].1.features| == 1 {
            if i < |g| && g'[i].0 != gid {
              assert g'[i] == g[i];
            } else {
              GetDistinct(g', i);
              PutGet(g, gid, v, gid);
            }
          }
          LoadFromShape(g', es[1..], m, now);
        } else if e.1.RawIdentity? {
          LoadFromShape(g, es[1..], m, now);
        }
    }
  }

  /** The ids of the entries that load: integer keys whose entry has features. */
  function LoadableIds(es: seq<(string, RawIdentity)>): set<int>
    decreases |es|
  {
    if es == [] then {}
    else
      var here := match ParseInt(es[0].0)
        case Some(gid) => if es[0].1.RawIdentity? && Truthy(StoredFeatures(es[0].1)) then {gid} else {}
        case None => {};
      here + LoadableIds(es[1..])
  }

  /** Without broken entries the loaded ids are exactly the integer keys with features. */
  lemma {:induction false} LoadFromKeys(g: Gallery, es: seq<(string, RawIdentity)>, m: Metric, now: real, k: int)
    requires forall i :: 0 <= i < |es| ==> !es[i].1.Broken?
    ensures Get(LoadFrom(g, es, m, now).0, k).Some? <==> Get(g, k).Some? || k in LoadableIds(es)
    decreases |es|
  {
    if es != [] {
      var e := es[0];
      assert forall i :: 0 <= i < |es[1..]| ==> !es[1..][i].1.Broken? by {
        assert forall i :: 0 <= i < |es[1..]| ==> es[1..][i] == es[i + 1];
      }
      match ParseInt(e.0)
      case None =>
        LoadFromKeys(g, es[1..], m, now, k);
      case Some(gid) =>
        assert !e.1.Broken?;
        if Truthy(StoredFeatures(e.1)) {
          var v := Loaded(e.1, m, now);
          PutGet(g, gid, v, k);
          LoadFromKeys(Put(g, gid, v), es[1..], m, now, k);
        } else {
          LoadFromKeys(g, es[1..], m, now, k);
        }
    }
  }

  /** The state right after construction: the loaded gallery, no bindings, no buffers. */
  function Initial(file: GalleryFile, m: Metric, now: real): (s: GalleryState)
    ensures forall confirm: nat :: Inv(s, confirm)
  {
    var loaded := Load(file, m, now);
    GalleryState(loaded.0, map[], loaded.1, map[])
  }

  /** `re_id.ReIDGallery`. The feature extractor is outside the model: callers pass the
      extraction result for the crop; `now` stands for `time.time()`. */
  class ReIDGallery {
    var gallery: Gallery
    var trackToGlobal: map<int, int>
    var nextGlobalId: int
    var trackFeatureBuffers: map<int, seq<Feature>>
    const metric: Metric
    const confirmFrames: nat

    function State(): GalleryState
      reads this
    {
      GalleryState(gallery, trackToGlobal, nextGlobalId, trackFeatureBuffers)
    }

    ghost predicate Valid()
      reads this
    {
      Inv(State(), confirmFrames)
    }

    constructor (metric: Metric, confirmFrames: nat, file: GalleryFile, now: real)
      ensures Valid() && this.metric == metric && this.confirmFrames == confirmFrames
      ensures State() == Initial(file, metric, now)
    {
      this.metric := metric;
      this.confirmFrames := confirmFrames;
      trackToGlobal := map[];
      trackFeatureBuffers := map[];
      var loaded := Load(file, metric, now);
      gallery := loaded.0;
      nextGlobalId := loaded.1;
      new;
      assert State() == Initial(file, metric, now);
    }

    /** `_find_best_match(features)`: the nested scan over identities and their vectors. */
    method FindBestMatch(features: Feature) returns (bestId: Option<int>, bestSimilarity: real)
      ensures (bestId, bestSimilarity) == Match(gallery, features, metric.similarity)
    {
      var sim := metric.similarity;
      bestId, bestSimilarity := None, 0.0;
      ghost var seen: seq<(int, Feature)> := [];
      var i := 0;
      while i < |gallery|
        invariant 0 <= i <= |gallery|
        invariant seen == Candidates(gallery[..i])
        invariant (bestId, bestSimilarity) == ScanCandidates(seen, features, sim)
      {
        var gid := gallery[i].0;
        var stored := gallery[i].1.features;
        var j := 0;
        while j < |stored|
          invariant 0 <= j <= |stored|
          invariant seen == Candidates(gallery[..i]) + Tagged(gid, stored[..j])
          invariant (bestId, bestSimilarity) == ScanCandidates(seen, features, sim)
        {
          var s := sim(features, stored[j]);
          assert (seen + [(gid, stored[j])])[..|seen|] == seen;
          if s > bestSimilarity {
            bestSimilarity := s;
            bestId := Some(gid);
          }
          assert Tagged(gid, stored[..j + 1]) == Tagged(gid, stored[..j]) + [(gid, stored[j])];
          seen := seen + [(gid, stored[j])];
          j := j + 1;
        }
        assert stored[..j] == stored;
        assert gallery[..i + 1][..i] == gallery[..i];
        i := i + 1;
      }
      assert gallery[..i] == gallery;
      if bestSimilarity < REID_SIMILARITY_THRESHOLD {
        bestId, bestSimilarity := None, 0.0;
      }
    }

    /** `_update_gallery(gid, crop)` */
    method UpdateGallery(gid: int, features: Option<Feature>, now: real)
      modifies this`gallery
      ensures gallery == Record(old(gallery), gid, features, now)
    {
      if features.None? {
        return;
      }
      var current := Get(gallery, gid);
      var kept := if current.Some? then current.value.features else [];
      gallery := Put(gallery, gid, Identity(AppendBounded(kept, features.value, REID_GALLERY_SIZE), now));
    }

    /** `_create_new_id()` */
    method CreateNewId() returns (gid: int)
      modifies this`nextGlobalId
      ensures gid == old(nextGlobalId) && nextGlobalId == gid + 1
    {
      gid := nextGlobalId;
      nextGlobalId := nextGlobalId + 1;
    }

    /** The three steps `get_global_id` takes once it has settled on `gid` for an unbound
        track: bind the track, record the vector under `gid`, drop the track's buffer. */
    method BindTrack(trackId: nat, gid: int, f: Feature, now: real)
      modifies this`trackToGlobal, this`gallery, this`trackFeatureBuffers
      ensures State() == Bind(old(State()), trackId, gid, f, now)
    {
      trackToGlobal := trackToGlobal[trackId := gid];
      UpdateGallery(gid, Some(f), now);
      trackFeatureBuffers := trackFeatureBuffers - {trackId};
    }

    /** `get_global_id(track_id, crop)`, with `features` the extraction result for the crop. */
    method GetGlobalId(trackId: nat, features: Option<Feature>, now: real) returns (gid: int)
      requires Valid()
      modifies this
      ensures Valid()
      ensures (State(), gid) == GetGlobal(old(State()), trackId, features, now, metric, confirmFrames)
    {
      ghost var s0 := State();
      if trackId in trackToGlobal {
        gid := trackToGlobal[trackId];
        var current := Get(gallery, gid);
        if current.Some? {
          gallery := Put(gallery, gid, current.value.(lastSeen := now));
        }
        assert gallery == Touch(s0.gallery, gid, now);
      } else if features.None? {
        gid := -(trackId as int);
      } else {
        gid := AssignUnbound(trackId, features.value, now);
      }
      GetGlobalKeepsInv(s0, trackId, features, now, metric, confirmFrames);
    }

    /** The rest of `get_global_id` for an unbound track whose features were extracted:
        match, otherwise buffer, and once the buffer is full confirm the track. */
    method AssignUnbound(trackId: nat, f: Feature, now: real) returns (gid: int)
      modifies this
      ensures (State(), gid) == Assign(old(State()), trackId, f, now, metric, confirmFrames)
    {
      var matchedId, similarity := FindBestMatch(f);
      if matchedId.Some? {
        gid := matchedId.value;
        BindTrack(trackId, gid, f, now);
        return;
      }
      var buf := if trackId in trackFeatureBuffers then trackFeatureBuffers[trackId] else [];
      buf := buf + [f];
      trackFeatureBuffers := trackFeatureBuffers[trackId := buf];
      if |buf| < confirmFrames {
        return -(trackId as int);
      }
      gid := ConfirmTrack(trackId, f, buf, now);
    }

    /** A full buffer `buf`: match its average again, otherwise create a new identity. */
    method ConfirmTrack(trackId: nat, f: Feature, buf: seq<Feature>, now: real) returns (gid: int)
      modifies this
      ensures (State(), gid) == Confirm(old(State()), trackId, f, buf, now, metric)
    {
      var matchedId, similarity := FindBestMatch(metric.average(buf));
      if matchedId.Some? {
        gid := matchedId.value;
        BindTrack(trackId, gid, f, now);
      } else {
        ghost var s0 := State();
        gid := CreateNewId();
        assert State() == s0.(next := gid + 1);
        BindTrack(trackId, gid, f, now);
      }
    }

    /** `remove_track(track_id)` */
    method RemoveTrack(trackId: nat, now: real)
      requires Valid()
      modifies this
      ensures Valid()
      ensures State() == Unbind(old(State()), trackId, now)
    {
      UnbindKeepsInv(State(), trackId, now, confirmFrames);
      if trackId in trackToGlobal {
        var gid := trackToGlobal[trackId];
        var current := Get(gallery, gid);
        if current.Some? {
          gallery := Put(gallery, gid, current.value.(lastSeen := now));
        }
        trackToGlobal := trackToGlobal - {trackId};
      }
    }

    /** `cleanup_old_entries()`: collect the expired ids, then delete them. */
    method CleanupOldEntries(now: real)
      requires Valid()
      modifies this`gallery
      ensures Valid()
      ensures gallery == Recent(old(gallery), now)
    {
      ghost var g0 := gallery;
      var toRemove := CollectExpired(now);
      DeleteAll(toRemove);
      ExpiredKeysOf(g0, now);
      WithoutExpired(g0, AsSet(toRemove), now);
      RecentKeepsInv(g0, now, nextGlobalId);
    }

    /** The first loop of `cleanup_old_entries`: the ids of the expired identities. */
    method CollectExpired(now: real) returns (toRemove: seq<int>)
      ensures toRemove == ExpiredKeys(gallery, now)
    {
      toRemove := [];
      var i := 0;
      while i < |gallery|
        invariant 0 <= i <= |gallery|
        invariant toRemove == ExpiredKeys(gallery[..i], now)
      {
        assert gallery[..i + 1][..i] == gallery[..i];
        if now - gallery[i].1.lastSeen > REID_MEMORY_TIME {
          toRemove := toRemove + [gallery[i].0];
        }
        i := i + 1;
      }
      assert gallery[..i] == gallery;
    }

    /** The second loop of `cleanup_old_entries`: `del self.gallery[gid]` for each listed id. */
    method DeleteAll(ids: seq<int>)
      modifies this`gallery
      ensures gallery == Without(old(gallery), AsSet(ids))
    {
      ghost var g0 := gallery;
      var n := 0;
      assert AsSet(ids[..0]) == {};
      WithoutNothing(g0);
      while n < |ids|
        invariant 0 <= n <= |ids|
        invariant gallery == Without(g0, AsSet(ids[..n]))
      {
        WithoutWithout(g0, AsSet(ids[..n]), {ids[n]});
        assert AsSet(ids[..n + 1]) == AsSet(ids[..n]) + {ids[n]} by {
          assert ids[..n + 1] == ids[..n] + [ids[n]];
        }
        gallery := Without(gallery, {ids[n]});
        n := n + 1;
      }
      assert ids[..n] == ids;
    }
  }

  /** The keys of the expired identities, in gallery order. */
  function ExpiredKeys(g: Gallery, now: real): seq<int> {
    if g == [] then []
    else ExpiredKeys(g[..|g| - 1], now) + (if Expired(g[|g| - 1].1, now) then [g[|g| - 1].0] else [])
  }

  /** In a gallery with distinct keys, a key is listed as expired exactly when its identity
      is expired. */
  lemma {:induction false} ExpiredKeysOf(g: Gallery, now: real)
    requires DistinctKeys(g)
    ensures forall i :: 0 <= i < |g| ==> (g[i].0 in ExpiredKeys(g, now) <==> Expired(g[i].1, now))
  {
    if g != [] {
      var init := g[..|g| - 1];
      ExpiredKeysOf(init, now);
      ExpiredKeysFrom(init, now);
      forall i | 0 <= i < |g| ensures g[i].0 in ExpiredKeys(g, now) <==> Expired(g[i].1, now) {
        if i < |g| - 1 {
          assert init[i] == g[i];
          assert g[i].0 != g[|g| - 1].0;
        }
      }
    }
  }

  /** Every listed key is the key of some identity. */
  lemma {:induction false} ExpiredKeysFrom(g: Gallery, now: real)
    ensures forall k :: k in ExpiredKeys(g, now) ==> k in Keys(g)
  {
    if g != [] {
      var init := g[..|g| - 1];
      ExpiredKeysFrom(init, now);
      forall k | k in Keys(init) ensures k in Keys(g) {
        var i :| 0 <= i < |init| && Keys(init)[i] == k;
        assert Keys(g)[i] == k;
      }
      assert Keys(g)[|g| - 1] == g[|g| - 1].0;
    }
  }

  /** The elements of a list of ids, as a set. */
  function AsSet(s: seq<int>): (r: set<int>)
    ensures forall x :: x in r <==> x in s
  {
    set x | x in s
  }

  /** Dropping expired identities keeps the gallery's keys distinct and bounded. */
  lemma RecentKeepsInv(g: Gallery, now: real, next: int)
    requires DistinctKeys(g)
    requires forall i :: 0 <= i < |g| ==> g[i].0 < next && 1 <= |g[i].1.features| <= REID_GALLERY_SIZE
    ensures DistinctKeys(Recent(g, now))
    ensures forall i :: 0 <= i < |Recent(g, now)| ==>
      Recent(g, now)[i].0 < next && 1 <= |Recent(g, now)[i].1.features| <= REID_GALLERY_SIZE
  {
    RecentIsSubsequence(g, now);
  }

  /** The recent identities keep their relative order, so distinct keys stay distinct. */
  lemma {:induction false} RecentIsSubsequence(g: Gallery, now: real)
    requires DistinctKeys(g)
    ensures DistinctKeys(Recent(g, now))
  {
    if g != [] {
      RecentIsSubsequence(g[1..], now);
      var rest := Recent(g[1..], now);
      if !Expired(g[0].1, now) {
        forall i | 0 <= i < |rest| ensures rest[i].0 != g[0].0 {
          var w :| 0 <= w < |g[1..]| && g[1..][w] == rest[i] by {
            assert rest[i] in g[1..];
          }
        }
      }
    }
  }
}
