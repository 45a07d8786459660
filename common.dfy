/** Building blocks shared by every part of the model: an optional value, Python's
    insertion-ordered `dict`, and `collections.deque(maxlen=n).append`. */
module Common {

  datatype Option<T> = None | Some(value: T) {
    /** Python's `d.get(key, default)` once the lookup has produced this option. */
    function GetOr(default: T): T {
      match this
      case Some(v) => v
      case None => default
    }
  }

  /** A Python `dict`: its entries in insertion order. */
  type Dict<K(==), V> = seq<(K, V)>

  /** Every well-formed dict has pairwise different keys. */
  ghost predicate DistinctKeys<K, V>(d: Dict<K, V>) {
    forall i, j :: 0 <= i < j < |d| ==> d[i].0 != d[j].0
  }

  /** `list(d.keys())` */
  function Keys<K(==), V>(d: Dict<K, V>): (ks: seq<K>)
    ensures |ks| == |d|
    ensures forall i :: 0 <= i < |d| ==> ks[i] == d[i].0
  {
    if |d| == 0 then [] else [d[0].0] + Keys(d[1..])
  }

  /** Appending an entry appends its key. */
  lemma KeysSnoc<K, V>(d: Dict<K, V>, k: K, v: V)
    ensures Keys(d + [(k, v)]) == Keys(d) + [k]
  {
    var l, r := Keys(d + [(k, v)]), Keys(d) + [k];
    assert |l| == |r|;
    forall i | 0 <= i < |l| ensures l[i] == r[i] {
      if i < |d| {
        assert (d + [(k, v)])[i] == d[i];
      }
    }
  }

  /** `list(d.values())` */
  function Values<K(==), V>(d: Dict<K, V>): (vs: seq<V>)
    ensures |vs| == |d|
    ensures forall i :: 0 <= i < |d| ==> vs[i] == d[i].1
  {
    if |d| == 0 then [] else [d[0].1] + Values(d[1..])
  }

  /** `d.get(k)`: the value stored under `k`, if any. */
  function Get<K(==), V>(d: Dict<K, V>, k: K): (r: Option<V>)
    ensures r.None? <==> forall i :: 0 <= i < |d| ==> d[i].0 != k
    ensures r.Some? ==> exists i :: 0 <= i < |d| && d[i] == (k, r.value)
  {
    if |d| == 0 then None
    else if d[0].0 == k then Some(d[0].1)
    else
      var r := Get(d[1..], k);
      assert r.Some? ==> exists i :: 0 <= i < |d[1..]| && d[1..][i] == (k, r.value);
      assert forall i :: 0 < i < |d| ==> d[i] == d[1..][i - 1];
      r
  }

  /** `d[k] = v`: an existing key keeps its position and takes the new value,
      a new key is appended at the end. */
  function Put<K(==), V>(d: Dict<K, V>, k: K, v: V): (r: Dict<K, V>)
    ensures Get(d, k).Some? ==> |r| == |d| && Keys(r) == Keys(d)
    ensures Get(d, k).None? ==> r == d + [(k, v)]
    ensures |r| >= |d|
    ensures forall i :: 0 <= i < |d| ==> r[i].0 == d[i].0 && (r[i].0 != k ==> r[i] == d[i])
  {
    if |d| == 0 then [(k, v)]
    else if d[0].0 == k then [(k, v)] + d[1..]
    else [d[0]] + Put(d[1..], k, v)
  }

  /** `d.update(e)`: every entry of `e`, in order, stored into `d`. */
  function Merge<K(==), V>(d: Dict<K, V>, e: Dict<K, V>): Dict<K, V>
    decreases |e|
  {
    if |e| == 0 then d else Merge(Put(d, e[0].0, e[0].1), e[1..])
  }

  /** After `d[k] = v` the key `k` reads `v` and every other key reads as before. */
  lemma {:induction false} PutGet<K, V>(d: Dict<K, V>, k: K, v: V, k': K)
    ensures Get(Put(d, k, v), k') == if k' == k then Some(v) else Get(d, k')
  {
    if |d| > 0 && d[0].0 != k {
      PutGet(d[1..], k, v, k');
      assert Put(d, k, v)[1..] == Put(d[1..], k, v);
    }
  }

  /** Storing into a well-formed dict keeps its keys distinct. */
  lemma {:induction false} PutDistinct<K, V>(d: Dict<K, V>, k: K, v: V)
    requires DistinctKeys(d)
    ensures DistinctKeys(Put(d, k, v))
  {
    if Get(d, k).Some? {
      var r := Put(d, k, v);
      assert forall i :: 0 <= i < |d| ==> r[i].0 == Keys(r)[i] == Keys(d)[i] == d[i].0;
    }
  }

  /** `d.update(e)` with a well-formed `e`: keys of `e` read `e`'s value, the others keep `d`'s. */
  lemma {:induction false} MergeGet<K, V>(d: Dict<K, V>, e: Dict<K, V>, k: K)
    requires DistinctKeys(e)
    ensures Get(Merge(d, e), k) == if Get(e, k).Some? then Get(e, k) else Get(d, k)
    decreases |e|
  {
    if |e| > 0 {
      var d' := Put(d, e[0].0, e[0].1);
      MergeGet(d', e[1..], k);
      PutGet(d, e[0].0, e[0].1, k);
      if k == e[0].0 {
        assert Get(e[1..], k).None?;
      }
    }
  }

  /** `d.update(e)` never reorders or loses the keys `d` already had; new keys follow them. */
  lemma {:induction false} MergeKeepsKeyOrder<K, V>(d: Dict<K, V>, e: Dict<K, V>)
    ensures |Merge(d, e)| >= |d|
    ensures Keys(Merge(d, e))[..|d|] == Keys(d)
    decreases |e|
  {
    if |e| > 0 {
      var d' := Put(d, e[0].0, e[0].1);
      MergeKeepsKeyOrder(d', e[1..]);
      if Get(d, e[0].0).None? {
        assert Keys(d')[..|d|] == Keys(d);
      }
    }
  }

  /** `d.update(e)` keeps a well-formed dict well-formed. */
  lemma {:induction false} MergeDistinct<K, V>(d: Dict<K, V>, e: Dict<K, V>)
    requires DistinctKeys(d)
    ensures DistinctKeys(Merge(d, e))
    decreases |e|
  {
    if |e| > 0 {
      PutDistinct(d, e[0].0, e[0].1);
      MergeDistinct(Put(d, e[0].0, e[0].1), e[1..]);
    }
  }

  /** After `d[k] = v` on a well-formed dict, each position holds its old entry unless that
      entry's key is `k`, or holds the appended `(k, v)`. */
  lemma PutAt<K, V>(d: Dict<K, V>, k: K, v: V, i: nat)
    requires DistinctKeys(d) && i < |Put(d, k, v)|
    ensures Put(d, k, v)[i] == if i < |d| && d[i].0 != k then d[i] else (k, v)
  {
    var r := Put(d, k, v);
    if i < |d| && d[i].0 == k {
      GetDistinct(d, i);
      assert r[i].0 == k;
      PutDistinct(d, k, v);
      GetDistinct(r, i);
      PutGet(d, k, v, k);
    } else if i >= |d| {
      assert Get(d, k).None?;
      assert r == d + [(k, v)];
    }
  }

  /** In a dict with distinct keys, looking up the key of an entry finds that entry. */
  lemma {:induction false} GetDistinct<K, V>(d: Dict<K, V>, i: nat)
    requires DistinctKeys(d) && i < |d|
    ensures Get(d, d[i].0) == Some(d[i].1)
  {
    if i > 0 {
      assert d[0].0 != d[i].0;
      GetDistinct(d[1..], i - 1);
    }
  }

  /** The dict with every key in `ks` deleted (`del d[k]` for each of them). */
  function Without<K(==), V>(d: Dict<K, V>, ks: set<K>): (r: Dict<K, V>)
    ensures |r| <= |d|
    ensures forall i :: 0 <= i < |r| ==> r[i] in d && r[i].0 !in ks
    ensures forall i :: 0 <= i < |d| && d[i].0 !in ks ==> d[i] in r
  {
    if d == [] then [] else (if d[0].0 in ks then [] else [d[0]]) + Without(d[1..], ks)
  }

  /** Deleting no key leaves the dict as it is. */
  lemma {:induction false} WithoutNothing<K, V>(d: Dict<K, V>)
    ensures Without(d, {}) == d
  {
    if d != [] {
      WithoutNothing(d[1..]);
      assert [d[0]] + d[1..] == d;
    }
  }

  /** Deleting two groups of keys one after the other deletes their union. */
  lemma {:induction false} WithoutWithout<K, V>(d: Dict<K, V>, ks: set<K>, more: set<K>)
    ensures Without(Without(d, ks), more) == Without(d, ks + more)
  {
    if d != [] {
      WithoutWithout(d[1..], ks, more);
      var w := Without(d[1..], ks);
      if d[0].0 !in ks {
        assert Without(d, ks) == [d[0]] + w;
        assert ([d[0]] + w)[1..] == w;
      } else {
        assert Without(d, ks) == [] + w == w;
      }
    }
  }

  /** The results of `f` that are present, in order: a loop that appends what each item
      yields and skips the items that yield nothing. */
  function FilterMap<A, B>(xs: seq<A>, f: A -> Option<B>): (r: seq<B>)
    ensures |r| <= |xs|
  {
    if xs == [] then []
    else
      var last := f(xs[|xs| - 1]);
      FilterMap(xs[..|xs| - 1], f) + (if last.Some? then [last.value] else [])
  }

  /** An item that yields a result contributes it right after the results of the items
      before it. */
  lemma {:induction false} FilterMapPosition<A, B>(xs: seq<A>, f: A -> Option<B>, k: nat)
    requires k < |xs| && f(xs[k]).Some?
    ensures |FilterMap(xs[..k], f)| < |FilterMap(xs, f)|
    ensures FilterMap(xs, f)[|FilterMap(xs[..k], f)|] == f(xs[k]).value
  {
    var n := |xs| - 1;
    if k < n {
      FilterMapPosition(xs[..n], f, k);
      assert xs[..n][..k] == xs[..k];
    } else {
      assert xs[..k] == xs[..n];
    }
  }

  /** Every result comes from some item. */
  lemma {:induction false} FilterMapFrom<A, B>(xs: seq<A>, f: A -> Option<B>, j: nat)
    requires j < |FilterMap(xs, f)|
    ensures exists k :: 0 <= k < |xs| && f(xs[k]) == Some(FilterMap(xs, f)[j])
  {
    var n := |xs| - 1;
    var init := FilterMap(xs[..n], f);
    if j < |init| {
      FilterMapFrom(xs[..n], f, j);
      var k :| 0 <= k < n && f(xs[..n][k]) == Some(init[j]);
      assert xs[..n][k] == xs[k];
    } else {
      assert f(xs[n]) == Some(FilterMap(xs, f)[j]);
    }
  }

  /** `d = {}; for x in xs: d[key(x)] = val(x)` */
  function Collected<A, K(==), V>(xs: seq<A>, key: A -> K, val: A -> V): (d: Dict<K, V>)
    ensures DistinctKeys(d)
  {
    if xs == [] then []
    else
      var prior := Collected(xs[..|xs| - 1], key, val);
      PutDistinct(prior, key(xs[|xs| - 1]), val(xs[|xs| - 1]));
      Put(prior, key(xs[|xs| - 1]), val(xs[|xs| - 1]))
  }

  /** The value of the last item whose key is `k`, if any. */
  function LastKeyed<A, K(==), V>(xs: seq<A>, key: A -> K, val: A -> V, k: K): (r: Option<V>)
    ensures r.None? <==> forall j :: 0 <= j < |xs| ==> key(xs[j]) != k
  {
    if xs == [] then None
    else if key(xs[|xs| - 1]) == k then Some(val(xs[|xs| - 1]))
    else
      assert forall j :: 0 <= j < |xs| - 1 ==> xs[..|xs| - 1][j] == xs[j];
      LastKeyed(xs[..|xs| - 1], key, val, k)
  }

  /** A later item overwrites an earlier one with the same key. */
  lemma {:induction false} CollectedGet<A, K, V>(xs: seq<A>, key: A -> K, val: A -> V, k: K)
    ensures Get(Collected(xs, key, val), k) == LastKeyed(xs, key, val, k)
  {
    if xs != [] {
      var init := xs[..|xs| - 1];
      CollectedGet(init, key, val, k);
      PutGet(Collected(init, key, val), key(xs[|xs| - 1]), val(xs[|xs| - 1]), k);
    }
  }

  /** The item at `j`, with no later item sharing its key, is the one kept. */
  lemma {:induction false} LastKeyedAt<A, K, V>(xs: seq<A>, key: A -> K, val: A -> V, j: nat)
    requires j < |xs| && forall j' :: j < j' < |xs| ==> key(xs[j']) != key(xs[j])
    ensures LastKeyed(xs, key, val, key(xs[j])) == Some(val(xs[j]))
  {
    if j < |xs| - 1 {
      var init := xs[..|xs| - 1];
      assert forall j' :: j < j' < |init| ==> init[j'] == xs[j'];
      assert init[j] == xs[j];
      LastKeyedAt(init, key, val, j);
    }
  }

  /** Keys appear in the order their first item appears: the keys collected from a prefix
      are a prefix of the keys collected from the whole. */
  lemma {:induction false} CollectedPrefix<A, K, V>(xs: seq<A>, key: A -> K, val: A -> V, n: nat)
    requires n <= |xs|
    ensures var p := Collected(xs[..n], key, val); var d := Collected(xs, key, val);
      |p| <= |d| && Keys(d)[..|p|] == Keys(p)
  {
    if n < |xs| {
      var init := xs[..|xs| - 1];
      assert init[..n] == xs[..n];
      CollectedPrefix(init, key, val, n);
      var q := Collected(init, key, val);
      var d := Collected(xs, key, val);
      assert Keys(d)[..|q|] == Keys(q);
    } else {
      assert xs[..n] == xs;
    }
  }

  /** `deque(s, maxlen=cap).append(x)`: `x` goes at the right end, and once the
      deque holds `cap` items the leftmost (oldest) one is dropped. */
  function AppendBounded<T>(s: seq<T>, x: T, cap: nat): (r: seq<T>)
    requires 0 < cap
    ensures |s| < cap ==> r == s + [x]
    ensures |s| >= cap ==> |r| == cap && r == (s + [x])[|s| + 1 - cap..]
  {
    var t := s + [x];
    if |t| > cap then t[|t| - cap..] else t
  }

  /** A bounded append is never empty, keeps the bound and ends with the new item. */
  lemma AppendBoundedEnds<T>(s: seq<T>, x: T, cap: nat)
    requires 0 < cap
    ensures var r := AppendBounded(s, x, cap);
      1 <= |r| <= cap && r[|r| - 1] == x
  {
  }

  /** A bounded append keeps the bound, ends with the new item and keeps the newest
      items already present, in order. */
  lemma AppendBoundedShape<T>(s: seq<T>, x: T, cap: nat)
    requires 0 < cap && |s| <= cap
    ensures var r := AppendBounded(s, x, cap);
      && |r| <= cap
      && r[|r| - 1] == x
      && r[..|r| - 1] == s[|s| + 1 - |r|..]
  {
  }
}
