/**
 * PHP arrays with string keys, as LinkElement and General use them for titles and properties.
 * A PHP array is ordered: assigning to a key that is already present replaces the value in
 * place, and assigning to a new key appends the pair at the end. Lookup finds the key's
 * (only) position.
 */
module OrderedMaps {
  import opened Wrappers

  type OrderedMap<V> = seq<(string, V)>

  predicate HasKey<V>(m: OrderedMap<V>, k: string) {
    exists i :: 0 <= i < |m| && m[i].0 == k
  }

  /** Every key occurs at most once: what a PHP array guarantees. */
  ghost predicate UniqueKeys<V>(m: OrderedMap<V>) {
    forall i, j :: 0 <= i < j < |m| ==> m[i].0 != m[j].0
  }

  /** The position of the first pair whose key is `k`. */
  function Find<V>(m: OrderedMap<V>, k: string): (r: Option<nat>)
    ensures r.Some? ==> r.value < |m| && m[r.value].0 == k
    ensures r.Some? ==> forall j :: 0 <= j < r.value ==> m[j].0 != k
    ensures r.None? <==> !HasKey(m, k)
  {
    if |m| == 0 then None
    else if m[0].0 == k then Some(0)
    else
      var rest := Find(m[1..], k);
      assert HasKey(m, k) ==> HasKey(m[1..], k) by {
        if HasKey(m, k) {
          var i :| 0 <= i < |m| && m[i].0 == k;
          assert m[1..][i - 1].0 == k;
        }
      }
      match rest
      case None => None
      case Some(i) => Some(i + 1)
  }

  /** `$array[$k]` when the key is set (PHP's isset aside). */
  function Get<V>(m: OrderedMap<V>, k: string): (r: Option<V>)
    ensures r.None? <==> !HasKey(m, k)
    ensures r.Some? ==> exists i :: 0 <= i < |m| && m[i] == (k, r.value)
    ensures UniqueKeys(m) ==> forall i :: 0 <= i < |m| && m[i].0 == k ==> r == Some(m[i].1)
  {
    match Find(m, k)
    case None => None
    case Some(i) => Some(m[i].1)
  }

  /** Two maps whose keys agree on the shorter one, and whose extra keys are not `k`, find `k` at the same place. */
  lemma {:induction false} FindAgrees<V>(a: OrderedMap<V>, b: OrderedMap<V>, k: string)
    requires |a| <= |b|
    requires forall i :: 0 <= i < |a| ==> a[i].0 == b[i].0
    requires forall i :: |a| <= i < |b| ==> b[i].0 != k
    ensures Find(a, k) == Find(b, k)
    decreases |a|
  {
    if |a| == 0 {
      assert !HasKey(b, k);
    } else if a[0].0 != k {
      assert b[0].0 != k;
      FindAgrees(a[1..], b[1..], k);
    }
  }

  /** `$array[$k] = $v`: replace in place, or append a new pair. */
  function Put<V>(m: OrderedMap<V>, k: string, v: V): (r: OrderedMap<V>)
    ensures HasKey(m, k) ==> |r| == |m|
    ensures !HasKey(m, k) ==> r == m + [(k, v)]
    ensures forall i :: 0 <= i < |m| ==> r[i].0 == m[i].0
    ensures forall i :: 0 <= i < |m| && m[i].0 != k ==> r[i] == m[i]
    ensures UniqueKeys(m) ==> UniqueKeys(r)
  {
    match Find(m, k)
    case None => m + [(k, v)]
    case Some(i) => m[i := (k, v)]
  }

  /** After `$array[$k] = $v`, the key holds the new value and every other key its old one. */
  lemma PutGet<V>(m: OrderedMap<V>, k: string, v: V, k': string)
    ensures Get(Put(m, k, v), k') == if k' == k then Some(v) else Get(m, k')
  {
    var r := Put(m, k, v);
    match Find(m, k)
    case None =>
      if k' == k {
        assert Find(r, k) == Some(|m|) by {
          assert r[|m|].0 == k;
        }
      } else {
        FindAgrees(m, r, k');
      }
    case Some(i) =>
      FindAgrees(m, r, k');
  }

  /** A foreach loop of `$array[$k] = $v` over `entries`, in order (setProperties). */
  function PutAll<V>(m: OrderedMap<V>, entries: OrderedMap<V>): OrderedMap<V>
  {
    if |entries| == 0 then m
    else
      var n := |entries| - 1;
      Put(PutAll(m, entries[..n]), entries[n].0, entries[n].1)
  }

  /** One more entry of a foreach of assignments is one more Put. */
  lemma PutAllStep<V>(m: OrderedMap<V>, entries: OrderedMap<V>, i: nat)
    requires i < |entries|
    ensures PutAll(m, entries[..i + 1]) == Put(PutAll(m, entries[..i]), entries[i].0, entries[i].1)
  {
    assert entries[..i + 1][..i] == entries[..i];
  }

  /** The value of the last pair of `entries` whose key is `k`: the one a foreach of assignments leaves. */
  function LastValue<V>(entries: OrderedMap<V>, k: string): (r: Option<V>)
    ensures r.None? <==> !HasKey(entries, k)
  {
    if |entries| == 0 then None
    else
      var n := |entries| - 1;
      var rest := LastValue(entries[..n], k);
      assert HasKey(entries, k) <==> entries[n].0 == k || HasKey(entries[..n], k) by {
        if HasKey(entries, k) && entries[n].0 != k {
          var i :| 0 <= i < |entries| && entries[i].0 == k;
          assert entries[..n][i].0 == k;
        }
        if HasKey(entries[..n], k) {
          var i :| 0 <= i < n && entries[..n][i].0 == k;
          assert entries[i].0 == k;
        }
      }
      if entries[n].0 == k then Some(entries[n].1) else rest
  }

  /** After the merge a key holds the last value `entries` gave it, or its old value when `entries` never names it. */
  lemma {:induction false} PutAllGet<V>(m: OrderedMap<V>, entries: OrderedMap<V>, k: string)
    ensures Get(PutAll(m, entries), k) == match LastValue(entries, k) case Some(v) => Some(v) case None => Get(m, k)
    decreases |entries|
  {
    if |entries| > 0 {
      var n := |entries| - 1;
      PutAllGet(m, entries[..n], k);
      PutGet(PutAll(m, entries[..n]), entries[n].0, entries[n].1, k);
    }
  }

  /** Keys already present keep their places; the merge only overwrites them or appends after them. */
  lemma {:induction false} PutAllKeepsPlaces<V>(m: OrderedMap<V>, entries: OrderedMap<V>)
    ensures |PutAll(m, entries)| >= |m|
    ensures forall i :: 0 <= i < |m| ==> PutAll(m, entries)[i].0 == m[i].0
    decreases |entries|
  {
    if |entries| > 0 {
      PutAllKeepsPlaces(m, entries[..|entries| - 1]);
    }
  }

  /** The merge never duplicates a key. */
  lemma {:induction false} PutAllUnique<V>(m: OrderedMap<V>, entries: OrderedMap<V>)
    requires UniqueKeys(m)
    ensures UniqueKeys(PutAll(m, entries))
    decreases |entries|
  {
    if |entries| > 0 {
      PutAllUnique(m, entries[..|entries| - 1]);
    }
  }

  /** Every key of the merge comes from the old map or from the entries. */
  lemma {:induction false} PutAllKeysFrom<V>(m: OrderedMap<V>, entries: OrderedMap<V>)
    ensures forall i :: 0 <= i < |PutAll(m, entries)| ==>
      HasKey(m, PutAll(m, entries)[i].0) || HasKey(entries, PutAll(m, entries)[i].0)
    decreases |entries|
  {
    if |entries| > 0 {
      var n := |entries| - 1;
      var prev := PutAll(m, entries[..n]);
      PutAllKeysFrom(m, entries[..n]);
      var r := PutAll(m, entries);
      forall i | 0 <= i < |r| ensures HasKey(m, r[i].0) || HasKey(entries, r[i].0) {
        if i < |prev| {
          if HasKey(entries[..n], prev[i].0) {
            var j :| 0 <= j < n && entries[..n][j].0 == prev[i].0;
            assert entries[j].0 == r[i].0;
          }
        } else {
          assert r[i].0 == entries[n].0;
        }
      }
    }
  }

  /** Merging pairs whose keys are already distinct into an empty array rebuilds them unchanged. */
  lemma {:induction false} PutAllOfUnique<V>(entries: OrderedMap<V>)
    requires UniqueKeys(entries)
    ensures PutAll([], entries) == entries
    decreases |entries|
  {
    if |entries| > 0 {
      var n := |entries| - 1;
      PutAllOfUnique(entries[..n]);
      assert !HasKey(entries[..n], entries[n].0);
      assert entries[..n] + [(entries[n].0, entries[n].1)] == entries;
    }
  }

  /** Looking a key up in two arrays laid end to end finds it in the first when it is there. */
  lemma {:induction false} FindAppend<V>(a: OrderedMap<V>, b: OrderedMap<V>, k: string)
    ensures Find(a + b, k) == if Find(a, k).Some? then Find(a, k)
      else match Find(b, k) case None => None case Some(i) => Some(i + |a|)
    decreases |a|
  {
    if |a| == 0 {
      assert a + b == b;
    } else if a[0].0 != k {
      assert (a + b)[1..] == a[1..] + b;
      FindAppend(a[1..], b, k);
    }
  }

  lemma GetAppend<V>(a: OrderedMap<V>, b: OrderedMap<V>, k: string)
    ensures Get(a + b, k) == if HasKey(a, k) then Get(a, k) else Get(b, k)
  {
    FindAppend(a, b, k);
    match Find(b, k)
    case None =>
    case Some(i) => assert (a + b)[i + |a|] == b[i];
  }
}
