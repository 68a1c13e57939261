/** Python's `dict` with its observable insertion order: a sequence of
    entries whose keys are pairwise distinct. `d[k] = v` overwrites an existing
    key in place and appends a new one; `d.update(c)` does that for every entry
    of `c` in `c`'s order; `repr(d)` lists the entries in order. */
module PyDict {
  import opened Wrappers
  import opened Text

  type Dict<K, V> = seq<(K, V)>

  /** The representation invariant every Python dict satisfies. */
  predicate DistinctKeys<K(==), V>(d: Dict<K, V>) {
    forall i, j :: 0 <= i < j < |d| ==> d[i].0 != d[j].0
  }

  predicate HasKey<K(==), V>(d: Dict<K, V>, k: K) {
    exists i :: 0 <= i < |d| && d[i].0 == k
  }

  /** `d.get(k)`: the value of the first entry with key `k`. */
  function Get<K(==), V>(d: Dict<K, V>, k: K): (r: Option<V>)
    ensures r.Some? <==> HasKey(d, k)
    ensures r.Some? ==> exists i :: 0 <= i < |d| && d[i] == (k, r.value)
  {
    if d == [] then None
    else if d[0].0 == k then Some(d[0].1)
    else
      assert forall i :: 0 < i < |d| ==> d[1..][i - 1] == d[i];
      Get(d[1..], k)
  }

  /** In a dict with distinct keys, looking up the key of an entry finds
      that entry's value. */
  lemma GetEntry<K, V>(d: Dict<K, V>, i: nat)
    requires DistinctKeys(d) && i < |d|
    ensures Get(d, d[i].0) == Some(d[i].1)
  {
  }

  /** `d[k] = v`. */
  function Put<K(==,!new), V>(d: Dict<K, V>, k: K, v: V): (r: Dict<K, V>)
    ensures forall k' :: Get(r, k') == if k' == k then Some(v) else Get(d, k')
    ensures |r| == if HasKey(d, k) then |d| else |d| + 1
    ensures forall i :: 0 <= i < |d| ==> r[i].0 == d[i].0
    // entries under other keys are left as they were
    ensures forall i :: 0 <= i < |d| && d[i].0 != k ==> r[i] == d[i]
    ensures !HasKey(d, k) ==> r[|d|] == (k, v)
    ensures DistinctKeys(d) ==> DistinctKeys(r)
  {
    if d == [] then [(k, v)]
    else if d[0].0 == k then [(k, v)] + d[1..]
    else
      var rest := Put(d[1..], k, v);
      assert forall i :: 0 < i < |d| ==> d[1..][i - 1] == d[i];
      assert HasKey(d, k) <==> HasKey(d[1..], k);
      var r := [d[0]] + rest;
      assert forall i :: 0 < i < |r| ==> r[i] == rest[i - 1];
      r
  }

  /** Assigning a key the value it already has changes nothing. */
  lemma {:induction false} PutUnchanged<K(!new), V>(d: Dict<K, V>, k: K, v: V)
    requires DistinctKeys(d) && Get(d, k) == Some(v)
    ensures Put(d, k, v) == d
  {
    if d[0].0 != k {
      assert forall i :: 0 < i < |d| ==> d[1..][i - 1] == d[i];
      PutUnchanged(d[1..], k, v);
    }
  }

  /** The entries of `c` whose key `d` lacks, in `c`'s order: what
      `d.update(c)` appends. */
  function NewEntries<K(==), V>(d: Dict<K, V>, c: Dict<K, V>): seq<(K, V)> {
    if c == [] then []
    else (if HasKey(d, c[0].0) then [] else [c[0]]) + NewEntries(d, c[1..])
  }

  /** Only membership of the keys of `c` matters to `NewEntries`. */
  lemma {:induction false} NewEntriesSameKeys<K, V>(d: Dict<K, V>, e: Dict<K, V>, c: Dict<K, V>)
    requires forall i :: 0 <= i < |c| ==> (HasKey(d, c[i].0) <==> HasKey(e, c[i].0))
    ensures NewEntries(d, c) == NewEntries(e, c)
  {
    if c != [] {
      assert forall i :: 0 < i < |c| ==> c[1..][i - 1] == c[i];
      NewEntriesSameKeys(d, e, c[1..]);
    }
  }

  /** `d.update(c)`: every entry of `c` assigned in turn. */
  function Update<K(==,!new), V>(d: Dict<K, V>, c: Dict<K, V>): (r: Dict<K, V>)
    requires DistinctKeys(c)
    ensures forall k :: Get(r, k) == if HasKey(c, k) then Get(c, k) else Get(d, k)
    // keys already present keep their slot; entries under keys `c` lacks are untouched
    ensures |d| <= |r| && forall i :: 0 <= i < |d| ==> r[i].0 == d[i].0
    ensures forall i :: 0 <= i < |d| && !HasKey(c, d[i].0) ==> r[i] == d[i]
    // new keys follow the old ones, in `c`'s order
    ensures |r| == |d| + |NewEntries(d, c)| && r[|d|..] == NewEntries(d, c)
    ensures DistinctKeys(d) ==> DistinctKeys(r)
    decreases |c|
  {
    if c == [] then d
    else
      var k0 := c[0].0;
      var tail := c[1..];
      assert forall i :: 0 < i < |c| ==> tail[i - 1] == c[i];
      assert !HasKey(tail, k0);
      var d' := Put(d, k0, c[0].1);
      var r := Update(d', tail);
      SameNewEntriesAfterPut(d, c);
      UpdateStepFrame(d, c, d', r);
      TailKeys(c);
      UpdateStepNew(d, c, d', r);
      r
  }

  /** One step of `Update`, for the entries already in `d`: those under keys
      `c` lacks survive assigning the first entry of `c` (giving `d'`) and
      then updating with the rest (giving `r`). */
  lemma UpdateStepFrame<K(!new), V>(d: Dict<K, V>, c: Dict<K, V>, d': Dict<K, V>, r: Dict<K, V>)
    requires DistinctKeys(c) && c != []
    requires |d| <= |d'| && forall i :: 0 <= i < |d| && d[i].0 != c[0].0 ==> d'[i] == d[i]
    requires |d'| <= |r| && forall i :: 0 <= i < |d'| && !HasKey(c[1..], d'[i].0) ==> r[i] == d'[i]
    ensures forall i :: 0 <= i < |d| && !HasKey(c, d[i].0) ==> r[i] == d[i]
  {
    TailKeys(c);
    forall i | 0 <= i < |d| && !HasKey(c, d[i].0)
      ensures r[i] == d[i]
    {
      assert d[i].0 != c[0].0;
    }
  }

  /** One step of `Update`, for the new keys: they follow the old ones in
      `c`'s order. */
  lemma UpdateStepNew<K(!new), V>(d: Dict<K, V>, c: Dict<K, V>, d': Dict<K, V>, r: Dict<K, V>)
    requires DistinctKeys(c) && c != []
    requires |d'| == if HasKey(d, c[0].0) then |d| else |d| + 1
    requires |d'| <= |r| && |r| == |d'| + |NewEntries(d, c[1..])| && r[|d'|..] == NewEntries(d, c[1..])
    requires !HasKey(d, c[0].0) ==> d'[|d|] == c[0] && r[|d|] == d'[|d|]
    ensures |r| == |d| + |NewEntries(d, c)| && r[|d|..] == NewEntries(d, c)
  {
    if !HasKey(d, c[0].0) {
      assert r[|d|..] == [r[|d|]] + r[|d'|..];
    }
  }

  /** In a dict with distinct keys, the rest after the first entry has
      exactly the other keys. */
  lemma TailKeys<K, V>(c: Dict<K, V>)
    requires DistinctKeys(c) && c != []
    ensures forall k :: HasKey(c, k) <==> k == c[0].0 || HasKey(c[1..], k)
    ensures !HasKey(c[1..], c[0].0)
  {
    assert forall i :: 0 < i < |c| ==> c[1..][i - 1] == c[i];
  }

  /** Assigning the first entry of `c` does not change which later entries
      are new. */
  lemma SameNewEntriesAfterPut<K(!new), V>(d: Dict<K, V>, c: Dict<K, V>)
    requires DistinctKeys(c) && c != []
    ensures NewEntries(Put(d, c[0].0, c[0].1), c[1..]) == NewEntries(d, c[1..])
  {
    var tail := c[1..];
    var d' := Put(d, c[0].0, c[0].1);
    assert forall i :: 0 <= i < |tail| ==> tail[i] == c[i + 1];
    forall i | 0 <= i < |tail|
      ensures HasKey(d', tail[i].0) <==> HasKey(d, tail[i].0)
    {
      assert tail[i].0 != c[0].0;
      assert Get(d', tail[i].0) == Get(d, tail[i].0);
    }
    NewEntriesSameKeys(d', d, tail);
  }

  /** Updating with a one-entry dict is the single assignment `d[k] = v`. */
  lemma UpdateSingle<K(!new), V>(d: Dict<K, V>, k: K, v: V)
    ensures DistinctKeys([(k, v)])
    ensures Update(d, [(k, v)]) == Put(d, k, v)
    ensures forall k' :: HasKey([(k, v)], k') <==> k' == k
  {
  }

  /** Updating with an empty dict or the same dict again changes nothing:
      `d.update(c); d.update(c)` leaves `d` as the first call did. */
  lemma {:induction false} UpdateIdempotent<K(!new), V>(d: Dict<K, V>, c: Dict<K, V>)
    requires DistinctKeys(d) && DistinctKeys(c)
    ensures Update(Update(d, c), c) == Update(d, c)
  {
    var e := Update(d, c);
    forall i | 0 <= i < |c|
      ensures Get(e, c[i].0) == Some(c[i].1)
    {
      GetEntry(c, i);
    }
    UpdateWithPresent(e, c);
  }

  lemma {:induction false} UpdateWithPresent<K(!new), V>(e: Dict<K, V>, c: Dict<K, V>)
    requires DistinctKeys(e) && DistinctKeys(c)
    requires forall i :: 0 <= i < |c| ==> Get(e, c[i].0) == Some(c[i].1)
    ensures Update(e, c) == e
    decreases |c|
  {
    if c != [] {
      PutUnchanged(e, c[0].0, c[0].1);
      var tail := c[1..];
      assert forall i :: 0 <= i < |tail| ==> tail[i] == c[i + 1];
      UpdateWithPresent(e, tail);
    }
  }

  /** `repr(d)`: `{k1: v1, k2: v2}` in insertion order, each key and value
      rendered by the given functions. */
  function Render<K, V>(d: Dict<K, V>, showKey: K -> string, showValue: V -> string): string {
    "{" + Join(", ", MapSeq(d, (e: (K, V)) => showKey(e.0) + ": " + showValue(e.1))) + "}"
  }
}
