// The loops of execute_batch, one by one.
module Loops {
  import opened BatchProofs
  import opened Caches
  import opened Clearing
  import opened Frequencies
  import opened Keys
  import opened Protocol
  import opened Running
  import opened Seqs
  import opened Values

  // readBatchMap leads from every tag asked for back to its record.
  predicate KeyedBy(tags: seq<Tag>, m: map<Tag, Key>) {
    forall i :: 0 <= i < |tags| ==> tags[i] in m && m[tags[i]] == tags[i].key
  }

  lemma StampOneMore(m: map<Key, int>, keys: set<Key>, k: Key, t: int)
    ensures Stamped(m, keys + {k}, t) == Stamped(m, keys, t)[k := t]
  {
  }

  lemma NothingStamped(m: map<Key, int>, t: int)
    ensures Stamped(m, Elems([]), t) == m
  {
    assert Elems<Key>([]) == {};
  }

  lemma StampedAt(m: map<Key, int>, keys: set<Key>, t: int, k: Key)
    requires k in m && k !in keys
    ensures k in Stamped(m, keys, t) && Stamped(m, keys, t)[k] == m[k]
  {
  }

  // Asks for the key's current tag and stamps the key with the new batch number.
  method ReadOne(bst: FrequencySmoother, key: Key, t: int, tags: seq<Tag>, readMap: map<Tag, Key>)
    returns (moreTags: seq<Tag>, moreMap: map<Tag, Key>)
    requires bst.Valid() && key in bst.accessFreqs && KeyedBy(tags, readMap)
    modifies bst`accessFreqs, bst`accessTree
    ensures bst.Valid() && bst.accessFreqs == old(bst.accessFreqs)[key := t]
    ensures moreTags == tags + [TagOf(old(bst.accessFreqs), key)] && KeyedBy(moreTags, moreMap)
  {
    hide Indexed, Graph;
    var freq := bst.GetFrequency(key);
    var stKey := Tag(key, freq);
    moreMap := readMap[stKey := key];
    moreTags := tags + [stKey];
    bst.SetFrequency(key, t);
  }

  method ReadAndStamp(bst: FrequencySmoother, keys: seq<Key>, t: int, tags: seq<Tag>, readMap: map<Tag, Key>)
    returns (moreTags: seq<Tag>, moreMap: map<Tag, Key>)
    requires bst.Valid() && Distinct(keys) && Elems(keys) <= bst.accessFreqs.Keys && KeyedBy(tags, readMap)
    modifies bst`accessFreqs, bst`accessTree
    ensures bst.Valid() && bst.accessFreqs == Stamped(old(bst.accessFreqs), Elems(keys), t)
    ensures moreTags == tags + TagsOf(old(bst.accessFreqs), keys) && KeyedBy(moreTags, moreMap)
  {
    hide Indexed, Graph, Stamped, KeyedBy;
    ghost var freqs := bst.accessFreqs;
    moreTags, moreMap := tags, readMap;
    NothingStamped(freqs, t);
    assert keys[..0] == [];
    for i := 0 to |keys|
      invariant bst.Valid() && bst.accessFreqs == Stamped(freqs, Elems(keys[..i]), t)
      invariant moreTags == tags + TagsOf(freqs, keys)[..i] && KeyedBy(moreTags, moreMap)
    {
      var key := keys[i];
      assert key in Elems(keys) && key !in Elems(keys[..i]);
      StampedAt(freqs, Elems(keys[..i]), t, key);
      StampOneMore(freqs, Elems(keys[..i]), key, t);
      moreTags, moreMap := ReadOne(bst, key, t, moreTags, moreMap);
      assert Elems(keys[..i + 1]) == Elems(keys[..i]) + {key};
    }
    assert keys[..|keys|] == keys;
  }

  method GetBatch(store: map<Tag, Cell>, tags: seq<Tag>) returns (responses: seq<Cell>)
    requires Elems(tags) <= store.Keys
    ensures |responses| == |tags| && forall i :: 0 <= i < |tags| ==> tags[i] in store && responses[i] == store[tags[i]]
  {
    responses := [];
    for i := 0 to |tags|
      invariant |responses| == i && forall j :: 0 <= j < i ==> tags[j] in store && responses[j] == store[tags[j]]
    {
      assert tags[i] in Elems(tags);
      responses := responses + [store[tags[i]]];
    }
  }

  method PutBatch(store: map<Tag, Cell>, tags: seq<Tag>, cells: seq<Cell>) returns (after: map<Tag, Cell>)
    requires |tags| == |cells|
    ensures after == PutAll(store, tags, cells)
  {
    after := store;
    for i := 0 to |tags|
      invariant after == PutAll(store, tags[..i], cells[..i])
    {
      assert tags[..i + 1][..i] == tags[..i] && cells[..i + 1][..i] == cells[..i];
      after := after[tags[i] := cells[i]];
    }
    assert tags[..|tags|] == tags && cells[..|cells|] == cells;
  }

  // ---- the padding reads ----

  // Where the padding loop stands after j nodes of the tree.
  ghost predicate Scanned(m: map<Key, int>, order: seq<Entry>, pool: set<Key>, chosen: seq<Key>, j: nat) {
    && j <= |order| && Distinct(chosen) && Elems(chosen) <= pool
    && (forall a, b :: 0 <= a < b < |chosen| ==> FreqCmp(Entry(chosen[a], FreqOf(m, chosen[a])), Entry(chosen[b], FreqOf(m, chosen[b]))))
    && (forall k, i :: k in Elems(chosen) && j <= i < |order| ==> FreqCmp(Entry(k, FreqOf(m, k)), order[i]))
    && (forall i :: 0 <= i < j && order[i].key in pool ==> order[i].key in Elems(chosen))
  }

  ghost predicate Ordering(m: map<Key, int>, order: seq<Entry>) {
    && Elems(order) == Graph(m)
    && forall i, j :: 0 <= i < j < |order| ==> FreqCmp(order[i], order[j])
  }

  lemma OrderedEntry(m: map<Key, int>, order: seq<Entry>, i: nat)
    requires Ordering(m, order) && i < |order|
    ensures order[i].key in m && order[i] == Entry(order[i].key, FreqOf(m, order[i].key))
  {
    assert order[i] in Elems(order);
  }

  lemma ScanTakes(m: map<Key, int>, order: seq<Entry>, pool: set<Key>, chosen: seq<Key>, j: nat)
    requires Ordering(m, order) && Scanned(m, order, pool, chosen, j) && j < |order|
    ensures order[j].key !in Elems(chosen)
    ensures order[j].key in pool ==> Scanned(m, order, pool, chosen + [order[j].key], j + 1)
    ensures order[j].key !in pool ==> Scanned(m, order, pool, chosen, j + 1)
  {
    var k := order[j].key;
    OrderedEntry(m, order, j);
    if k in Elems(chosen) {
      FreqCmpAsymmetric(Entry(k, FreqOf(m, k)), order[j]);
      assert false;
    }
    ElemsConcat(chosen, [k]);
    assert Elems([k]) == {k};
    DistinctConcat(chosen, [k]);
    assert forall a :: 0 <= a < |chosen| ==> chosen[a] in Elems(chosen);
  }

  // The scan is over only when the whole pool has been taken.
  lemma ScanExhausted(m: map<Key, int>, order: seq<Entry>, pool: set<Key>, chosen: seq<Key>)
    requires Ordering(m, order) && Scanned(m, order, pool, chosen, |order|) && pool <= m.Keys
    ensures |chosen| >= |pool|
  {
    forall k | k in pool ensures k in Elems(chosen) {
      assert Entry(k, m[k]) in Elems(order);
    }
    SubsetSize(pool, Elems(chosen));
    DistinctSize(chosen);
  }

  lemma ScanIs(m: map<Key, int>, order: seq<Entry>, pool: set<Key>, chosen: seq<Key>, j: nat)
    requires Ordering(m, order) && Scanned(m, order, pool, chosen, j) && pool <= m.Keys
    ensures IsScan(m, pool, chosen)
  {
    forall k, o | k in Elems(chosen) && o in pool - Elems(chosen)
      ensures FreqCmp(Entry(k, FreqOf(m, k)), Entry(o, FreqOf(m, o)))
    {
      assert Entry(o, m[o]) in Elems(order);
      var i :| 0 <= i < |order| && order[i] == Entry(o, m[o]);
    }
  }

  // The records the padding loop may take: not cached, not parked, not being read.
  ghost predicate IsPool(freqs: map<Key, int>, cached: map<Key, Bytes>, evicted: map<Key, Bytes>, t: Tracker, pool: set<Key>) {
    && pool <= freqs.Keys
    && forall k :: k in freqs ==> (k in pool <==> k !in cached && k !in evicted && !Busy(t, k))
  }

  // The loop never tests for the end of the tree; it does not have to.
  method PadWithReal(bst: FrequencySmoother, cache: Cache, evicted: map<Key, Bytes>, runningKeys: RunningKeys, need: nat, ghost pool: set<Key>)
    returns (chosen: seq<Key>)
    requires bst.Valid() && IsPool(bst.accessFreqs, cache.cacheMap, evicted, runningKeys.View(), pool) && |pool| >= need
    modifies runningKeys`mMap
    ensures |chosen| == need && IsScan(bst.accessFreqs, pool, chosen)
    ensures Elems(chosen) + old(runningKeys.mMap) <= runningKeys.mMap
    ensures runningKeys.mMap <= old(runningKeys.mMap) + runningKeys.getMap.Keys + Elems(chosen)
  {
    hide Scanned, Ordering, IsScan, Indexed, Graph;
    ghost var freqs, tracker := bst.accessFreqs, runningKeys.View();
    var order := bst.Ordered();
    OrderingHolds(freqs, order);
    ScanStarts(freqs, order, pool);
    chosen := [];
    var it := 0;
    while |chosen| < need
      invariant it <= |order| && |chosen| <= need && Scanned(freqs, order, pool, chosen, it)
      invariant Elems(chosen) + tracker.running <= runningKeys.mMap
      invariant runningKeys.mMap <= tracker.running + runningKeys.getMap.Keys + Elems(chosen)
      decreases |order| - it
    {
      if it == |order| {
        ScanExhausted(freqs, order, pool, chosen);
        assert false;
      }
      var key := order[it].key;
      OrderedEntry(freqs, order, it);
      ScanTakes(freqs, order, pool, chosen, it);
      if !cache.CheckIfKeyExists(key) && key !in evicted {
        var isPresentInRunningKeys := runningKeys.InsertIfNotPresent(key);
        if !isPresentInRunningKeys {
          ElemsConcat(chosen, [key]);
          chosen := chosen + [key];
        }
      }
      it := it + 1;
    }
    ScanIs(freqs, order, pool, chosen, it);
  }

  lemma OrderingHolds(m: map<Key, int>, order: seq<Entry>)
    requires Elems(order) == Graph(m) && forall i, j :: 0 <= i < j < |order| ==> FreqCmp(order[i], order[j])
    ensures Ordering(m, order)
  {
  }

  lemma ScanStarts(m: map<Key, int>, order: seq<Entry>, pool: set<Key>)
    ensures Scanned(m, order, pool, [], 0)
  {
  }

  // ---- the fake reads ----

  ghost predicate Below(m: map<Key, int>, t: int) {
    forall k :: k in m ==> m[k] < t
  }

  lemma Idle(fakes: map<Key, int>, running: set<Key>, picked: set<Key>, t: Tracker, k: Key)
    requires fakes.Keys !! running + t.waiting.Keys && ComesNext(fakes, picked, k) && t.running == running + picked
    ensures !Busy(t, k)
  {
  }

  // The first key that is not picked yet.
  ghost predicate ComesNext(m: map<Key, int>, picked: set<Key>, key: Key) {
    && key in m && key !in picked
    && forall o :: o in m && o !in picked && o != key ==> FreqCmp(Entry(key, m[key]), Entry(o, m[o]))
  }

  lemma SomethingLeft(fakes: map<Key, int>, picked: set<Key>)
    requires picked <= fakes.Keys && |picked| < |fakes|
    ensures exists o :: o in fakes.Keys - picked
  {
    var rest := fakes.Keys - picked;
    assert fakes.Keys == picked + rest && |fakes| == |fakes.Keys|;
    assert |picked + rest| == |picked| + |rest|;
  }

  lemma Unstamped(fakes: map<Key, int>, picked: set<Key>, t: int, key: Key)
    requires Below(fakes, t) && picked <= fakes.Keys && |picked| < |fakes|
    requires key in Stamped(fakes, picked, t)
    requires IsFirst(Graph(Stamped(fakes, picked, t)), Entry(key, Stamped(fakes, picked, t)[key]))
    ensures TagOf(Stamped(fakes, picked, t), key) == TagOf(fakes, key) && ComesNext(fakes, picked, key)
  {
    var m := Stamped(fakes, picked, t);
    SomethingLeft(fakes, picked);
    var o :| o in fakes.Keys - picked;
    assert Entry(o, m[o]) in Graph(m) && m[o] < t;
    assert key !in picked;
    forall q | q in fakes && q !in picked && q != key ensures FreqCmp(Entry(key, fakes[key]), Entry(q, fakes[q])) {
      assert Entry(q, m[q]) in Graph(m);
    }
  }

  lemma ScanSnoc(m: map<Key, int>, picked: seq<Key>, key: Key)
    requires IsScan(m, m.Keys, picked) && ComesNext(m, Elems(picked), key)
    ensures IsScan(m, m.Keys, picked + [key]) && Elems(picked + [key]) == Elems(picked) + {key}
  {
    ElemsConcat(picked, [key]);
    assert Elems([key]) == {key};
    DistinctConcat(picked, [key]);
    assert forall i :: 0 <= i < |picked| ==> picked[i] in Elems(picked);
  }

  // The loop makes no progress on a busy key; it never meets one.
  method PadWithFake(bst: FrequencySmoother, runningKeys: RunningKeys, n: nat, t: int, tags: seq<Tag>, readMap: map<Tag, Key>)
    returns (picked: seq<Key>, moreTags: seq<Tag>, moreMap: map<Tag, Key>)
    requires bst.Valid() && n <= |bst.accessFreqs| && Below(bst.accessFreqs, t)
    requires bst.accessFreqs.Keys !! runningKeys.mMap + runningKeys.getMap.Keys && KeyedBy(tags, readMap)
    modifies bst`accessFreqs, bst`accessTree, runningKeys`mMap
    ensures bst.Valid() && bst.accessFreqs == Stamped(old(bst.accessFreqs), Elems(picked), t)
    ensures IsScan(old(bst.accessFreqs), old(bst.accessFreqs).Keys, picked) && |picked| == n
    ensures moreTags == tags + TagsOf(old(bst.accessFreqs), picked) && KeyedBy(moreTags, moreMap)
    ensures runningKeys.mMap == old(runningKeys.mMap) + Elems(picked)
  {
    hide IsScan, Indexed, Graph, Stamped, IsFirst, KeyedBy, FreqCmp, FrequencySmoother.Valid, Below, Busy, TagsOf, ComesNext, Elems, TagOf;
    ghost var fakes, running := bst.accessFreqs, runningKeys.mMap;
    moreTags, moreMap, picked := tags, readMap, [];
    FakeStart(fakes, running, t);
    var i := 0;
    while i < n
      invariant |picked| == i <= n && bst.Valid() && bst.accessFreqs == Stamped(fakes, Elems(picked), t)
      invariant IsScan(fakes, fakes.Keys, picked)
      invariant moreTags == tags + TagsOf(fakes, picked) && KeyedBy(moreTags, moreMap)
      invariant runningKeys.mMap == running + Elems(picked)
    {
      FakeRoom(fakes, picked, t);
      var fakeMinKey := bst.GetKeyWithMinFrequency();
      Unstamped(fakes, Elems(picked), t, fakeMinKey);
      Idle(fakes, running, Elems(picked), runningKeys.View(), fakeMinKey);
      var isPresentInRunningKeys := runningKeys.InsertIfNotPresent(fakeMinKey);
      if !isPresentInRunningKeys {
        moreTags, moreMap := ReadOne(bst, fakeMinKey, t, moreTags, moreMap);
        ScanSnoc(fakes, picked, fakeMinKey);
        StampOneMore(fakes, Elems(picked), fakeMinKey, t);
        TagsOfSnoc(fakes, picked, fakeMinKey);
        picked := picked + [fakeMinKey];
        i := i + 1;
      }
    }
  }

  lemma TagsOfSnoc(m: map<Key, int>, keys: seq<Key>, k: Key)
    ensures TagsOf(m, keys + [k]) == TagsOf(m, keys) + [TagOf(m, k)]
  {
  }

  lemma FakeStart(fakes: map<Key, int>, running: set<Key>, t: int)
    ensures Stamped(fakes, Elems([]), t) == fakes && IsScan(fakes, fakes.Keys, []) && TagsOf(fakes, []) == [] && running + Elems([]) == running
  {
    NothingStamped(fakes, t);
  }

  lemma FakeRoom(fakes: map<Key, int>, picked: seq<Key>, t: int)
    requires IsScan(fakes, fakes.Keys, picked) && |picked| < |fakes|
    ensures |Elems(picked)| < |fakes| && Elems(picked) <= fakes.Keys && Stamped(fakes, Elems(picked), t) != map[]
  {
    DistinctSize(picked);
    assert Stamped(fakes, Elems(picked), t).Keys == fakes.Keys;
    assert fakes != map[] && fakes.Keys != {};
  }

  // ---- the promises ----

  // promiseSatisfy is an unordered map: its pairs are cleared in any order.
  method ClearPromises(runningKeys: RunningKeys, promiseSatisfy: map<Key, Bytes>, ghost t: Tracker)
    requires Shape(t) && runningKeys.mMap <= promiseSatisfy.Keys
    requires Ready(AnsweredBy(t, promiseSatisfy, {}), t.requests, GotBy(t, promiseSatisfy, promiseSatisfy.Keys))
    requires Cleared(t, promiseSatisfy, {}, runningKeys.View())
    modifies runningKeys
    ensures Ready(AnsweredBy(t, promiseSatisfy, promiseSatisfy.Keys), t.requests, GotBy(t, promiseSatisfy, promiseSatisfy.Keys))
    ensures Cleared(t, promiseSatisfy, promiseSatisfy.Keys, runningKeys.View()) && runningKeys.mMap == {}
  {
    hide Shape, Ready, Cleared, AnsweredBy, GotBy, Clearable, TryClear;
    var todo := promiseSatisfy.Keys;
    ghost var done: set<Key> := {};
    while todo != {}
      invariant todo + done == promiseSatisfy.Keys && todo !! done && runningKeys.mMap <= todo
      invariant Ready(AnsweredBy(t, promiseSatisfy, done), t.requests, GotBy(t, promiseSatisfy, promiseSatisfy.Keys))
      invariant Cleared(t, promiseSatisfy, done, runningKeys.View())
    {
      var key :| key in todo;
      ClearOne(t, promiseSatisfy, done, runningKeys.View(), key);
      runningKeys.TryClearPromises(key, promiseSatisfy[key]);
      todo := todo - {key};
      done := done + {key};
    }
    assert done == promiseSatisfy.Keys;
  }
}
