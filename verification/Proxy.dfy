// waffle_proxy: the objects behind the protocol, and the code that works on them.
module Proxy {
  import opened BatchKeeps
  import opened Batching
  import opened Caches
  import opened Clearing
  import opened Exchanges
  import opened Frequencies
  import opened Invariant
  import opened Keys
  import opened Loops
  import opened Protocol
  import opened PutProofs
  import opened Running
  import opened Runs
  import opened Seqs
  import opened Serving
  import opened Splits
  import opened Starting
  import opened Values

  class WaffleProxy {
    const p: Params
    const cache: Cache
    const realBst: FrequencySmoother
    const fakeBst: FrequencySmoother
    const runningKeys: RunningKeys
    var evictedItems: map<Key, Bytes>
    var keysToBeDeleted: seq<Key>
    var timeStamp: int
    var keysNotUsed: seq<seq<Tag>>
    // The storage server.
    var store: map<Tag, Cell>
    // The consumer thread's locals: storage_batch, i and request_id.
    var storageBatch: seq<Key>
    var slots: nat
    var requestId: nat
    ghost var hist: map<Key, Bytes>
    ghost var written: set<Tag>
    ghost var read: set<Tag>
    ghost var asked: map<nat, seq<Key>>

    ghost predicate Valid()
      reads cache, realBst, fakeBst
    {
      && realBst != fakeBst && realBst.needTimeStamp && !fakeBst.needTimeStamp
      && realBst.Valid() && fakeBst.Valid() && cache.Valid()
    }

    ghost function View(): State
      reads this, cache, realBst, fakeBst, runningKeys
    {
      State(realBst.accessFreqs, realBst.uniqueItemWithTimeStamp, fakeBst.accessFreqs, cache.accessList, evictedItems,
            runningKeys.View(), keysToBeDeleted, storageBatch, slots, requestId, timeStamp, store, keysNotUsed,
            hist, written, read, asked)
    }

    constructor (p: Params)
      ensures Valid() && this.p == p && fresh(cache) && fresh(realBst) && fresh(fakeBst) && fresh(runningKeys)
      ensures View() == Blank()
    {
      this.p := p;
      cache := new Cache();
      realBst := new FrequencySmoother(true);
      fakeBst := new FrequencySmoother(false);
      runningKeys := new RunningKeys();
      evictedItems, keysToBeDeleted, timeStamp, keysNotUsed := map[], [], 0, [];
      store, storageBatch, slots, requestId := map[], [], 0, 0;
      hist, written, read, asked := map[], {}, {}, map[];
    }

    // ---- init: the data placement ----

    method InsertRecords(keys: seq<Key>, values: seq<Bytes>)
      requires Valid() && |keys| == |values| && Distinct(keys) && forall i :: 0 <= i < |keys| ==> keys[i].Bucket?
      requires realBst.accessFreqs == map[] && store == map[] && hist == map[]
      modifies this`store, this`hist, realBst
      ensures Valid() && realBst.accessFreqs == Zeros(Elems(keys)) && store.Keys == ZeroTags(Elems(keys))
      ensures Placed(keys, values, |keys|, store, hist)
    {
      hide Indexed, Graph, Zeros, ZeroTags, Placed, Wraps, Cache.Valid;
      ZerosNone(keys);
      NothingPlaced(keys, values);
      for i := 0 to |keys|
        invariant Valid() && realBst.accessFreqs == Zeros(Elems(keys[..i])) && store.Keys == ZeroTags(Elems(keys[..i]))
        invariant Placed(keys, values, i, store, hist)
      {
        NotYet(keys, i);
        realBst.Insert(keys[i]);
        var freq := realBst.GetFrequency(keys[i]);
        var cell := EncryptNonDeterministic(values[i]);
        ZerosMore(keys, i);
        PlacedMore(keys, values, i, store, hist, cell);
        store := store[Tag(keys[i], freq) := cell];
        hist := hist[keys[i] := values[i]];
      }
      assert keys[..|keys|] == keys;
    }

    // Draws until cacheCapacity different records are cached.
    method FillCache(keys: seq<Key>, values: seq<Bytes>, rolls: seq<nat>, cacheCapacity: nat)
      requires Valid() && cache.accessList == [] && |keys| == |values| > 0 && Distinct(keys)
      requires |Accepted(Indexes(rolls, |keys|), cacheCapacity)| == cacheCapacity
      modifies this`store, cache
      ensures Valid() && InRange(Accepted(Indexes(rolls, |keys|), cacheCapacity), |keys|)
      ensures cache.accessList == Drawn(keys, values, Accepted(Indexes(rolls, |keys|), cacheCapacity))
      ensures store == old(store) - ZeroTags(KeySet(cache.accessList))
    {
      hide FrequencySmoother.Valid, DistinctKeys, ListMap, Erase, ZeroTags, KeySet, Drawn, Fresh, Accepted, InRange, Distinct, Cache.Valid;
      ghost var before, all := store, Indexes(rolls, |keys|);
      ghost var draws: seq<nat> := [];
      var temp := {};
      var j := 0;
      DrawsStart(keys, values, all, before);
      while |temp| < cacheCapacity
        invariant j <= |rolls| && DrawsAt(keys, values, all, j, draws, temp) && |temp| == |draws| <= cacheCapacity
        invariant Valid() && cache.accessList == Drawn(keys, values, draws) && store == before - ZeroTags(KeySet(cache.accessList))
        decreases |rolls| - j
      {
        if j == |rolls| {
          DrawsLast(keys, values, all, j, draws, temp, cacheCapacity);
          assert false;
        }
        var index := rolls[j] % |keys|;
        DrawsNext(keys, values, all, j, draws, temp, index);
        if keys[index] !in temp {
          temp := temp + {keys[index]};
          EraseAbsent(cache.accessList, keys[index]);
          ZeroTagsMore(KeySet(cache.accessList), keys[index]);
          cache.InsertIntoCache(keys[index], values[index]);
          store := store - {Tag(keys[index], 0)};
          draws := draws + [index];
        }
        j := j + 1;
      }
      DrawsEnd(keys, values, all, j, draws, temp, cacheCapacity);
    }

    // Draws until n different names are found.
    method InsertFakes(nameRolls: seq<Name>, n: nat)
      requires Valid() && fakeBst.accessFreqs == map[] && |Accepted(nameRolls, n)| == n
      modifies this`store, fakeBst
      ensures Valid() && fakeBst.accessFreqs == Zeros(Elems(FakesOf(Accepted(nameRolls, n))))
      ensures store.Keys == old(store).Keys + ZeroTags(Elems(FakesOf(Accepted(nameRolls, n))))
      ensures SameBuckets(old(store), store) && InvNoise(fakeBst.accessFreqs, store, p.objectSize)
    {
      hide InvNoise, WrapsNoise, Zeros, ZeroTags, Indexed, Graph, Cache.Valid, Wraps, Alphanumeric, Fresh, Accepted, SameBuckets, FrequencySmoother.Valid, FakesOf;
      ghost var before := store;
      ghost var names := [];
      var tempFakeKeys := {};
      var i, j := 0, 0;
      NamesStart(nameRolls, before);
      NoFakeNoise(before, p.objectSize);
      while i < n
        invariant j <= |nameRolls| && NamesAt(nameRolls, j, names, tempFakeKeys) && i == |names| <= n
        invariant Valid() && fakeBst.accessFreqs == Zeros(Elems(FakesOf(names)))
        invariant store.Keys == before.Keys + ZeroTags(Elems(FakesOf(names))) && SameBuckets(before, store)
        invariant InvNoise(fakeBst.accessFreqs, store, p.objectSize)
        decreases |nameRolls| - j
      {
        if j == |nameRolls| {
          NamesLast(nameRolls, j, names, tempFakeKeys, n);
          assert false;
        }
        var fakeKey := Fake(nameRolls[j]);
        NamesNext(nameRolls, j, names, tempFakeKeys);
        if fakeKey !in tempFakeKeys {
          i := i + 1;
          fakeBst.Insert(fakeKey);
          tempFakeKeys := tempFakeKeys + {fakeKey};
          var freq := fakeBst.GetFrequency(fakeKey);
          var noise := GenRandom(p.objectSize);
          var fakeKeyValue := EncryptNonDeterministic(noise);
          FakesMore(names, nameRolls[j]);
          BucketsStay(before, store, fakeKey, fakeKeyValue);
          NoiseWraps(fakeKeyValue, noise);
          NoiseMore(Zeros(Elems(FakesOf(names))), store, p.objectSize, fakeKey, fakeKeyValue);
          store := store[Tag(fakeKey, freq) := fakeKeyValue];
          names := names + [nameRolls[j]];
        }
        j := j + 1;
      }
      NamesEnd(nameRolls, j, names, tempFakeKeys, n);
    }

    // A run starts here.
    method Init(keys: seq<Key>, values: seq<Bytes>, rolls: seq<nat>, nameRolls: seq<Name>)
      requires Valid() && View() == Blank() && RollsOk(p, keys, values, rolls, nameRolls)
      modifies this, cache, realBst, fakeBst
      ensures Valid() && IsInitial(p, View()) && hist.Keys == Elems(keys)
      ensures forall i :: 0 <= i < |keys| ==> keys[i] in hist && hist[keys[i]] == values[i]
    {
      hide Cache.Valid, Zeros, ZeroTags, Placed, Indexed, Graph, InputOk, Drawn, FakesOf, IsInitial, SameBuckets;
      hide Loaded, FrequencySmoother.Valid, Accepted, RollsOk, Indexes, InvNoise;
      RollsParts(p, keys, values, rolls, nameRolls);
      ghost var draws, names := Accepted(Indexes(rolls, p.N), p.C), Accepted(nameRolls, p.D);
      InputParts(p, keys, values, draws, names);
      InsertRecords(keys, values);
      ghost var placed := store;
      FillCache(keys, values, rolls, p.C);
      ghost var kept := store;
      InsertFakes(nameRolls, p.D);
      written := store.Keys;
      RealIndexed(realBst);
      BucketsSame(kept, store);
      LoadedIs(keys, values, draws, names, placed, View(), p.objectSize);
      AllPlaced(keys, values, placed, hist);
      HistKeys(keys, values, placed, hist);
      StartIsInitial(p, keys, values, draws, names, placed, View());
    }

    // ---- requests ----

    method GetSplitKeys(item: Item, lo: int, hi: int) returns (keys: seq<Key>)
      requires Valid()
      modifies realBst`uniqueItemWithTimeStamp
      ensures Valid() && keys == old(SplitOf(View(), item, lo, hi))
      ensures View() == old(View()).(stamps := Touch(old(View()).stamps, item))
    {
      var available := realBst.GetTimestampForKey(item);
      var times := SplitTimes(available, lo, hi);
      keys := [];
      for i := 0 to |times|
        invariant keys == BucketsAt(item, times)[..i]
      {
        keys := keys + [Bucket(item, times[i])];
      }
    }

    method RemoveOldestData(currentKey: Key)
      requires Valid() && currentKey.Bucket? && StampsOf(realBst.uniqueItemWithTimeStamp, currentKey.item) != {}
      modifies this`evictedItems, this`keysToBeDeleted, this`storageBatch, cache, realBst, runningKeys`mMap
      ensures Valid()
      ensures View() == RemoveVictim(old(View()), Oldest(old(View()).stamps, currentKey.item))
    {
      hide DropStamp, Erase, FrequencySmoother.Valid, StampsOf, PlaceOf, KeySet, ListMap, Busy, Oldest, DistinctKeys;
      var oldestKey := realBst.GetOldestKey(currentKey);
      OldestIs(realBst.uniqueItemWithTimeStamp, currentKey.item, oldestKey);
      var val, isPresentInCache := cache.GetValueWithoutPositionChangeNew(oldestKey);
      var valEvicted := if oldestKey in evictedItems then evictedItems[oldestKey] else [];
      var state := 0;
      state := if isPresentInCache then 1 else state;
      state := if valEvicted != [] then 2 else state;
      PlaceLookup(cache.accessList, evictedItems, oldestKey, isPresentInCache, valEvicted);
      if state == 0 {
        var isPresentInRunningKeys := runningKeys.InsertIfNotPresent(oldestKey);
        if !isPresentInRunningKeys {
          storageBatch := storageBatch + [oldestKey];
        }
        keysToBeDeleted := keysToBeDeleted + [oldestKey];
      } else if state == 1 {
        var removed := cache.RemoveKey(oldestKey);
        realBst.RemoveKey(oldestKey);
      } else {
        evictedItems := evictedItems - {oldestKey};
        realBst.RemoveKey(oldestKey);
      }
    }

    // The GET branch, for one sub-operation.
    method GetOne(currentKey: Key, id: nat) returns (outcome: Outcome)
      requires Valid()
      modifies this`storageBatch, this`asked, runningKeys
      ensures Valid()
      ensures outcome == NoRecord <==> currentKey !in old(View()).freqs
      ensures outcome == Exit <==> Conflicts(old(View()), currentKey)
      ensures View() == AfterGet(old(View()), id, currentKey, outcome)
    {
      hide Valid, KeySet, ListMap, Hit, WaitFor, Busy, Local;
      if !realBst.CheckIfUniqueItemWithTimeStampExists(currentKey) {
        runningKeys.Refuse(id);
        return NoRecord;
      }
      outcome := GetLive(currentKey, id);
    }

    // The same, for a key that is in the index.
    method GetLive(currentKey: Key, id: nat) returns (outcome: Outcome)
      requires Valid() && currentKey in realBst.accessFreqs
      modifies this`storageBatch, this`asked, runningKeys
      ensures Valid() && outcome != NoRecord
      ensures outcome == Exit <==> Conflicts(old(View()), currentKey)
      ensures View() == AfterGet(old(View()), id, currentKey, outcome)
    {
      hide DistinctKeys, FrequencySmoother.Valid, KeySet, ListMap, Hit, WaitFor, Busy, Local;
      var val, isPresentInCache := cache.GetValueWithoutPositionChangeNew(currentKey);
      var valEvicted := if currentKey in evictedItems then evictedItems[currentKey] else [];
      LocalLookup(cache.accessList, evictedItems, currentKey, val, isPresentInCache, valEvicted);
      var conflict := false;
      if isPresentInCache {
        conflict := runningKeys.InsertCache(id, currentKey, val);
      } else if valEvicted != [] {
        conflict := runningKeys.InsertCache(id, currentKey, valEvicted);
      } else {
        var isPresentInRunningKeys := runningKeys.InsertGetIfNotPresent(currentKey, id);
        if !isPresentInRunningKeys {
          storageBatch := storageBatch + [currentKey];
        }
      }
      if conflict {
        return Exit;
      }
      asked := asked[id := (if id in asked then asked[id] else []) + [currentKey]];
      return Done;
    }

    // The PUT branch. A live key may leave its old node in the tree; the views agree exactly when it does not.
    method PutOne(currentKey: Key, value: Bytes)
      requires Valid() && currentKey.Bucket? && StampsOf(realBst.uniqueItemWithTimeStamp, currentKey.item) != {}
      modifies this, cache, realBst, runningKeys`mMap
      ensures Valid() <==> LeavesNoNode(old(View()), currentKey)
      ensures View() == Put(old(View()), currentKey, value).(slots := old(slots))
    {
      hide DropStamp, Erase, Indexed, Graph, StampsOf, DistinctKeys, ListMap, AddStamp, RemoveVictim, Oldest;
      VictimShape(View().stamps, currentKey.item);
      RemoveVictimSlots(View(), Oldest(View().stamps, currentKey.item));
      RemoveOldestData(currentKey);
      TreeAfterPut(realBst.accessFreqs, realBst.uniqueItemWithTimeStamp, currentKey, timeStamp);
      cache.InsertIntoCache(currentKey, value);
      realBst.Insert(currentKey);
      realBst.SetFrequency(currentKey, timeStamp);
      hist := hist[currentKey := value];
    }

    // Only a GET has an id.
    method CreateSecurityBatch(currentKey: Key, value: Bytes, id: nat) returns (outcome: Outcome)
      requires Valid()
      requires value != [] ==> currentKey.Bucket? && StampsOf(realBst.uniqueItemWithTimeStamp, currentKey.item) != {}
      modifies this, cache, realBst, runningKeys
      ensures Valid() <==> value == [] || LeavesNoNode(old(View()), currentKey)
      ensures outcome == NoRecord <==> value == [] && currentKey !in old(View()).freqs
      ensures outcome == Exit <==> value == [] && Conflicts(old(View()), currentKey)
      ensures View() == if value == [] then AfterGet(old(View()), id, currentKey, outcome)
                        else Put(old(View()), currentKey, value).(slots := slots)
      ensures slots == old(slots)
    {
      if value == [] {
        outcome := GetOne(currentKey, id);
      } else {
        PutOne(currentKey, value);
        outcome := Done;
      }
    }

    // The consumer's GET branch: no sub-operation meets an unknown record or a conflict.
    method ServeGet(item: Item, lo: int, hi: int)
      requires Valid() && Inv(p, View()) && Enabled(p, View(), GetStep(item, lo, hi))
      modifies this, cache, realBst, runningKeys
      ensures Valid() && View() == Get(old(View()), item, lo, hi)
    {
      hide Valid, Inv, Enabled, Conflicts, Get, SplitOf, Touch, SubGet, SubGets, LeavesNoNode;
      ghost var s := View();
      ghost var touched := View().(stamps := Touch(View().stamps, item));
      var keys := GetSplitKeys(item, lo, hi);
      SubGetsNone(touched, requestId, keys);
      for j := 0 to |keys|
        invariant Valid() && requestId == s.nextId && View() == SubGets(touched, s.nextId, keys, j)
      {
        GetSoFar(p, s, item, lo, hi, j);
        var outcome := CreateSecurityBatch(keys[j], [], requestId);
        slots := slots + 1;
        SubGetsMore(touched, s.nextId, keys, j);
      }
      GetSoFar(p, s, item, lo, hi, |keys|);
      requestId := requestId + 1;
    }

    // The consumer's PUT branch.
    method ServePut(key: Key, value: Bytes)
      requires Valid() && value != [] && key.Bucket? && StampsOf(realBst.uniqueItemWithTimeStamp, key.item) != {}
      modifies this, cache, realBst, runningKeys
      ensures Valid() <==> LeavesNoNode(old(View()), key)
      ensures View() == Put(old(View()), key, value)
    {
      hide Valid, Put, SubGet, Conflicts, LeavesNoNode, StampsOf;
      PutSlots(View(), key, value);
      var outcome := CreateSecurityBatch(key, value, 0);
      slots := slots + 1;
    }

    // ---- a batch ----

    // The real records to read: the round's, and padding among the others in the store.
    method SelectReal(ghost s: State) returns (storageKeys: seq<Tag>, readBatchMap: map<Tag, Key>, realKeysNotInCache: seq<Key>)
      requires Valid() && RoundReady(p, s) && Sane(p) && View() == s.(tracker := TryClearAll(s.tracker))
      modifies this`timeStamp, realBst`accessFreqs, realBst`accessTree, runningKeys`mMap
      ensures Valid() && PaddedReal(p, s, realKeysNotInCache, runningKeys.mMap)
      ensures storageKeys == TagsOf(s.freqs, s.ops + realKeysNotInCache) && KeyedBy(storageKeys, readBatchMap)
      ensures View() == s.(tracker := TryClearAll(s.tracker).(running := runningKeys.mMap),
                           freqs := Stamped(s.freqs, Elems(s.ops + realKeysNotInCache), s.clock + 1), clock := s.clock + 1)
    {
      hide RoundReady, TryClearAll, Below, Distinct, IsScan, IsPool, Stamped, KeyedBy, Eligible, DistinctKeys, ListMap, TagsOf;
      hide FrequencySmoother.Valid, Sane;
      RoundOps(p, s);
      timeStamp := timeStamp + 1;
      storageKeys, readBatchMap := ReadAndStamp(realBst, storageBatch, timeStamp, [], map[]);
      PoolIs(p, s, runningKeys.View());
      realKeysNotInCache := PadWithReal(realBst, cache, evictedItems, runningKeys, UnsignedDifference(p.B, |storageBatch| + p.F), Eligible(s));
      ScanUnstamped(s, realKeysNotInCache, timeStamp);
      StampTwice(s.freqs, s.ops, realKeysNotInCache, timeStamp);
      storageKeys, readBatchMap := ReadAndStamp(realBst, realKeysNotInCache, timeStamp, storageKeys, readBatchMap);
    }

    // Which tags to ask for: those of the real records, and of the F fake records longest unread.
    method SelectReads(ghost s: State) returns (storageKeys: seq<Tag>, readBatchMap: map<Tag, Key>, realKeysNotInCache: seq<Key>, ghost ch: Choices)
      requires Valid() && RoundReady(p, s) && Sane(p) && View() == s.(tracker := TryClearAll(s.tracker))
      modifies this`timeStamp, realBst`accessFreqs, realBst`accessTree, fakeBst`accessFreqs, fakeBst`accessTree, runningKeys`mMap
      ensures Valid() && Selected(p, s, ch) && ch == Choices(realKeysNotInCache, ch.fakeKeys, [], 0)
      ensures storageKeys == ReadTags(s, ch) && KeyedBy(storageKeys, readBatchMap)
      ensures runningKeys.mMap <= Elems(Reads(s, ch)) + Elems(ch.fakeKeys)
      ensures View() == s.(tracker := TryClearAll(s.tracker).(running := runningKeys.mMap), freqs := StampedReads(s, ch),
                           fakes := FakesAfter(s, ch), clock := s.clock + 1)
    {
      hide RoundReady, TryClearAll, Below, IsScan, Stamped, KeyedBy, Eligible, TagsOf, FrequencySmoother.Valid, Sane, Elems, PaddedReal;
      hide Selected, ReadTags, Reads, StampedReads, FakesAfter;
      RoundOps(p, s);
      storageKeys, readBatchMap, realKeysNotInCache := SelectReal(s);
      FakesIdle(p, s, realKeysNotInCache, runningKeys.mMap, runningKeys.getMap.Keys);
      var fakeKeys;
      fakeKeys, storageKeys, readBatchMap := PadWithFake(fakeBst, runningKeys, p.F, timeStamp, storageKeys, readBatchMap);
      ch := Choices(realKeysNotInCache, fakeKeys, [], 0);
      SelectedIs(p, s, realKeysNotInCache, fakeKeys);
    }

    ghost predicate AtExchange(s: State, ch: Choices, i: nat)
      reads this, cache, realBst
    {
      Exchanged(s, ch, i, cache.accessList, realBst.accessFreqs, realBst.uniqueItemWithTimeStamp, keysToBeDeleted)
    }

    // One read record: the oldest cached pair goes out, and the record comes in unless it is registered for deletion.
    method ExchangeOne(keyAboutToGoToCache: Key, response: Cell, ghost s: State, ghost ch: Choices, ghost i: nat)
      returns (writeKey: Tag, writeValue: Cell, fetched: Bytes, out: Key)
      requires Valid() && Ripe(p, s, ch) && i < |Reads(s, ch)| < |Through(s, ch)|
      requires AtExchange(s, ch, i) && keyAboutToGoToCache == Reads(s, ch)[i]
      requires DecryptNonDeterministic(response) == StoredValue(s, Reads(s, ch)[i])
      modifies this`evictedItems, this`keysToBeDeleted, cache, realBst
      ensures Valid() && AtExchange(s, ch, i + 1)
      ensures out == Through(s, ch)[i].key && evictedItems.Keys == old(evictedItems).Keys + {out}
      ensures writeKey == TagOf(StampedReads(s, ch), out) && Wraps(writeValue, Through(s, ch)[i].value)
      ensures fetched == StoredValue(s, Reads(s, ch)[i])
    {
      hide Ripe, Exchanged, Mid, Through, StampedReads, Wraps, StoredValue, DecryptNonDeterministic, DropStamp, Without, Erase, Reads;
      hide FrequencySmoother.Valid, ListMap;
      GoesOut(p, s, ch, i);
      ComesIn(p, s, ch, i);
      ExchangeHead(s, ch, i, cache.accessList, realBst.accessFreqs, realBst.uniqueItemWithTimeStamp, keysToBeDeleted);
      ghost var before := cache.accessList;
      var evicted := cache.EvictLRElementFromCache();
      var kv := evicted.value;
      evictedItems := evictedItems[kv.key := kv.value];
      out := kv.key;
      var freq := realBst.GetFrequency(kv.key);
      writeKey := Tag(kv.key, freq);
      writeValue := EncryptNonDeterministic(kv.value);
      fetched := DecryptNonDeterministic(response);
      if keyAboutToGoToCache in keysToBeDeleted {
        DropStep(p, s, ch, i, before, realBst.accessFreqs, realBst.uniqueItemWithTimeStamp, keysToBeDeleted);
        realBst.RemoveKey(keyAboutToGoToCache);
        keysToBeDeleted := Without(keysToBeDeleted, {keyAboutToGoToCache});
        return;
      }
      var valueAboutToGoToCache := fetched;
      if cache.CheckIfKeyExists(keyAboutToGoToCache) {
        var isPresent;
        valueAboutToGoToCache, isPresent := cache.GetValueWithoutPositionChangeNew(keyAboutToGoToCache);
      }
      KeepStep(p, s, ch, i, before, realBst.accessFreqs, realBst.uniqueItemWithTimeStamp, keysToBeDeleted);
      ListMapOf(cache.accessList);
      EraseAbsent(cache.accessList, keyAboutToGoToCache);
      cache.InsertIntoCache(keyAboutToGoToCache, valueAboutToGoToCache);
    }

    // The first part of the exchange loop: the real records.
    method Exchange(n: nat, storageKeys: seq<Tag>, readBatchMap: map<Tag, Key>, responses: seq<Cell>, ghost s: State, ghost ch: Choices)
      returns (writeBatchKeys: seq<Tag>, writeBatchValues: seq<Cell>, promiseSatisfy: map<Key, Bytes>, tempEvictedItems: set<Key>)
      requires Valid() && Ripe(p, s, ch) && n == |Reads(s, ch)| < |Through(s, ch)| && AtExchange(s, ch, 0) && evictedItems == map[]
      requires storageKeys == ReadTags(s, ch) && KeyedBy(storageKeys, readBatchMap) && Fetches(s, storageKeys, responses)
      modifies this`evictedItems, this`keysToBeDeleted, cache, realBst
      ensures Valid() && AtExchange(s, ch, n) && tempEvictedItems == evictedItems.Keys
      ensures Rewritten(s, ch, n, writeBatchKeys, writeBatchValues) && promiseSatisfy == Fetched(s, Reads(s, ch))
    {
      hide Valid, Ripe, Through, Rewritten, Fetched, StoredValue, Fetches, KeyedBy, Reads, ReadTags, StampedReads, Wraps;
      writeBatchKeys, writeBatchValues, promiseSatisfy, tempEvictedItems := [], [], map[], {};
      NothingRewritten(s, ch);
      for i := 0 to n
        invariant Valid() && AtExchange(s, ch, i) && tempEvictedItems == evictedItems.Keys
        invariant Rewritten(s, ch, i, writeBatchKeys, writeBatchValues) && promiseSatisfy == Fetched(s, Reads(s, ch)[..i])
      {
        ReadAt(s, ch, i, storageKeys, readBatchMap, responses);
        var key := readBatchMap[storageKeys[i]];
        var writeKey, writeValue, fetched, out := ExchangeOne(key, responses[i], s, ch, i);
        tempEvictedItems := tempEvictedItems + {out};
        RewrittenMore(s, ch, i, writeBatchKeys, writeBatchValues, writeKey, writeValue);
        writeBatchKeys := writeBatchKeys + [writeKey];
        writeBatchValues := writeBatchValues + [writeValue];
        FetchedMore(s, Reads(s, ch), i);
        promiseSatisfy := promiseSatisfy[key := fetched];
      }
      assert Reads(s, ch)[..n] == Reads(s, ch);
    }

    // The rest of it: fake records get fresh noise.
    method RewriteFakes(n: nat, storageKeys: seq<Tag>, readBatchMap: map<Tag, Key>, responses: seq<Cell>, keys: seq<Tag>,
                        values: seq<Cell>, fetched: map<Key, Bytes>, ghost fakeKeys: seq<Key>)
      returns (writeBatchKeys: seq<Tag>, writeBatchValues: seq<Cell>, promiseSatisfy: map<Key, Bytes>)
      requires fakeBst.Valid() && KeyedBy(storageKeys, readBatchMap) && |responses| == |storageKeys| == n + |fakeKeys|
      requires FakeSlots(storageKeys, n, fakeKeys, fakeBst.accessFreqs, fetched) && |keys| == |values|
      modifies fakeBst`accessFreqs
      ensures fakeBst.accessFreqs == old(fakeBst.accessFreqs) && fakeBst.Valid()
      ensures writeBatchKeys == keys + TagsOf(fakeBst.accessFreqs, fakeKeys)
      ensures |writeBatchValues| == |writeBatchKeys| && NoiseAfter(values, writeBatchValues, p.objectSize)
      ensures promiseSatisfy.Keys == fetched.Keys + Elems(fakeKeys) && Extends(fetched, promiseSatisfy)
    {
      hide FrequencySmoother.Valid, DecryptNonDeterministic, NoiseAfter, FakeSlots, Extends, KeyedBy, Wraps, Alphanumeric;
      writeBatchKeys, writeBatchValues, promiseSatisfy := keys, values, fetched;
      ghost var freqs := fakeBst.accessFreqs;
      NoNoise(values, fetched, p.objectSize);
      for i := n to |storageKeys|
        invariant fakeBst.accessFreqs == freqs && fakeBst.Valid()
        invariant writeBatchKeys == keys + TagsOf(freqs, fakeKeys)[..i - n]
        invariant |writeBatchValues| == |writeBatchKeys| && NoiseAfter(values, writeBatchValues, p.objectSize)
        invariant promiseSatisfy.Keys == fetched.Keys + Elems(fakeKeys[..i - n]) && Extends(fetched, promiseSatisfy)
      {
        FakeSlot(storageKeys, readBatchMap, n, fakeKeys, freqs, fetched, i);
        var fakeWriteKey := readBatchMap[storageKeys[i]];
        ElemsNext(fakeKeys, i - n);
        ExtendsMore(fetched, promiseSatisfy, fakeWriteKey, DecryptNonDeterministic(responses[i]));
        promiseSatisfy := promiseSatisfy[fakeWriteKey := DecryptNonDeterministic(responses[i])];
        var freq := fakeBst.GetFrequency(fakeWriteKey);
        assert Tag(fakeWriteKey, freq) == TagsOf(freqs, fakeKeys)[i - n];
        writeBatchKeys := writeBatchKeys + [Tag(fakeWriteKey, freq)];
        var noise := GenRandom(p.objectSize);
        var cell := EncryptNonDeterministic(noise);
        NoiseWraps(cell, noise);
        MoreNoise(values, writeBatchValues, cell, p.objectSize);
        writeBatchValues := writeBatchValues + [cell];
      }
      assert fakeKeys[..|fakeKeys|] == fakeKeys;
    }

    // The whole exchange loop.
    method MoveValues(n: nat, storageKeys: seq<Tag>, readBatchMap: map<Tag, Key>, responses: seq<Cell>, ghost s: State, ghost ch: Choices)
      returns (writeBatchKeys: seq<Tag>, writeBatchValues: seq<Cell>, promiseSatisfy: map<Key, Bytes>, tempEvictedItems: set<Key>)
      requires Valid() && Ripe(p, s, ch) && n == |Reads(s, ch)| < |Through(s, ch)| && AtExchange(s, ch, 0) && evictedItems == map[]
      requires fakeBst.accessFreqs == FakesAfter(s, ch) && forall k :: k in s.fakes ==> k.Fake?
      requires storageKeys == ReadTags(s, ch) && KeyedBy(storageKeys, readBatchMap) && Fetches(s, storageKeys, responses)
      modifies this`evictedItems, this`keysToBeDeleted, cache, realBst, fakeBst`accessFreqs
      ensures Valid() && AtExchange(s, ch, n) && tempEvictedItems == evictedItems.Keys
      ensures fakeBst.accessFreqs == FakesAfter(s, ch)
      ensures writeBatchKeys == WriteTags(s, ch) && CellsFit(p, s, ch, writeBatchValues) && Satisfies(s, ch, promiseSatisfy)
    {
      hide Ripe, Through, Rewritten, Fetched, Reads, ReadTags, Exchanged, FakesAfter, WriteTags, Evictions, CellsFit, KeyedBy;
      hide FrequencySmoother.Valid, Cache.Valid, Wraps, WrapsNoise;
      FakeReads(p, s, ch);
      var keys, values, fetched;
      keys, values, fetched, tempEvictedItems := Exchange(n, storageKeys, readBatchMap, responses, s, ch);
      RewrittenIs(s, ch, keys, values);
      writeBatchKeys, writeBatchValues, promiseSatisfy :=
        RewriteFakes(n, storageKeys, readBatchMap, responses, keys, values, fetched, ch.fakeKeys);
      CellsAreFit(p, s, ch, values, writeBatchValues);
    }

    // ---- the background deletion ----

    // One turn of clearThread; the queue's pop waits until there is something to pop.
    method ClearThread()
      requires keysNotUsed != []
      modifies this`store, this`keysNotUsed
      ensures View() == Clear(old(View()), 1)
    {
      var keyVectorNotUsed := keysNotUsed[0];
      OnePop(keysNotUsed);
      keysNotUsed := keysNotUsed[1..];
      if |keyVectorNotUsed| > 0 {
        store := store - Elems(keyVectorNotUsed);
      } else {
        assert store - Elems(keyVectorNotUsed) == store;
      }
    }

    // Several turns.
    method ClearThreadTurns(n: nat)
      requires n <= |keysNotUsed|
      modifies this`store, this`keysNotUsed
      ensures View() == Clear(old(View()), n)
    {
      hide Flatten;
      ghost var s := View();
      NoPop(s);
      for i := 0 to n
        invariant View() == Clear(s, i)
      {
        OnePopMore(s, i);
        ClearThread();
      }
    }

    method Unpark(tempEvictedItems: set<Key>)
      requires tempEvictedItems == evictedItems.Keys
      modifies this`evictedItems
      ensures evictedItems == map[]
    {
      var todo := tempEvictedItems;
      while todo != {}
        invariant todo == evictedItems.Keys
      {
        var key :| key in todo;
        evictedItems := evictedItems - {key};
        todo := todo - {key};
      }
    }

    // ---- execute_batch ----

    // Chooses the reads and gets them. The clear thread takes pops turns before the batch goes on.
    method ReadBatch(pops: nat, ghost s: State)
      returns (storageKeys: seq<Tag>, readBatchMap: map<Tag, Key>, responses: seq<Cell>, realKeysNotInCache: seq<Key>, ghost ch: Choices)
      requires Valid() && Inv(p, s) && Sane(p) && RoundReady(p, s) && pops <= |keysNotUsed|
      requires View() == s.(tracker := TryClearAll(s.tracker))
      modifies this, realBst, fakeBst, runningKeys`mMap
      ensures Valid() && Selected(p, s, ch) && Ripe(p, s, ch) && |Reads(s, ch)| < |Through(s, ch)| && realKeysNotInCache == ch.chosen
      ensures storageKeys == ReadTags(s, ch) && KeyedBy(storageKeys, readBatchMap) && Fetches(s, storageKeys, responses)
      ensures runningKeys.mMap <= Elems(Reads(s, ch)) + Elems(ch.fakeKeys)
      ensures View() == Reading(s, ch, pops, runningKeys.mMap)
    {
      hide Valid, Inv, Ripe, RoundReady, Selected, TryClearAll, Sane, ReadTags, Through, KeyedBy, StampedReads, FakesAfter, Clear, Fetches;
      storageKeys, readBatchMap, realKeysNotInCache, ch := SelectReads(s);
      SelectedRipe(p, s, ch);
      Readable(p, s, ch);
      responses := GetBatch(store, storageKeys);
      FetchesAre(s, storageKeys, responses);
      read := read + Elems(storageKeys);
      ClearView(View(), s, pops);
      ClearThreadTurns(pops);
    }

    // From the choice of the reads to what is to be written.
    method ReadAndExchange(pops: nat, ghost s: State)
      returns (storageKeys: seq<Tag>, writeBatchKeys: seq<Tag>, writeBatchValues: seq<Cell>, promiseSatisfy: map<Key, Bytes>,
               tempEvictedItems: set<Key>, ghost ch: Choices)
      requires Valid() && Inv(p, s) && Sane(p) && RoundReady(p, s) && pops <= |keysNotUsed|
      requires View() == s.(tracker := TryClearAll(s.tracker))
      modifies this, cache, realBst, fakeBst, runningKeys`mMap
      ensures Valid() && Fit(p, s, ch, promiseSatisfy, writeBatchValues) && |Reads(s, ch)| <= |Through(s, ch)|
      ensures storageKeys == ReadTags(s, ch) && writeBatchKeys == WriteTags(s, ch)
      ensures runningKeys.mMap <= promiseSatisfy.Keys && tempEvictedItems == evictedItems.Keys
      ensures NoneEmpty(s.tracker)
      ensures View() == Exchanging(s, ch, pops, evictedItems, runningKeys.mMap)
    {
      hide Valid, Inv, Ripe, RoundReady, Selected, TryClearAll, Sane, ReadTags, Through, KeyedBy, StampedReads, FakesAfter;
      hide Exchanged, Satisfies, CellsFit, Clear, Fetches, FreqsAfter, Without, DropStamps, WriteTags;
      hide Reading, Exchanging, NoneEmpty;
      RoundOps(p, s);
      var readBatchMap, responses, realKeysNotInCache;
      storageKeys, readBatchMap, responses, realKeysNotInCache, ch := ReadBatch(pops, s);
      ReadingIs(s, ch, pops, runningKeys.mMap);
      FakeNames(p, s);
      ExchangeStart(s, ch);
      writeBatchKeys, writeBatchValues, promiseSatisfy, tempEvictedItems :=
        MoveValues(|storageBatch| + |realKeysNotInCache|, storageKeys, readBatchMap, responses, s, ch);
      ExchangeEnd(p, s, ch, cache.accessList, realBst.accessFreqs, realBst.uniqueItemWithTimeStamp, keysToBeDeleted);
      SatisfiesAll(p, s, ch, promiseSatisfy);
      ExchangingIs(s, ch, pops, evictedItems, runningKeys.mMap);
    }

    method AnswerPromises(promiseSatisfy: map<Key, Bytes>, ghost s: State, ghost ch: Choices, ghost cells: seq<Cell>)
      requires Inv(p, s) && RoundReady(p, s) && Fit(p, s, ch, promiseSatisfy, cells)
      requires runningKeys.mMap <= promiseSatisfy.Keys && runningKeys.View() == TryClearAll(s.tracker).(running := runningKeys.mMap)
      modifies runningKeys
      ensures Ready(s.tracker.requests.Keys, s.tracker.requests, s.tracker.got + Fetched(s, Reads(s, ch)))
      ensures runningKeys.View() == AnswerAll(s.tracker, Fetched(s, Reads(s, ch)))
    {
      hide Inv, Ripe, RoundReady, TryClearAll, Reads, Shape, Ready, Cleared, AnsweredBy, GotBy, AnswerAll, Satisfies, Fetched, CellsFit, Selected;
      PromisesStart(p, s, promiseSatisfy, runningKeys.View());
      ClearPromises(runningKeys, promiseSatisfy, s.tracker);
      PromisesDone(p, s, ch, promiseSatisfy, runningKeys.View());
    }

    method PutAndUnpark(writeBatchKeys: seq<Tag>, writeBatchValues: seq<Cell>, tempEvictedItems: set<Key>)
      requires |writeBatchKeys| == |writeBatchValues| && tempEvictedItems == evictedItems.Keys
      modifies this`store, this`written, this`evictedItems
      ensures View() == old(View()).(store := PutAll(old(store), writeBatchKeys, writeBatchValues),
                                     written := old(written) + Elems(writeBatchKeys), evicted := map[])
    {
      hide PutAll;
      store := PutBatch(store, writeBatchKeys, writeBatchValues);
      written := written + Elems(writeBatchKeys);
      Unpark(tempEvictedItems);
    }

    // Writes, clears the promises and leaves the tags it read to the clear thread.
    method WriteBatch(storageKeys: seq<Tag>, writeBatchKeys: seq<Tag>, writeBatchValues: seq<Cell>, promiseSatisfy: map<Key, Bytes>,
                      tempEvictedItems: set<Key>, pops: nat, ghost s: State, ghost ch: Choices)
      requires Valid() && Inv(p, s) && RoundReady(p, s) && pops <= |s.queue| && Fit(p, s, ch, promiseSatisfy, writeBatchValues)
      requires storageKeys == ReadTags(s, ch) && writeBatchKeys == WriteTags(s, ch)
      requires runningKeys.mMap <= promiseSatisfy.Keys && tempEvictedItems == evictedItems.Keys
      requires |Reads(s, ch)| <= |Through(s, ch)| && NoneEmpty(s.tracker)
      requires View() == Exchanging(s, ch, pops, evictedItems, runningKeys.mMap)
      modifies this, runningKeys
      ensures Valid() && IsBatch(p, s, ch.(cells := writeBatchValues, pops := pops), View())
    {
      hide Valid, Inv, RoundReady, TryClearAll, Reads, ReadTags, Through, WriteTags, IsBatch;
      hide Ready, AnswerAll, Clear, PutAll, Fetched, Fit, Exchanging, NoneEmpty;
      ghost var t := View();
      ExchangingIs(s, ch, pops, evictedItems, runningKeys.mMap);
      WriteSize(p, s, ch, promiseSatisfy, writeBatchValues);
      PutAndUnpark(writeBatchKeys, writeBatchValues, tempEvictedItems);
      AnswerPromises(promiseSatisfy, s, ch, writeBatchValues);
      keysNotUsed, storageBatch, slots := keysNotUsed + [storageKeys], [], 0;
      BatchIs(p, s, ch, promiseSatisfy, writeBatchValues, pops, t);
    }

    method ExecuteBatch(pops: nat, ghost s: State) returns (ghost ch: Choices)
      requires Valid() && Inv(p, s) && Sane(p) && RoundReady(p, s) && pops <= |keysNotUsed|
      requires View() == s.(tracker := TryClearAll(s.tracker))
      modifies this, cache, realBst, fakeBst, runningKeys
      ensures Valid() && BatchOk(p, s, ch) && View() == Batch(p, s, ch) && ch.pops == pops
    {
      hide Valid, Inv, Fit, RoundReady, TryClearAll, Sane, Reads, ReadTags, Through, Exchanging, WriteTags, BatchOk, Batch;
      var storageKeys, writeBatchKeys, writeBatchValues, promiseSatisfy, tempEvictedItems;
      storageKeys, writeBatchKeys, writeBatchValues, promiseSatisfy, tempEvictedItems, ch := ReadAndExchange(pops, s);
      WriteBatch(storageKeys, writeBatchKeys, writeBatchValues, promiseSatisfy, tempEvictedItems, pops, s, ch);
      ch := ch.(cells := writeBatchValues, pops := pops);
    }

    // The end of a round: the consumer thread answers what it can and runs a batch. It always runs through.
    method EndRound(pops: nat) returns (ghost ch: Choices)
      requires Valid() && Inv(p, View()) && Sane(p) && pops <= |keysNotUsed|
      modifies this, cache, realBst, fakeBst, runningKeys
      ensures Valid() && BatchOk(p, old(View()), ch) && View() == Batch(p, old(View()), ch) && ch.pops == pops
    {
      hide Valid, Inv, Sane, RoundReady, TryClearAll, BatchOk, Batch;
      ghost var s := View();
      RoundIsReady(p, s);
      RoundOps(p, s);
      runningKeys.TryClearAllPromises();
      ch := ExecuteBatch(pops, s);
    }

    // One round of consumer_thread: it looks at its queue until R operations are counted, or until shutdown, where its polls
    // end; then it runs a batch. What it does is a run of the protocol.
    method ConsumerRound(polls: Polls, pops: nat) returns (seen: nat, ghost ss: seq<State>, ghost steps: seq<Step>)
      requires Valid() && Inv(p, View()) && Sane(p) && Serveable(p, View(), polls) && pops <= |keysNotUsed|
      modifies this, cache, realBst, fakeBst, runningKeys
      ensures Valid() && Inv(p, View())
      ensures IsTurn(p, polls, ss, steps, seen) && ss[0] == old(View()) && ss[|steps|] == View()
      ensures |ss| == |steps| + 1 && |steps| == |Found(polls[..seen])| + 1
      ensures forall n :: 0 <= n < |steps| - 1 ==>
                match Found(polls[..seen])[n]
                case GetRequest(item, lo, hi) => steps[n] == GetStep(item, lo, hi)
                case PutRequest(key, value) => steps[n] == PutStep(key, value)
      ensures steps[|steps| - 1].BatchStep? && steps[|steps| - 1].ch.pops == pops
      ensures seen == |polls| || ss[|steps| - 1].slots >= p.R
    {
      hide Valid, Inv, Sane, Serveable, Enabled, Next, BatchOk, Batch, Get, Put, RunAndStep, StepsOf, Found, IsTurn;
      seen, ss, steps := 0, [View()], [];
      RunStarts(p, View());
      NoSteps(polls);
      while slots < p.R && seen < |polls|
        invariant Valid() && Inv(p, View()) && keysNotUsed == old(keysNotUsed)
        invariant seen <= |polls| && Serveable(p, View(), polls[seen..]) && steps == StepsOf(polls[..seen])
        invariant Run(p, ss, steps) && ss[0] == old(View()) && ss[|steps|] == View()
        decreases |polls| - seen
      {
        ServeNext(p, View(), polls[seen..]);
        StepsOfNext(polls, seen);
        if polls[seen].Some? {
          ghost var step := StepOf(polls[seen].value);
          ServeOne(polls[seen].value);
          RunSnoc(p, ss, steps, step);
          ss, steps := ss + [View()], steps + [step];
        }
        seen := seen + 1;
      }
      ghost var s := View();
      ghost var ch := EndRound(pops);
      BatchEnds(p, s, ch);
      RunSnoc(p, ss, steps, BatchStep(ch));
      RunLength(p, ss, steps);
      TurnEnds(p, polls, ss, steps, seen, ch, View());
      AllServed(polls[..seen], steps);
      ss, steps := ss + [View()], steps + [BatchStep(ch)];
    }

    method ServeOne(request: Request)
      requires Valid() && Inv(p, View()) && Sane(p) && Enabled(p, View(), StepOf(request))
      modifies this, cache, realBst, runningKeys
      ensures Valid() && Inv(p, View()) && View() == Next(p, old(View()), StepOf(request)) && keysNotUsed == old(keysNotUsed)
      ensures request.GetRequest? ==> View() == Get(old(View()), request.item, request.lo, request.hi)
      ensures request.PutRequest? ==> View() == Put(old(View()), request.key, request.value)
    {
      hide Valid, Inv, Sane, Enabled, Next, Get, Put, LeavesNoNode, StampsOf;
      NextIs(p, View(), StepOf(request));
      NextKeeps(p, View(), StepOf(request));
      match request {
        case GetRequest(item, lo, hi) => ServeGet(item, lo, hi);
        case PutRequest(key, value) =>
          FreshLeavesNoNode(p, View(), key, value);
          ServePut(key, value);
      }
    }

    // The clear thread's turns after a round.
    method ClearAfter(clears: nat, polls: Polls, ghost rs: seq<State>, ghost rsteps: seq<Step>, ghost seen: nat)
      returns (ghost ss: seq<State>, ghost steps: seq<Step>)
      requires Valid() && Inv(p, View()) && IsTurn(p, polls, rs, rsteps, seen) && rs[|rsteps|] == View()
      modifies this`store, this`keysNotUsed
      ensures Valid() && Inv(p, View()) && IsTurn(p, polls, ss, steps, seen) && ss[0] == rs[0] && ss[|steps|] == View()
    {
      hide Valid, Inv, Clear, Logical, StepsOf;
      ss, steps := rs, rsteps;
      for i := 0 to clears
        invariant Valid() && Inv(p, View()) && IsTurn(p, polls, ss, steps, seen) && ss[0] == rs[0] && ss[|steps|] == View()
      {
        if keysNotUsed != [] {
          TurnClears(p, polls, ss, steps, seen);
          ClearKeeps(p, View(), 1);
          ClearThread();
          ss, steps := ss + [View()], steps + [ClearStep];
        }
      }
    }

    // init, then any number of rounds with the clear thread running beside them: an execution that starts with the given
    // values and serves the given turns.
    method Session(keys: seq<Key>, values: seq<Bytes>, rolls: seq<nat>, nameRolls: seq<Name>, turns: seq<Turn>)
      returns (ghost ss: seq<State>, ghost steps: seq<Step>, ghost marks: seq<nat>, ghost seens: seq<nat>)
      requires Valid() && View() == Blank() && Sane(p) && RollsOk(p, keys, values, rolls, nameRolls)
      requires forall s :: IsInitial(p, s) && s.hist.Keys == Elems(keys) ==> Polite(p, s, turns)
      modifies this, cache, realBst, fakeBst, runningKeys
      ensures Valid() && Execution(p, ss, steps) && ss[|steps|] == View()
      ensures TurnsServed(p, turns, ss, steps, marks, seens)
      ensures ss[0].hist.Keys == Elems(keys) && forall i :: 0 <= i < |keys| ==> keys[i] in ss[0].hist && ss[0].hist[keys[i]] == values[i]
    {
      hide Valid, Inv, Sane, IsInitial, Polite, Serveable, Enabled, Next, RunAndStep, RollsOk, IsTurn, TurnsServed;
      Init(keys, values, rolls, nameRolls);
      ghost var start := View();
      ss, steps, marks, seens := [start], [], [0], [];
      RunStarts(p, View());
      NoTurns(p, View());
      InitialInv(p, View());
      for i := 0 to |turns|
        invariant Valid() && Inv(p, View()) && Polite(p, View(), turns[i..])
        invariant Run(p, ss, steps) && ss[0] == start && ss[|steps|] == View()
        invariant TurnsServed(p, turns[..i], ss, steps, marks, seens)
      {
        PoliteNow(p, View(), turns[i..]);
        var pops := if turns[i].pops <= |keysNotUsed| then turns[i].pops else |keysNotUsed|;
        ghost var tt, more;
        var seen;
        seen, tt, more := ConsumerRound(turns[i].polls, pops);
        tt, more := ClearAfter(turns[i].clears, turns[i].polls, tt, more, seen);
        PoliteNext(p, turns[i..], tt, more, seen);
        TurnRuns(p, turns[i].polls, tt, more, seen);
        RunConcat(p, ss, steps, tt, more);
        OneMoreTurn(p, turns[..i], ss, steps, marks, seens, turns[i], tt, more, seen);
        ss, steps, marks, seens := ss + tt[1..], steps + more, marks + [|steps + more|], seens + [seen];
        assert turns[i..][1..] == turns[i + 1..] && turns[..i] + [turns[i]] == turns[..i + 1];
      }
      assert turns[..|turns|] == turns;
    }
  }
}
