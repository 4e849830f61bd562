// A PUT and a background deletion keep the invariant.
module PutProofs {
  import opened Caches
  import opened Frequencies
  import opened GetProofs
  import opened Invariant
  import opened Keys
  import opened Protocol
  import opened Running
  import opened Seqs
  import opened Values

  // ---- answers depend on the values of their keys only ----

  ghost predicate SameOn(keys: seq<Key>, m: map<Key, Bytes>, n: map<Key, Bytes>) {
    forall k :: k in keys ==> k in m && k in n && m[k] == n[k]
  }

  lemma {:induction false} SumFrame(kind: string, keys: seq<Key>, m: map<Key, Bytes>, n: map<Key, Bytes>)
    requires SameOn(keys, m, n)
    ensures SumOver(kind, keys, m) == SumOver(kind, keys, n) && ValuesOf(keys, m) == ValuesOf(keys, n)
  {
    if keys != [] {
      SumFrame(kind, keys[..|keys| - 1], m, n);
      assert keys[|keys| - 1] in keys;
    }
  }

  lemma AnswerFrame(keys: seq<Key>, m: map<Key, Bytes>, n: map<Key, Bytes>)
    requires keys != [] && SameOn(keys, m, n)
    ensures AnswerOf(keys, m) == AnswerOf(keys, n)
  {
    SumFrame(DataType(KeyText(keys[0])), keys, m, n);
  }

  // ---- dropping a cached record ----

  lemma DropKeys(freqs: map<Key, int>, stamps: Stamps, hist: map<Key, Bytes>, v: Key)
    requires InvKeys(freqs, stamps, hist) && v.Bucket?
    ensures InvKeys(freqs - {v}, DropStamp(stamps, v), hist)
  {
    DropStampIndexed(freqs.Keys, stamps, v);
    assert (freqs - {v}).Keys == freqs.Keys - {v};
  }

  lemma DropCache(freqs: map<Key, int>, cache: List, hist: map<Key, Bytes>, v: Key)
    requires InvCache(freqs, cache, hist) && InvRecency(freqs, cache) && v in KeySet(cache)
    ensures InvCache(freqs - {v}, Erase(cache, v), hist) && InvRecency(freqs - {v}, Erase(cache, v))
    ensures Resident(freqs - {v}, Erase(cache, v)) == Resident(freqs, cache)
    ensures KeySet(Erase(cache, v)) == KeySet(cache) - {v} && |Erase(cache, v)| == |cache| - 1
  {
    hide ListMap, Erase, InvRecency, Resident;
    EraseKeys(cache, v);
    var i := EraseCuts(cache, v);
    CutPoints(cache, i);
    DropRecency(freqs, cache, Erase(cache, v), i, v);
    assert (freqs - {v}).Keys == freqs.Keys - {v};
  }

  lemma CutPoints(q: List, i: nat)
    requires i < |q|
    ensures var e := q[..i] + q[i + 1..];
            |e| == |q| - 1 && forall j :: 0 <= j < |e| ==> e[j] == q[if j < i then j else j + 1]
  {
  }

  lemma DropRecency(freqs: map<Key, int>, cache: List, e: List, i: nat, v: Key)
    requires InvRecency(freqs, cache) && i < |cache| && cache[i].key == v
    requires |e| == |cache| - 1 && forall j :: 0 <= j < |e| ==> e[j] == cache[if j < i then j else j + 1]
    requires KeySet(e) == KeySet(cache) - {v}
    ensures InvRecency(freqs - {v}, e) && Resident(freqs - {v}, e) == Resident(freqs, cache)
  {
    assert v in KeySet(cache);
    assert Resident(freqs - {v}, e) == Resident(freqs, cache);
    forall j | 0 <= j < |e| ensures FreqOf(freqs - {v}, e[j].key) == FreqOf(freqs, e[j].key) {
      assert e[j].key in KeySet(e);
    }
  }

  lemma DropWindow(live: set<Key>, stamps: Stamps, hist: set<Key>, item: Item)
    requires Indexed(live, stamps) && InvWindow(live, hist) && StampsOf(stamps, item) != {}
    ensures InvWindow(live - {Oldest(stamps, item)}, hist)
    ensures Oldest(stamps, item) in live
    ensures forall q :: q in live && q.Bucket? && q.item == item ==> Oldest(stamps, item).ts <= q.ts
  {
    var v := Oldest(stamps, item);
    forall k, q | k in hist && k !in live - {v} && q in live - {v} && k.Bucket? && q.Bucket? && k.item == q.item
      ensures k.ts < q.ts
    {
      if k == v {
        assert q.ts in stamps[item] && v.ts <= q.ts;
      }
    }
  }

  lemma LiveFrame(freqs: map<Key, int>, cache: List, freqs': map<Key, int>, cache': List, fakes: map<Key, int>)
    requires Resident(freqs', cache') == Resident(freqs, cache)
    requires forall k :: k in Resident(freqs, cache) ==> FreqOf(freqs', k) == FreqOf(freqs, k)
    ensures Live(freqs', cache', fakes) == Live(freqs, cache, fakes)
  {
    var r := Resident(freqs, cache);
    assert forall k :: k in r ==> TagOf(freqs', k) == TagOf(freqs, k);
    assert Tagged(freqs', r) == Tagged(freqs, r);
  }

  lemma StoredFrame(resident: set<Key>, freqs: map<Key, int>, freqs': map<Key, int>, store: map<Tag, Cell>,
                    hist: map<Key, Bytes>, hist': map<Key, Bytes>)
    requires InvStored(resident, freqs, store, hist)
    requires forall k :: k in resident ==> FreqOf(freqs', k) == FreqOf(freqs, k)
    requires forall k :: k in hist ==> k in hist' && hist'[k] == hist[k]
    ensures InvStored(resident, freqs', store, hist')
  {
    forall k | k in resident
      ensures TagOf(freqs', k) in store && k in hist' && Wraps(store[TagOf(freqs', k)], hist'[k])
    {
      assert TagOf(freqs', k) == TagOf(freqs, k);
    }
  }

  lemma WrittenShrinks(freqs: map<Key, int>, cached: set<Key>, hist: set<Key>, written: set<Tag>, v: Key)
    requires InvWritten(freqs, cached, hist, written)
    ensures InvWritten(freqs - {v}, cached - {v}, hist, written)
  {
  }

  // Everything but the counts holds between the two halves of a PUT.
  ghost predicate InvPutting(p: Params, s: State) {
    var resident := Resident(s.freqs, s.cache);
    && s.evicted == map[] && s.clock >= 0
    && InvKeys(s.freqs, s.stamps, s.hist)
    && InvCache(s.freqs, s.cache, s.hist)
    && InvVersions(s.freqs, s.clock) && InvVersions(s.fakes, s.clock)
    && InvRecency(s.freqs, s.cache)
    && InvStored(resident, s.freqs, s.store, s.hist)
    && InvStore(Live(s.freqs, s.cache, s.fakes), s.store.Keys, s.queue, s.written, s.read)
    && InvWritten(s.freqs, KeySet(s.cache), s.hist.Keys, s.written)
    && InvFakes(s.fakes, s.written)
    && InvRound(p, resident, s.tracker.running + s.tracker.waiting.Keys, s.ops, s.slots + 1)
    && InvPending(s.freqs.Keys, s.tracker.running, Elems(s.pending))
    && InvTracker(s.tracker, resident, s.hist)
    && InvAsked(s.tracker, s.asked, s.nextId, s.hist)
    && InvWindow(s.freqs.Keys, s.hist.Keys)
    && InvFakeAges(p, s.fakes, s.clock)
    && InvNoise(s.fakes, s.store, p.objectSize)
  }

  lemma VictimIsCachedOrResident(p: Params, s: State, item: Item)
    requires Inv(p, s) && StampsOf(s.stamps, item) != {}
    ensures var v := Oldest(s.stamps, item);
            && v in s.freqs && PlaceOf(s.cache, s.evicted, v) == if v in KeySet(s.cache) then InCache else InStore
  {
    ListMapOf(s.cache);
    DropWindow(s.freqs.Keys, s.stamps, s.hist.Keys, item);
  }

  lemma RemoveCached(p: Params, s: State, item: Item)
    requires Inv(p, s) && StampsOf(s.stamps, item) != {} && Oldest(s.stamps, item) in KeySet(s.cache)
    requires s.slots + 1 <= p.R - 1 + p.M
    ensures InvPutting(p, RemoveVictim(s, Oldest(s.stamps, item)))
  {
    hide InvCache, InvVersions, InvRecency, InvStored, InvStore, InvWritten, InvFakes;
    hide InvRound, InvPending, InvTracker, InvAsked, InvCounts, InvWindow, InvBase, InvFakeAges, InvNoise;
    hide Resident, Live, KeySet, ListMap, Elems, PlaceOf, Oldest, DropStamp, Indexed, Erase;
    var v := Oldest(s.stamps, item);
    assert v.Bucket? by {
      VictimShape(s.stamps, item);
    }
    VictimIsCachedOrResident(p, s, item);
    DropKeys(s.freqs, s.stamps, s.hist, v);
    DropCache(s.freqs, s.cache, s.hist, v);
    DropWindow(s.freqs.Keys, s.stamps, s.hist.Keys, item);
    DropFrames(p, s, v);
    RoundIdles(p, Resident(s.freqs, s.cache), s.tracker, s.ops, s.slots);
  }

  lemma VictimShape(stamps: Stamps, item: Item)
    requires StampsOf(stamps, item) != {}
    ensures Oldest(stamps, item).Bucket? && Oldest(stamps, item).item == item
  {
  }

  lemma DropFrames(p: Params, s: State, v: Key)
    requires Inv(p, s) && v in KeySet(s.cache)
    requires Resident(s.freqs - {v}, Erase(s.cache, v)) == Resident(s.freqs, s.cache)
    ensures var resident := Resident(s.freqs, s.cache);
            && InvVersions(s.freqs - {v}, s.clock)
            && InvStored(resident, s.freqs - {v}, s.store, s.hist)
            && Live(s.freqs - {v}, Erase(s.cache, v), s.fakes) == Live(s.freqs, s.cache, s.fakes)
            && InvWritten(s.freqs - {v}, KeySet(s.cache) - {v}, s.hist.Keys, s.written)
            && InvPending((s.freqs - {v}).Keys, s.tracker.running, Elems(s.pending))
            && (s.freqs - {v}).Keys == s.freqs.Keys - {v}
  {
    hide InvCache, InvRecency, InvStored, InvStore, InvWritten, InvFakes, InvKeys;
    hide InvRound, InvTracker, InvAsked, InvCounts, InvWindow, InvBase, InvFakeAges, InvNoise;
    hide Live, KeySet, Elems, Erase;
    var resident := Resident(s.freqs, s.cache);
    assert forall k :: k in resident ==> FreqOf(s.freqs - {v}, k) == FreqOf(s.freqs, k);
    StoredFrame(resident, s.freqs, s.freqs - {v}, s.store, s.hist, s.hist);
    LiveFrame(s.freqs, s.cache, s.freqs - {v}, Erase(s.cache, v), s.fakes);
    WrittenShrinks(s.freqs, KeySet(s.cache), s.hist.Keys, s.written, v);
  }

  // ---- registering a store-resident record for deletion ----

  lemma RegisterRound(p: Params, resident: set<Key>, t: Tracker, ops: seq<Key>, slots: nat, v: Key)
    requires InvRound(p, resident, t.running + t.waiting.Keys, ops, slots) && v in resident
    requires slots + 1 <= p.R - 1 + p.M
    ensures InvRound(p, resident, t.running + {v} + t.waiting.Keys, Requested(ops, t, false, v), slots + 1)
  {
    ElemsConcat(ops, [v]);
    assert Elems([v]) == {v};
    if !Busy(t, v) {
      DistinctConcat(ops, [v]);
    }
  }

  lemma RegisterPending(live: set<Key>, running: set<Key>, pending: seq<Key>, v: Key)
    requires InvPending(live, running, Elems(pending)) && v.Bucket?
    requires forall q :: q in live && q.Bucket? && q.item == v.item ==> v.ts <= q.ts
    ensures InvPending(live, running + {v}, Elems(pending + [v]))
    ensures Elems(pending + [v]) == Elems(pending) + {v}
  {
    ElemsConcat(pending, [v]);
  }

  lemma IsResident(freqs: map<Key, int>, cache: List, k: Key)
    requires k in freqs && k !in KeySet(cache)
    ensures k in Resident(freqs, cache)
  {
  }

  lemma RemoveResident(p: Params, s: State, item: Item)
    requires Inv(p, s) && StampsOf(s.stamps, item) != {} && Oldest(s.stamps, item) !in KeySet(s.cache)
    requires s.slots + 1 <= p.R - 1 + p.M
    ensures InvPutting(p, RemoveVictim(s, Oldest(s.stamps, item)))
  {
    hide InvCache, InvVersions, InvRecency, InvStored, InvStore, InvWritten, InvFakes;
    hide InvRound, InvPending, InvTracker, InvAsked, InvCounts, InvWindow, InvBase, InvFakeAges, InvNoise;
    hide Live, KeySet, ListMap, Elems, PlaceOf, Oldest, DropStamp, Indexed, Erase, Requested, Resident, Busy;
    var v := Oldest(s.stamps, item);
    VictimShape(s.stamps, item);
    VictimIsCachedOrResident(p, s, item);
    DropWindow(s.freqs.Keys, s.stamps, s.hist.Keys, item);
    IsResident(s.freqs, s.cache, v);
    RegisterRound(p, Resident(s.freqs, s.cache), s.tracker, s.ops, s.slots, v);
    RegisterPending(s.freqs.Keys, s.tracker.running, s.pending, v);
    TrackerRuns(s.tracker, Resident(s.freqs, s.cache), s.hist, s.asked, s.nextId, v);
  }

  lemma TrackerRuns(t: Tracker, resident: set<Key>, hist: map<Key, Bytes>, asked: map<nat, seq<Key>>, nextId: nat, v: Key)
    requires InvTracker(t, resident, hist) && InvAsked(t, asked, nextId, hist)
    ensures InvTracker(t.(running := t.running + {v}), resident, hist)
    ensures InvAsked(t.(running := t.running + {v}), asked, nextId, hist)
  {
  }

  // ---- the new record ----

  lemma InsertKeys(freqs: map<Key, int>, stamps: Stamps, hist: map<Key, Bytes>, k: Key, v: Bytes, clock: int)
    requires InvKeys(freqs, stamps, hist) && k.Bucket? && NulFree(v)
    ensures InvKeys(freqs[k := clock], AddStamp(stamps, k), hist[k := v])
    ensures freqs[k := clock].Keys == freqs.Keys + {k}
  {
    AddStampIndexed(freqs.Keys, stamps, k);
    assert freqs[k := clock].Keys == freqs.Keys + {k};
  }

  lemma InsertCache(freqs: map<Key, int>, cache: List, hist: map<Key, Bytes>, k: Key, v: Bytes, clock: int)
    requires InvCache(freqs, cache, hist) && InvRecency(freqs, cache) && InvVersions(freqs, clock) && k !in freqs && clock >= 0
    ensures var q := Erase(cache, k) + [Pair(k, v)];
            && InvCache(freqs[k := clock], q, hist[k := v]) && InvRecency(freqs[k := clock], q)
            && InvVersions(freqs[k := clock], clock)
            && Resident(freqs[k := clock], q) == Resident(freqs, cache)
            && KeySet(q) == KeySet(cache) + {k} && |q| == |cache| + 1
  {
    EraseAbsent(cache, k);
    PushKeys(cache, Pair(k, v));
    hide ListMap, Erase;
    var q := cache + [Pair(k, v)];
    InsertRecency(freqs, cache, q, k, v, clock);
    forall i | 0 <= i < |q| ensures q[i].key in hist[k := v] && q[i].value == hist[k := v][q[i].key] {
      if i < |cache| {
        assert q[i] == cache[i] && cache[i].key in KeySet(cache);
      }
    }
  }

  lemma InsertRecency(freqs: map<Key, int>, cache: List, q: List, k: Key, v: Bytes, clock: int)
    requires InvRecency(freqs, cache) && InvVersions(freqs, clock) && k !in freqs && clock >= 0
    requires q == cache + [Pair(k, v)] && KeySet(cache) <= freqs.Keys && KeySet(q) == KeySet(cache) + {k}
    ensures InvRecency(freqs[k := clock], q) && Resident(freqs[k := clock], q) == Resident(freqs, cache)
  {
    assert Resident(freqs[k := clock], q) == Resident(freqs, cache);
    forall i | 0 <= i < |cache|
      ensures q[i].key == cache[i].key && FreqOf(freqs[k := clock], q[i].key) == FreqOf(freqs, cache[i].key) <= clock
    {
      assert cache[i].key in KeySet(cache);
    }
  }

  lemma InsertWritten(freqs: map<Key, int>, cached: set<Key>, hist: set<Key>, written: set<Tag>, k: Key, clock: int)
    requires InvWritten(freqs, cached, hist, written) && k !in hist && k.Bucket?
    ensures InvWritten(freqs[k := clock], cached + {k}, hist + {k}, written)
  {
  }

  lemma InsertTracker(t: Tracker, resident: set<Key>, hist: map<Key, Bytes>, asked: map<nat, seq<Key>>, nextId: nat,
                      k: Key, v: Bytes)
    requires InvTracker(t, resident, hist) && InvAsked(t, asked, nextId, hist) && k !in hist
    ensures InvTracker(t, resident, hist[k := v]) && InvAsked(t, asked, nextId, hist[k := v])
  {
    forall r | r in asked ensures Fulfilled(asked[r], hist[k := v])
    {
    }
    forall r | r in asked && r !in t.requests ensures t.answers[r] == [AnswerOf(asked[r], hist[k := v])] {
      AnswerFrame(asked[r], hist, hist[k := v]);
    }
  }

  lemma InsertWindow(live: set<Key>, hist: set<Key>, k: Key)
    requires InvWindow(live, hist) && k.Bucket? && live <= hist
    requires forall q :: q in hist && q.Bucket? && q.item == k.item ==> q.ts < k.ts
    ensures InvWindow(live + {k}, hist + {k})
  {
  }

  lemma InsertPending(live: set<Key>, running: set<Key>, pending: set<Key>, hist: set<Key>, k: Key)
    requires InvPending(live, running, pending) && k.Bucket? && pending <= hist && (forall q :: q in hist ==> q.Bucket?)
    requires forall q :: q in hist && q.Bucket? && q.item == k.item ==> q.ts < k.ts
    ensures InvPending(live + {k}, running, pending)
  {
  }

  lemma PendingIsLive(p: Params, s: State)
    requires InvPutting(p, s)
    ensures Elems(s.pending) <= s.hist.Keys && (forall q :: q in s.hist.Keys ==> q.Bucket?) && s.freqs.Keys <= s.hist.Keys
  {
    hide InvCache, InvRecency, InvStored, InvStore, InvWritten, InvFakes, Indexed;
    hide InvTracker, InvAsked, InvCounts, InvWindow, InvFakeAges, InvNoise;
    hide Live, KeySet, Erase;
  }

  // All of the invariant but the counts.
  lemma InsertKeeps(p: Params, s: State, k: Key, v: Bytes)
    requires InvPutting(p, s) && k.Bucket? && NulFree(v)
    requires forall q :: q in s.hist && q.Bucket? && q.item == k.item ==> q.ts < k.ts
    ensures InvPutting(p, Insert(s, k, v).(slots := s.slots))
  {
    hide InvKeys, InvCache, InvVersions, InvRecency, InvStored, InvStore, InvWritten, InvFakes;
    hide InvRound, InvPending, InvTracker, InvAsked, InvCounts, InvWindow, InvBase, InvFakeAges, InvNoise;
    hide Resident, Live, KeySet, ListMap, Elems, AddStamp, Indexed, Erase;
    PendingIsLive(p, s);
    assert k !in s.hist;
    InsertKeys(s.freqs, s.stamps, s.hist, k, v, s.clock);
    InsertCache(s.freqs, s.cache, s.hist, k, v, s.clock);
    InsertWritten(s.freqs, KeySet(s.cache), s.hist.Keys, s.written, k, s.clock);
    InsertTracker(s.tracker, Resident(s.freqs, s.cache), s.hist, s.asked, s.nextId, k, v);
    InsertWindow(s.freqs.Keys, s.hist.Keys, k);
    InsertPending(s.freqs.Keys, s.tracker.running, Elems(s.pending), s.hist.Keys, k);
    assert s.hist[k := v].Keys == s.hist.Keys + {k};
    InsertFrames(p, s, k, v);
  }

  lemma InsertFrames(p: Params, s: State, k: Key, v: Bytes)
    requires InvPutting(p, s) && k !in s.freqs && k !in s.hist
    requires var q := Erase(s.cache, k) + [Pair(k, v)]; Resident(s.freqs[k := s.clock], q) == Resident(s.freqs, s.cache)
    ensures var q := Erase(s.cache, k) + [Pair(k, v)];
            && InvStored(Resident(s.freqs, s.cache), s.freqs[k := s.clock], s.store, s.hist[k := v])
            && Live(s.freqs[k := s.clock], q, s.fakes) == Live(s.freqs, s.cache, s.fakes)
  {
    hide InvCache, InvRecency, InvStored, InvStore, InvWritten, InvFakes, InvKeys;
    hide InvRound, InvTracker, InvAsked, InvWindow, InvFakeAges, InvNoise;
    hide Live, KeySet, Elems, Erase;
    var resident := Resident(s.freqs, s.cache);
    assert forall x :: x in resident ==> FreqOf(s.freqs[k := s.clock], x) == FreqOf(s.freqs, x);
    StoredFrame(resident, s.freqs, s.freqs[k := s.clock], s.store, s.hist, s.hist[k := v]);
    LiveFrame(s.freqs, s.cache, s.freqs[k := s.clock], Erase(s.cache, k) + [Pair(k, v)], s.fakes);
  }

  // ---- counts ----

  lemma RemoveCounts(p: Params, s: State, item: Item)
    requires Inv(p, s) && StampsOf(s.stamps, item) != {}
    ensures var v := Oldest(s.stamps, item);
            var t := RemoveVictim(s, v);
            && |t.freqs| + 1 + p.C == |t.cache| + 1 + p.N
            && |t.cache| + 1 >= p.C + |Elems(t.pending)|
            && (forall i :: i in p.base && i != item ==> |StampsOf(t.stamps, i)| >= p.base[i] + Doomed(Elems(t.pending), i))
            && (item in p.base ==> |StampsOf(t.stamps, item)| + 1 >= p.base[item] + Doomed(Elems(t.pending), item))
  {
    hide InvVersions, InvStored, InvStore, InvWritten, InvFakes;
    hide InvRound, InvTracker, InvAsked, InvWindow, InvFakeAges, InvNoise, Live, PlaceOf, Oldest, InvPending, InvRecency, Doomed;
    hide DropStamp, Erase, ListMap, Resident, Requested, NulFree;
    var v := Oldest(s.stamps, item);
    VictimShape(s.stamps, item);
    VictimIsCachedOrResident(p, s, item);
    DropWindow(s.freqs.Keys, s.stamps, s.hist.Keys, item);
    if v in KeySet(s.cache) {
      EraseKeys(s.cache, v);
      OneKeyLess(s.freqs, v);
      CachedVictimBase(p.base, s.stamps, Elems(s.pending), v);
      NotDoomed(p, s, item);
    } else {
      RegisteredBase(p.base, s.stamps, s.pending, v);
    }
  }

  // An item with a registered bucket has its oldest bucket registered.
  lemma NotDoomed(p: Params, s: State, item: Item)
    requires Inv(p, s) && StampsOf(s.stamps, item) != {} && Oldest(s.stamps, item) in KeySet(s.cache)
    ensures Doomed(Elems(s.pending), item) == 0
  {
    hide InvVersions, InvStored, InvStore, InvWritten, InvFakes, InvRecency;
    hide InvTracker, InvAsked, InvFakeAges, InvNoise, Live, PlaceOf;
    var v := Oldest(s.stamps, item);
    DropWindow(s.freqs.Keys, s.stamps, s.hist.Keys, item);
    assert v !in Elems(s.pending);
    forall k | k in Elems(s.pending) && k.Bucket? ensures k.item == item ==> k == v {
      assert k in s.freqs && v in s.freqs;
    }
  }

  lemma CachedVictimBase(base: map<Item, nat>, stamps: Stamps, pending: set<Key>, v: Key)
    requires InvBase(base, stamps, pending) && v.Bucket? && v.ts in StampsOf(stamps, v.item)
    ensures var left := DropStamp(stamps, v);
            && (forall i :: i in base && i != v.item ==> |StampsOf(left, i)| >= base[i] + Doomed(pending, i))
            && (v.item in base ==> |StampsOf(left, v.item)| + 1 >= base[v.item] + Doomed(pending, v.item))
  {
    var left := DropStamp(stamps, v);
    assert StampsOf(left, v.item) == StampsOf(stamps, v.item) - {v.ts};
    assert forall i: Item :: i != v.item ==> StampsOf(left, i) == StampsOf(stamps, i);
  }

  lemma RegisteredBase(base: map<Item, nat>, stamps: Stamps, pending: seq<Key>, v: Key)
    requires InvBase(base, stamps, Elems(pending)) && v.Bucket?
    ensures var more := Elems(pending + [v]);
            && (forall i :: i in base && i != v.item ==> |StampsOf(stamps, i)| >= base[i] + Doomed(more, i))
            && (v.item in base ==> |StampsOf(stamps, v.item)| + 1 >= base[v.item] + Doomed(more, v.item))
            && |more| <= |Elems(pending)| + 1
  {
    ElemsConcat(pending, [v]);
    var more := Elems(pending + [v]);
    assert more == Elems(pending) + {v};
    forall i: Item | i != v.item ensures Doomed(more, i) == Doomed(Elems(pending), i) {
      if k :| k in more && k.Bucket? && k.item == i {
        assert k in Elems(pending);
      }
      if k :| k in Elems(pending) && k.Bucket? && k.item == i {
        assert k in more;
      }
    }
  }

  lemma InsertCounts(p: Params, t: State, k: Key, v: Bytes)
    requires k.Bucket? && k !in t.freqs && k !in KeySet(t.cache) && k.ts !in StampsOf(t.stamps, k.item)
    requires |t.freqs| + 1 + p.C == |t.cache| + 1 + p.N && |t.cache| + 1 >= p.C + |Elems(t.pending)|
    requires forall i :: i in p.base && i != k.item ==> |StampsOf(t.stamps, i)| >= p.base[i] + Doomed(Elems(t.pending), i)
    requires k.item in p.base ==> |StampsOf(t.stamps, k.item)| + 1 >= p.base[k.item] + Doomed(Elems(t.pending), k.item)
    ensures var u := Insert(t, k, v);
            && InvCounts(p, |u.freqs|, |u.cache|, |Elems(u.pending)|)
            && InvBase(p.base, u.stamps, Elems(u.pending))
  {
    hide Doomed, AddStamp, Erase, KeySet, Elems, InvBase, StampsOf;
    EraseAbsent(t.cache, k);
    OneKeyMore(t.freqs, k, t.clock);
    AddedBase(p.base, t.stamps, Elems(t.pending), k);
  }

  lemma OneKeyMore(freqs: map<Key, int>, k: Key, v: int)
    requires k !in freqs
    ensures |freqs[k := v]| == |freqs| + 1
  {
    assert freqs[k := v].Keys == freqs.Keys + {k};
  }

  lemma OneKeyLess(freqs: map<Key, int>, k: Key)
    requires k in freqs
    ensures |freqs - {k}| == |freqs| - 1
  {
    assert (freqs - {k}).Keys == freqs.Keys - {k};
  }

  lemma AddedBase(base: map<Item, nat>, stamps: Stamps, pending: set<Key>, k: Key)
    requires k.Bucket? && k.ts !in StampsOf(stamps, k.item)
    requires forall i :: i in base && i != k.item ==> |StampsOf(stamps, i)| >= base[i] + Doomed(pending, i)
    requires k.item in base ==> |StampsOf(stamps, k.item)| + 1 >= base[k.item] + Doomed(pending, k.item)
    ensures InvBase(base, AddStamp(stamps, k), pending)
  {
    hide Doomed;
    var more := AddStamp(stamps, k);
    assert StampsOf(more, k.item) == StampsOf(stamps, k.item) + {k.ts};
    assert forall i: Item :: i != k.item ==> StampsOf(more, i) == StampsOf(stamps, i);
  }

  lemma FreshKey(p: Params, t: State, k: Key)
    requires InvPutting(p, t) && k.Bucket?
    requires forall q :: q in t.hist && q.Bucket? && q.item == k.item ==> q.ts < k.ts
    ensures k !in t.freqs && k !in KeySet(t.cache) && k.ts !in StampsOf(t.stamps, k.item)
  {
    hide InvVersions, InvStored, InvStore, InvWritten, InvFakes, InvRecency;
    hide InvTracker, InvAsked, InvFakeAges, InvNoise, Live;
    assert Bucket(k.item, k.ts) == k && k !in t.freqs;
  }

  lemma RoomForOne(p: Params, s: State)
    requires Inv(p, s) && s.slots < p.R && p.M >= 1
    ensures s.slots + 1 <= p.R - 1 + p.M
  {
  }

  lemma RemoveKeeps(p: Params, s: State, item: Item)
    requires Inv(p, s) && StampsOf(s.stamps, item) != {} && s.slots + 1 <= p.R - 1 + p.M
    ensures Oldest(s.stamps, item).Bucket? && InvPutting(p, RemoveVictim(s, Oldest(s.stamps, item)))
  {
    hide Inv, InvPutting, KeySet;
    VictimShape(s.stamps, item);
    if Oldest(s.stamps, item) in KeySet(s.cache) {
      RemoveCached(p, s, item);
    } else {
      RemoveResident(p, s, item);
    }
  }

  lemma Assemble(p: Params, u: State)
    requires u.slots >= 1 && InvPutting(p, u.(slots := u.slots - 1))
    requires InvCounts(p, |u.freqs|, |u.cache|, |Elems(u.pending)|) && InvBase(p.base, u.stamps, Elems(u.pending))
    ensures Inv(p, u)
  {
    hide InvKeys, InvCache, InvVersions, InvRecency, InvStored, InvStore, InvWritten, InvFakes;
    hide InvRound, InvPending, InvTracker, InvAsked, InvCounts, InvWindow, InvBase, InvFakeAges, InvNoise;
    hide Resident, Live, KeySet, Elems;
    var w := u.(slots := u.slots - 1);
    assert InvRound(p, Resident(w.freqs, w.cache), w.tracker.running + w.tracker.waiting.Keys, w.ops, w.slots + 1);
  }

  lemma PutKeeps(p: Params, s: State, k: Key, v: Bytes)
    requires Inv(p, s) && Enabled(p, s, PutStep(k, v)) && p.M >= 1
    ensures Inv(p, Put(s, k, v))
  {
    hide Inv, InvPutting, Oldest, RemoveVictim, Insert, Doomed, InvCounts, InvBase, StampsOf, Elems, KeySet;
    RoomForOne(p, s);
    RemoveKeeps(p, s, k.item);
    var t := RemoveVictim(s, Oldest(s.stamps, k.item));
    RemoveFields(s, Oldest(s.stamps, k.item));
    RemoveCounts(p, s, k.item);
    FreshKey(p, t, k);
    InsertKeeps(p, t, k, v);
    InsertCounts(p, t, k, v);
    assert Insert(t, k, v).slots == t.slots + 1 by {
      InsertSlots(t, k, v);
    }
    Assemble(p, Insert(t, k, v));
  }

  lemma InsertSlots(t: State, k: Key, v: Bytes)
    requires k.Bucket?
    ensures Insert(t, k, v).slots == t.slots + 1
  {
  }

  lemma RemoveFields(s: State, v: Key)
    requires v.Bucket?
    ensures var t := RemoveVictim(s, v);
            t.hist == s.hist && t.slots == s.slots && t.clock == s.clock && t.asked == s.asked && t.nextId == s.nextId
            && t.fakes == s.fakes && t.store == s.store && t.queue == s.queue && t.written == s.written && t.read == s.read
  {
  }

  // ---- the background deletion ----

  lemma ClearStore(live: set<Tag>, store: map<Tag, Cell>, queue: seq<seq<Tag>>, written: set<Tag>, read: set<Tag>, n: nat)
    requires InvStore(live, store.Keys, queue, written, read) && n <= |queue|
    ensures InvStore(live, (store - Queued(queue[..n])).Keys, queue[n..], written, read)
    ensures Queued(queue[..n]) !! live && Queued(queue[..n]) !! Queued(queue[n..]) && Queued(queue) == Queued(queue[..n]) + Queued(queue[n..])
  {
    assert queue == queue[..n] + queue[n..];
    FlattenConcat(queue[..n], queue[n..]);
    ElemsConcat(Flatten(queue[..n]), Flatten(queue[n..]));
    DistinctConcat(Flatten(queue[..n]), Flatten(queue[n..]));
  }

  lemma ClearIs(s: State, n: nat)
    requires n <= |s.queue|
    ensures Clear(s, n) == s.(store := s.store - Queued(s.queue[..n]), queue := s.queue[n..])
  {
  }

  lemma QueueIsHidden(s: State, queue: seq<seq<Tag>>)
    ensures Logical(s.(queue := queue)) == Logical(s)
  {
  }

  lemma ClearKeeps(p: Params, s: State, n: nat)
    requires Inv(p, s) && n <= |s.queue|
    ensures Inv(p, Clear(s, n)) && Logical(Clear(s, n)) == Logical(s)
  {
    hide InvKeys, InvCache, InvVersions, InvRecency, InvStore, InvWritten, InvFakes;
    hide InvRound, InvPending, InvTracker, InvAsked, InvCounts, InvWindow, InvBase, InvFakeAges, InvNoise;
    hide Resident, KeySet, Elems, Flatten, Live, InvStored, Logical, Queued;
    ClearIs(s, n);
    ClearStore(Live(s.freqs, s.cache, s.fakes), s.store, s.queue, s.written, s.read, n);
    ClearStored(s, Queued(s.queue[..n]));
    QueueIsHidden(s.(store := s.store - Queued(s.queue[..n])), s.queue[n..]);
    ClearNoise(s.freqs, s.cache, s.fakes, s.store, p.objectSize, Queued(s.queue[..n]));
  }

  lemma ClearNoise(freqs: map<Key, int>, cache: List, fakes: map<Key, int>, store: map<Tag, Cell>, size: nat, popped: set<Tag>)
    requires InvNoise(fakes, store, size) && popped !! Live(freqs, cache, fakes)
    ensures InvNoise(fakes, store - popped, size)
  {
    hide WrapsNoise, Resident;
    assert forall k :: k in fakes ==> TagOf(fakes, k) in Live(freqs, cache, fakes);
  }

  lemma ClearStored(s: State, popped: set<Tag>)
    requires InvStored(Resident(s.freqs, s.cache), s.freqs, s.store, s.hist) && popped !! Live(s.freqs, s.cache, s.fakes)
    ensures InvStored(Resident(s.freqs, s.cache), s.freqs, s.store - popped, s.hist)
    ensures Logical(s.(store := s.store - popped)) == Logical(s)
  {
    hide Wraps;
    var t := s.(store := s.store - popped);
    ListMapKeys(s.cache);
    forall k | k in Resident(s.freqs, s.cache) ensures TagOf(s.freqs, k) in t.store && t.store[TagOf(s.freqs, k)] == s.store[TagOf(s.freqs, k)] {
      assert TagOf(s.freqs, k) in Live(s.freqs, s.cache, s.fakes);
    }
  }
}
