// The data placement of init: everything at version 0, some records in the cache, the rest and the fakes in the store.
module Starting {
  import opened Caches
  import opened Frequencies
  import opened Invariant
  import opened Keys
  import opened Protocol
  import opened Running
  import opened Runs
  import opened Seqs
  import opened Values

  function Zeros(keys: set<Key>): map<Key, int> {
    map k | k in keys :: 0
  }

  function ZeroTags(keys: set<Key>): set<Tag> {
    set k | k in keys :: Tag(k, 0)
  }

  lemma ZerosMore(keys: seq<Key>, i: nat)
    requires i < |keys|
    ensures Zeros(Elems(keys[..i + 1])) == Zeros(Elems(keys[..i]))[keys[i] := 0]
    ensures ZeroTags(Elems(keys[..i + 1])) == ZeroTags(Elems(keys[..i])) + {Tag(keys[i], 0)}
  {
    assert keys[..i + 1] == keys[..i] + [keys[i]];
    var more := Elems(keys[..i + 1]);
    assert more == Elems(keys[..i]) + {keys[i]};
  }

  lemma ZerosNone(keys: seq<Key>)
    ensures Zeros(Elems(keys[..0])) == map[] && ZeroTags(Elems(keys[..0])) == {}
  {
    assert Elems(keys[..0]) == {};
  }

  lemma ZeroTagged(keys: set<Key>, some: set<Key>)
    requires some <= keys
    ensures Tagged(Zeros(keys), some) == ZeroTags(some)
  {
    var m := Zeros(keys);
    assert forall k :: k in some ==> TagOf(m, k) == Tag(k, 0);
    forall t | t in ZeroTags(some) ensures t in Tagged(m, some) {
      assert t == TagOf(m, t.key);
    }
  }

  // Every key's value under its first tag.
  ghost predicate Placed(keys: seq<Key>, values: seq<Bytes>, n: nat, store: map<Tag, Cell>, hist: map<Key, Bytes>) {
    && n <= |keys| == |values| && hist.Keys == Elems(keys[..n])
    && forall i :: 0 <= i < n ==> keys[i] in hist && hist[keys[i]] == values[i] && Tag(keys[i], 0) in store && Wraps(store[Tag(keys[i], 0)], values[i])
  }

  lemma PlacedMore(keys: seq<Key>, values: seq<Bytes>, n: nat, store: map<Tag, Cell>, hist: map<Key, Bytes>, cell: Cell)
    requires Placed(keys, values, n, store, hist) && n < |keys| && Distinct(keys) && Wraps(cell, values[n])
    ensures Placed(keys, values, n + 1, store[Tag(keys[n], 0) := cell], hist[keys[n] := values[n]])
  {
    hide Wraps;
    assert keys[..n + 1] == keys[..n] + [keys[n]];
    assert keys[n] !in keys[..n];
  }

  predicate InRange(draws: seq<nat>, size: nat) {
    forall i :: 0 <= i < |draws| ==> draws[i] < size
  }

  // The cached records, in the order they were drawn.
  function Drawn(keys: seq<Key>, values: seq<Bytes>, draws: seq<nat>): (q: List)
    requires |keys| == |values| && InRange(draws, |keys|)
    ensures |q| == |draws|
  {
    seq(|draws|, i requires 0 <= i < |draws| => Pair(keys[draws[i]], values[draws[i]]))
  }

  lemma DrawnDistinct(keys: seq<Key>, values: seq<Bytes>, draws: seq<nat>)
    requires |keys| == |values| && InRange(draws, |keys|) && Distinct(keys) && Distinct(draws)
    ensures DistinctKeys(Drawn(keys, values, draws)) && KeySet(Drawn(keys, values, draws)) <= Elems(keys)
  {
  }

  lemma DrawnMore(keys: seq<Key>, values: seq<Bytes>, draws: seq<nat>, i: nat)
    requires |keys| == |values| && InRange(draws, |keys|) && Distinct(keys) && Distinct(draws)
    requires i < |draws|
    ensures var q, k := Drawn(keys, values, draws[..i]), keys[draws[i]];
            && Drawn(keys, values, draws[..i + 1]) == q + [Pair(k, values[draws[i]])]
            && k !in KeySet(q) && KeySet(Drawn(keys, values, draws[..i + 1])) == KeySet(q) + {k}
  {
    var q, k := Drawn(keys, values, draws[..i]), keys[draws[i]];
    assert Drawn(keys, values, draws[..i + 1]) == q + [Pair(k, values[draws[i]])];
    KeySetConcat(q, [Pair(k, values[draws[i]])]);
    assert KeySet([Pair(k, values[draws[i]])]) == {k} by {
      assert [Pair(k, values[draws[i]])][0].key in KeySet([Pair(k, values[draws[i]])]);
    }
  }

  // The timestamps an item starts with.
  function BucketTimes(keys: set<Key>, item: Item): set<int> {
    set k | k in keys && k.Bucket? && k.item == item :: k.ts
  }

  lemma IndexedTimes(keys: set<Key>, stamps: Stamps, item: Item)
    requires Indexed(keys, stamps)
    ensures StampsOf(stamps, item) == BucketTimes(keys, item)
  {
    forall t | t in StampsOf(stamps, item) ensures t in BucketTimes(keys, item) {
      assert Bucket(item, t) in keys;
    }
  }

  // What the operator has to supply.
  ghost predicate InputOk(p: Params, keys: seq<Key>, values: seq<Bytes>, draws: seq<nat>, names: seq<Name>) {
    && |keys| == |values| == p.N && |draws| == p.C && |names| == p.D
    && Distinct(keys) && Distinct(draws) && Distinct(names)
    && InRange(draws, |keys|)
    && (forall i :: 0 <= i < |keys| ==> keys[i].Bucket? && NulFree(values[i]))
    && forall item :: item in p.base ==> |BucketTimes(Elems(keys), item)| >= p.base[item]
  }

  // rand() % keys.size().
  function Indexes(rolls: seq<nat>, size: nat): (draws: seq<nat>)
    requires size > 0
    ensures |draws| == |rolls| && forall i :: 0 <= i < |rolls| ==> draws[i] == rolls[i] % size
  {
    seq(|rolls|, i requires 0 <= i < |rolls| => rolls[i] % size)
  }

  // Enough random numbers and names are drawn for the loops of init to end; what they accept is as InputOk wants it.
  ghost predicate RollsOk(p: Params, keys: seq<Key>, values: seq<Bytes>, rolls: seq<nat>, nameRolls: seq<Name>) {
    p.N > 0 && InputOk(p, keys, values, Accepted(Indexes(rolls, p.N), p.C), Accepted(nameRolls, p.D))
  }

  // Exactly the different draws count.
  lemma RollsSuffice(p: Params, keys: seq<Key>, values: seq<Bytes>, rolls: seq<nat>, nameRolls: seq<Name>)
    requires p.N > 0 && |keys| == |values| == p.N && Distinct(keys)
    requires forall i :: 0 <= i < |keys| ==> keys[i].Bucket? && NulFree(values[i])
    requires forall item :: item in p.base ==> |BucketTimes(Elems(keys), item)| >= p.base[item]
    ensures RollsOk(p, keys, values, rolls, nameRolls)
       <==> |Elems(Indexes(rolls, p.N))| >= p.C && |Elems(nameRolls)| >= p.D
  {
    hide BucketTimes, NulFree, Fresh;
    var draws := Indexes(rolls, p.N);
    FreshIs(draws);
    FreshIs(nameRolls);
    DistinctSize(Fresh(draws));
    DistinctSize(Fresh(nameRolls));
    assert forall i :: 0 <= i < |Fresh(draws)| ==> Fresh(draws)[i] in Elems(draws);
  }

  function FakesOf(names: seq<Name>): (keys: seq<Key>)
    ensures |keys| == |names| && forall i :: 0 <= i < |names| ==> keys[i] == Fake(names[i])
  {
    seq(|names|, i requires 0 <= i < |names| => Fake(names[i]))
  }

  lemma CacheIsPlaced(keys: seq<Key>, values: seq<Bytes>, draws: seq<nat>, store: map<Tag, Cell>, hist: map<Key, Bytes>)
    requires InRange(draws, |keys|) && Distinct(keys) && Distinct(draws)
    requires Placed(keys, values, |keys|, store, hist)
    ensures InvCache(Zeros(Elems(keys)), Drawn(keys, values, draws), hist) && hist.Keys == Elems(keys)
  {
    hide Wraps;
    assert keys[..|keys|] == keys;
    DrawnDistinct(keys, values, draws);
    assert Zeros(Elems(keys)).Keys == Elems(keys);
  }

  // What is left in the store once the cached records are taken out and the fakes put in.
  lemma StoredAtStart(keys: seq<Key>, values: seq<Bytes>, placed: map<Tag, Cell>, hist: map<Key, Bytes>, cache: List, store: map<Tag, Cell>)
    requires Placed(keys, values, |keys|, placed, hist)
    requires forall k :: k in Elems(keys) - KeySet(cache) ==> Tag(k, 0) in store && Tag(k, 0) in placed && store[Tag(k, 0)] == placed[Tag(k, 0)]
    ensures InvStored(Resident(Zeros(Elems(keys)), cache), Zeros(Elems(keys)), store, hist)
  {
    hide Wraps;
    var freqs := Zeros(Elems(keys));
    forall k | k in Resident(freqs, cache) ensures TagOf(freqs, k) in store && k in hist && Wraps(store[TagOf(freqs, k)], hist[k]) {
      var i :| 0 <= i < |keys| && keys[i] == k;
      assert TagOf(freqs, k) == Tag(k, 0);
    }
  }

  lemma LiveAtStart(keys: set<Key>, cache: List, fakes: set<Key>)
    requires KeySet(cache) <= keys
    ensures Live(Zeros(keys), cache, Zeros(fakes)) == ZeroTags(keys - KeySet(cache)) + ZeroTags(fakes)
  {
    assert Resident(Zeros(keys), cache) == keys - KeySet(cache);
    ZeroTagged(keys, keys - KeySet(cache));
    ZeroTagged(fakes, fakes);
  }

  lemma NulFreeHist(keys: seq<Key>, values: seq<Bytes>, store: map<Tag, Cell>, hist: map<Key, Bytes>)
    requires Placed(keys, values, |keys|, store, hist) && forall i :: 0 <= i < |keys| ==> NulFree(values[i])
    ensures forall k :: k in hist ==> NulFree(hist[k])
  {
    hide Wraps, NulFree;
    assert keys[..|keys|] == keys;
    forall k | k in hist ensures NulFree(hist[k]) {
      var i :| 0 <= i < |keys| && keys[i] == k;
    }
  }

  lemma NothingPlaced(keys: seq<Key>, values: seq<Bytes>)
    requires |keys| == |values|
    ensures Placed(keys, values, 0, map[], map[])
  {
    assert Elems(keys[..0]) == {};
  }

  lemma NotYet(keys: seq<Key>, i: nat)
    requires Distinct(keys) && i < |keys|
    ensures keys[i] !in Zeros(Elems(keys[..i]))
  {
  }

  lemma ZeroTagsMore(keys: set<Key>, k: Key)
    ensures ZeroTags(keys + {k}) == ZeroTags(keys) + {Tag(k, 0)}
  {
  }

  lemma RollsParts(p: Params, keys: seq<Key>, values: seq<Bytes>, rolls: seq<nat>, nameRolls: seq<Name>)
    requires RollsOk(p, keys, values, rolls, nameRolls)
    ensures |keys| == p.N > 0 && InputOk(p, keys, values, Accepted(Indexes(rolls, p.N), p.C), Accepted(nameRolls, p.D))
    ensures |Accepted(Indexes(rolls, p.N), p.C)| == p.C && |Accepted(nameRolls, p.D)| == p.D
  {
  }

  lemma InputParts(p: Params, keys: seq<Key>, values: seq<Bytes>, draws: seq<nat>, names: seq<Name>)
    requires InputOk(p, keys, values, draws, names)
    ensures |keys| == |values| && Distinct(keys) && Distinct(draws) && Distinct(names)
    ensures InRange(draws, |keys|) && forall i :: 0 <= i < |keys| ==> keys[i].Bucket?
  {
  }

  // What the three loops of init leave behind.
  ghost predicate Loaded(keys: seq<Key>, values: seq<Bytes>, draws: seq<nat>, names: seq<Name>, placed: map<Tag, Cell>, s: State, size: nat)
    requires |keys| == |values| && InRange(draws, |keys|)
  {
    && s.freqs == Zeros(Elems(keys)) && s.fakes == Zeros(Elems(FakesOf(names))) && s.cache == Drawn(keys, values, draws)
    && Placed(keys, values, |keys|, placed, s.hist) && placed.Keys == ZeroTags(Elems(keys))
    && s.store.Keys == (placed.Keys - ZeroTags(KeySet(s.cache))) + ZeroTags(s.fakes.Keys)
    && (forall t :: t in placed && t !in ZeroTags(KeySet(s.cache)) ==> s.store[t] == placed[t])
    && Indexed(s.freqs.Keys, s.stamps) && s.written == s.store.Keys && InvNoise(s.fakes, s.store, size)
    && s == State(s.freqs, s.stamps, s.fakes, s.cache, map[], Tracker({}, map[], map[], map[], map[]), [], [], 0, 0, 0, s.store, [],
                  s.hist, s.written, {}, map[])
  }

  lemma StartIsInitial(p: Params, keys: seq<Key>, values: seq<Bytes>, draws: seq<nat>, names: seq<Name>, placed: map<Tag, Cell>, s: State)
    requires InputOk(p, keys, values, draws, names) && Loaded(keys, values, draws, names, placed, s, p.objectSize)
    ensures IsInitial(p, s)
  {
    hide Wraps, NulFree, Indexed, BucketTimes, InvCache, InvStored, InvNoise, Live, Resident, Placed, Drawn, Zeros, ZeroTags, Distinct, FakesOf;
    CacheIsPlaced(keys, values, draws, placed, s.hist);
    DrawnDistinct(keys, values, draws);
    FakesDistinct(names);
    SizesAtStart(keys, names);
    StoreAtStart(keys, values, draws, names, placed, s, p.objectSize);
    LiveAtStart(Elems(keys), s.cache, Elems(FakesOf(names)));
    NulFreeHist(keys, values, placed, s.hist);
    TimesAtStart(p.base, Elems(keys), s.stamps);
  }

  lemma TimesAtStart(base: map<Item, nat>, keys: set<Key>, stamps: Stamps)
    requires Indexed(keys, stamps)
    ensures forall item :: item in base ==> StampsOf(stamps, item) == BucketTimes(keys, item)
  {
    hide Indexed, BucketTimes;
    forall item: Item ensures StampsOf(stamps, item) == BucketTimes(keys, item) {
      IndexedTimes(keys, stamps, item);
    }
  }

  lemma LoadedIs(keys: seq<Key>, values: seq<Bytes>, draws: seq<nat>, names: seq<Name>, placed: map<Tag, Cell>, s: State, size: nat)
    requires |keys| == |values| && InRange(draws, |keys|)
    requires forall i :: 0 <= i < |keys| ==> keys[i].Bucket?
    requires s.freqs == Zeros(Elems(keys)) && s.fakes == Zeros(Elems(FakesOf(names))) && s.cache == Drawn(keys, values, draws)
    requires Placed(keys, values, |keys|, placed, s.hist) && placed.Keys == ZeroTags(Elems(keys))
    requires var kept := placed - ZeroTags(KeySet(s.cache));
             && s.store.Keys == kept.Keys + ZeroTags(Elems(FakesOf(names)))
             && forall t :: t in kept && t.key.Bucket? ==> s.store[t] == kept[t]
    requires Indexed(s.freqs.Keys, s.stamps) && s.written == s.store.Keys && InvNoise(s.fakes, s.store, size)
    requires s == State(s.freqs, s.stamps, s.fakes, s.cache, map[], Tracker({}, map[], map[], map[], map[]), [], [], 0, 0, 0, s.store, [],
                        s.hist, s.written, {}, map[])
    ensures Loaded(keys, values, draws, names, placed, s, size)
  {
    hide Wraps, InvNoise, Drawn, Placed, Indexed, KeySet, FakesOf;
    assert s.fakes.Keys == Elems(FakesOf(names));
    forall t | t in placed ensures t.key.Bucket? {
      assert t in placed.Keys;
    }
  }

  lemma FakesDistinct(names: seq<Name>)
    requires Distinct(names)
    ensures Distinct(FakesOf(names)) && forall k :: k in Elems(FakesOf(names)) ==> k.Fake?
  {
  }

  lemma SizesAtStart(keys: seq<Key>, names: seq<Name>)
    requires Distinct(keys) && Distinct(FakesOf(names))
    ensures |Zeros(Elems(keys))| == |keys| && |Zeros(Elems(FakesOf(names)))| == |names|
    ensures Zeros(Elems(keys)).Keys == Elems(keys) && Zeros(Elems(FakesOf(names))).Keys == Elems(FakesOf(names))
    ensures forall s: set<Key>, k :: k in Zeros(s) ==> Zeros(s)[k] == 0
  {
    DistinctSize(keys);
    DistinctSize(FakesOf(names));
    assert Zeros(Elems(keys)).Keys == Elems(keys) && Zeros(Elems(FakesOf(names))).Keys == Elems(FakesOf(names));
  }

  lemma StoreAtStart(keys: seq<Key>, values: seq<Bytes>, draws: seq<nat>, names: seq<Name>, placed: map<Tag, Cell>, s: State, size: nat)
    requires |keys| == |values| && InRange(draws, |keys|)
    requires Loaded(keys, values, draws, names, placed, s, size) && Zeros(Elems(FakesOf(names))).Keys == Elems(FakesOf(names))
    ensures InvStored(Resident(s.freqs, s.cache), s.freqs, s.store, s.hist)
    ensures s.store.Keys == ZeroTags(Elems(keys) - KeySet(s.cache)) + ZeroTags(Elems(FakesOf(names)))
  {
    hide Wraps, Drawn, Placed, Indexed, KeySet, InvNoise;
    forall k | k in Elems(keys) - KeySet(s.cache)
      ensures Tag(k, 0) in s.store && Tag(k, 0) in placed && s.store[Tag(k, 0)] == placed[Tag(k, 0)]
    {
      assert Tag(k, 0) in placed.Keys && Tag(k, 0) in s.store.Keys;
    }
    StoredAtStart(keys, values, placed, s.hist, s.cache, s.store);
    assert ZeroTags(Elems(keys)) - ZeroTags(KeySet(s.cache)) == ZeroTags(Elems(keys) - KeySet(s.cache));
  }

  // ---- every accepted input has an initial state ----

  lemma {:induction false} PlaceAll(keys: seq<Key>, values: seq<Bytes>, n: nat) returns (store: map<Tag, Cell>, hist: map<Key, Bytes>)
    requires |keys| == |values| && Distinct(keys) && n <= |keys|
    ensures Placed(keys, values, n, store, hist) && store.Keys == ZeroTags(Elems(keys[..n]))
  {
    hide Wraps, Placed, ZeroTags, Zeros;
    if n == 0 {
      NothingPlaced(keys, values);
      ZerosNone(keys);
      store, hist := map[], map[];
    } else {
      store, hist := PlaceAll(keys, values, n - 1);
      var cell := Seal(values[n - 1]);
      PlacedMore(keys, values, n - 1, store, hist, cell);
      ZerosMore(keys, n - 1);
      store, hist := store[Tag(keys[n - 1], 0) := cell], hist[keys[n - 1] := values[n - 1]];
    }
  }

  function IndexOf(keys: set<Key>): Stamps {
    map item | item in (set k | k in keys && k.Bucket? :: k.item) :: BucketTimes(keys, item)
  }

  lemma IndexOfIs(keys: set<Key>)
    requires forall k :: k in keys ==> k.Bucket?
    ensures Indexed(keys, IndexOf(keys))
  {
    var stamps := IndexOf(keys);
    forall k | k in keys ensures k.item in stamps && k.ts in stamps[k.item] {
      assert k.item in (set k | k in keys && k.Bucket? :: k.item);
    }
  }

  function WithFakes(kept: map<Tag, Cell>, fakes: set<Key>, size: nat): map<Tag, Cell> {
    kept + map t | t in ZeroTags(fakes) :: Seal(Noise(size))
  }

  lemma WithFakesIs(kept: map<Tag, Cell>, names: seq<Name>, size: nat)
    ensures var fakes := Elems(FakesOf(names));
            && WithFakes(kept, fakes, size).Keys == kept.Keys + ZeroTags(fakes)
            && (forall t :: t in kept && t.key.Bucket? ==> WithFakes(kept, fakes, size)[t] == kept[t])
            && InvNoise(Zeros(fakes), WithFakes(kept, fakes, size), size)
  {
    hide Wraps, Noise, Seal, WrapsNoise, FakesOf, Elems, Alphanumeric;
    NoiseWraps(Seal(Noise(size)), Noise(size));
    var fakes := Elems(FakesOf(names));
    forall t | t in kept && t.key.Bucket? ensures t !in ZeroTags(fakes) {
      FakesOnly(names);
    }
    assert forall k :: k in fakes ==> Tag(k, 0) in ZeroTags(fakes);
  }

  lemma FakesOnly(names: seq<Name>)
    ensures forall k :: k in Elems(FakesOf(names)) ==> k.Fake?
  {
  }

  lemma NoFakeNoise(store: map<Tag, Cell>, size: nat)
    ensures InvNoise(map[], store, size)
  {
  }

  lemma NoiseMore(fakes: map<Key, int>, store: map<Tag, Cell>, size: nat, k: Key, cell: Cell)
    requires InvNoise(fakes, store, size) && k !in fakes && WrapsNoise(cell, size)
    ensures InvNoise(fakes[k := 0], store[Tag(k, 0) := cell], size)
  {
    hide WrapsNoise;
  }

  lemma ZeroKeys(keys: set<Key>)
    ensures Zeros(keys).Keys == keys
  {
  }

  lemma StartExists(p: Params, keys: seq<Key>, values: seq<Bytes>, draws: seq<nat>, names: seq<Name>) returns (s: State)
    requires InputOk(p, keys, values, draws, names)
    ensures IsInitial(p, s) && s.freqs == Zeros(Elems(keys)) && s.hist.Keys == Elems(keys)
    ensures s.cache == Drawn(keys, values, draws)
  {
    hide IsInitial, Placed, Indexed, Wraps, BucketTimes, IndexOf, NulFree, Loaded, Zeros, ZeroTags, Drawn, FakesOf, InputOk, KeySet, InvNoise, WithFakes;
    InputParts(p, keys, values, draws, names);
    var placed, hist := PlaceAll(keys, values, |keys|);
    assert keys[..|keys|] == keys;
    HistKeys(keys, values, placed, hist);
    var stamps := IndexOf(Elems(keys));
    IndexOfIs(Elems(keys));
    var cache := Drawn(keys, values, draws);
    var kept := placed - ZeroTags(KeySet(cache));
    var fakes := FakesOf(names);
    ZeroKeys(Elems(keys));
    var store := WithFakes(kept, Elems(fakes), p.objectSize);
    WithFakesIs(kept, names, p.objectSize);
    s := State(Zeros(Elems(keys)), stamps, Zeros(Elems(fakes)), cache, map[], Tracker({}, map[], map[], map[], map[]), [], [], 0, 0, 0,
               store, [], hist, store.Keys, {}, map[]);
    LoadedIs(keys, values, draws, names, placed, s, p.objectSize);
    StartIsInitial(p, keys, values, draws, names, placed, s);
  }

  lemma HistKeys(keys: seq<Key>, values: seq<Bytes>, store: map<Tag, Cell>, hist: map<Key, Bytes>)
    requires Placed(keys, values, |keys|, store, hist)
    ensures hist.Keys == Elems(keys)
  {
    assert keys[..|keys|] == keys;
  }

  // ---- the drawing loops of init ----

  // After j draws: what was accepted, and the keys seen.
  ghost predicate DrawsAt(keys: seq<Key>, values: seq<Bytes>, all: seq<nat>, j: nat, draws: seq<nat>, temp: set<Key>) {
    && |keys| == |values| && Distinct(keys) && InRange(all, |keys|) && j <= |all|
    && draws == Fresh(all[..j]) && InRange(draws, |keys|) && Distinct(draws)
    && temp == KeySet(Drawn(keys, values, draws)) && |temp| == |draws|
  }

  lemma DrawsStart(keys: seq<Key>, values: seq<Bytes>, all: seq<nat>, store: map<Tag, Cell>)
    requires |keys| == |values| && Distinct(keys) && InRange(all, |keys|)
    ensures DrawsAt(keys, values, all, 0, [], {}) && Drawn(keys, values, []) == []
    ensures store == store - ZeroTags(KeySet([]))
  {
    assert all[..0] == [];
    assert KeySet([]) == {} && ZeroTags({}) == {};
  }

  lemma DrawsNext(keys: seq<Key>, values: seq<Bytes>, all: seq<nat>, j: nat, draws: seq<nat>, temp: set<Key>, index: nat)
    requires DrawsAt(keys, values, all, j, draws, temp) && j < |all| && index == all[j]
    ensures index < |keys| && InRange(draws, |keys|)
    ensures keys[index] in temp ==> DrawsAt(keys, values, all, j + 1, draws, temp)
    ensures keys[index] !in temp ==>
      && DrawsAt(keys, values, all, j + 1, draws + [index], temp + {keys[index]}) && InRange(draws + [index], |keys|)
      && Drawn(keys, values, draws + [index]) == Drawn(keys, values, draws) + [Pair(keys[index], values[index])]
      && KeySet(Drawn(keys, values, draws)) == temp
      && KeySet(Drawn(keys, values, draws + [index])) == temp + {keys[index]}
  {
    hide Fresh, Drawn, KeySet, Distinct;
    FreshNext(all, j);
    SeenIff(keys, values, draws, index);
    if keys[index] !in temp {
      OneMoreDrawn(keys, values, draws, index);
      DistinctSnoc(draws, index);
    }
  }

  lemma OneMoreDrawn(keys: seq<Key>, values: seq<Bytes>, draws: seq<nat>, index: nat)
    requires |keys| == |values| && Distinct(keys) && InRange(draws, |keys|) && Distinct(draws) && index < |keys| && index !in draws
    ensures InRange(draws + [index], |keys|)
    ensures Drawn(keys, values, draws + [index]) == Drawn(keys, values, draws) + [Pair(keys[index], values[index])]
    ensures KeySet(Drawn(keys, values, draws + [index])) == KeySet(Drawn(keys, values, draws)) + {keys[index]}
  {
    var more := draws + [index];
    DistinctSnoc(draws, index);
    assert more[..|draws|] == draws && more[..|draws| + 1] == more;
    DrawnMore(keys, values, more, |draws|);
  }

  lemma DistinctSnoc(draws: seq<nat>, index: nat)
    requires Distinct(draws) && index !in draws
    ensures Distinct(draws + [index])
  {
  }

  lemma SeenIff(keys: seq<Key>, values: seq<Bytes>, draws: seq<nat>, index: nat)
    requires |keys| == |values| && Distinct(keys) && InRange(draws, |keys|) && index < |keys|
    ensures keys[index] in KeySet(Drawn(keys, values, draws)) <==> index in draws
  {
    if index in draws {
      var i :| 0 <= i < |draws| && draws[i] == index;
      assert Drawn(keys, values, draws)[i].key == keys[index];
    }
  }

  lemma DrawsLast(keys: seq<Key>, values: seq<Bytes>, all: seq<nat>, j: nat, draws: seq<nat>, temp: set<Key>, n: nat)
    requires DrawsAt(keys, values, all, j, draws, temp) && j == |all| && |Accepted(all, n)| == n
    ensures |draws| >= n
  {
    assert all[..j] == all;
  }

  lemma DrawsEnd(keys: seq<Key>, values: seq<Bytes>, all: seq<nat>, j: nat, draws: seq<nat>, temp: set<Key>, n: nat)
    requires DrawsAt(keys, values, all, j, draws, temp) && |draws| == n
    ensures draws == Accepted(all, n) && InRange(draws, |keys|)
  {
    FreshPrefix(all, j);
  }

  ghost predicate NamesAt(all: seq<Name>, j: nat, names: seq<Name>, temp: set<Key>) {
    j <= |all| && names == Fresh(all[..j]) && temp == Elems(FakesOf(names))
  }

  ghost predicate SameBuckets(store: map<Tag, Cell>, after: map<Tag, Cell>) {
    forall t :: t in store && t.key.Bucket? ==> t in after && after[t] == store[t]
  }

  lemma BucketsSame(store: map<Tag, Cell>, after: map<Tag, Cell>)
    requires SameBuckets(store, after)
    ensures forall t :: t in store && t.key.Bucket? ==> t in after && after[t] == store[t]
  {
  }

  lemma BucketsStay(store: map<Tag, Cell>, after: map<Tag, Cell>, k: Key, cell: Cell)
    requires SameBuckets(store, after) && k.Fake?
    ensures SameBuckets(store, after[Tag(k, 0) := cell])
  {
  }

  lemma NamesStart(all: seq<Name>, store: map<Tag, Cell>)
    ensures NamesAt(all, 0, [], {}) && Zeros(Elems(FakesOf([]))) == map[]
    ensures store.Keys == store.Keys + ZeroTags(Elems(FakesOf([]))) && SameBuckets(store, store)
  {
    assert all[..0] == [];
    assert Elems(FakesOf([])) == {};
    assert ZeroTags({}) == {};
  }

  lemma NamesNext(all: seq<Name>, j: nat, names: seq<Name>, temp: set<Key>)
    requires NamesAt(all, j, names, temp) && j < |all|
    ensures Fake(all[j]) in temp ==> NamesAt(all, j + 1, names, temp)
    ensures Fake(all[j]) !in temp ==> NamesAt(all, j + 1, names + [all[j]], temp + {Fake(all[j])})
    ensures Fake(all[j]) in temp <==> Fake(all[j]) in Zeros(Elems(FakesOf(names)))
  {
    FreshNext(all, j);
    var k := Fake(all[j]);
    if all[j] in names {
      var i :| 0 <= i < |names| && names[i] == all[j];
      assert FakesOf(names)[i] == k;
    }
    FakesSnoc(names, all[j]);
  }

  lemma FakesSnoc(names: seq<Name>, name: Name)
    ensures FakesOf(names + [name]) == FakesOf(names) + [Fake(name)]
    ensures Elems(FakesOf(names + [name])) == Elems(FakesOf(names)) + {Fake(name)}
  {
    assert FakesOf(names + [name]) == FakesOf(names) + [Fake(name)];
    ElemsConcat(FakesOf(names), [Fake(name)]);
  }

  lemma FakesMore(names: seq<Name>, name: Name)
    ensures Zeros(Elems(FakesOf(names + [name]))) == Zeros(Elems(FakesOf(names)))[Fake(name) := 0]
    ensures ZeroTags(Elems(FakesOf(names + [name]))) == ZeroTags(Elems(FakesOf(names))) + {Tag(Fake(name), 0)}
  {
    FakesSnoc(names, name);
    ZeroTagsMore(Elems(FakesOf(names)), Fake(name));
  }

  lemma NamesLast(all: seq<Name>, j: nat, names: seq<Name>, temp: set<Key>, n: nat)
    requires NamesAt(all, j, names, temp) && j == |all| && |Accepted(all, n)| == n
    ensures |names| >= n
  {
    assert all[..j] == all;
  }

  lemma NamesEnd(all: seq<Name>, j: nat, names: seq<Name>, temp: set<Key>, n: nat)
    requires NamesAt(all, j, names, temp) && |names| == n
    ensures names == Accepted(all, n)
  {
    FreshPrefix(all, j);
  }
}
