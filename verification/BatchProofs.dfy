// A batch keeps the invariant.
module BatchProofs {
  import opened Caches
  import opened Frequencies
  import opened Invariant
  import opened Keys
  import opened Protocol
  import opened PutProofs
  import opened Running
  import opened Seqs
  import opened Values

  // ---- what passes through the cache ----

  lemma {:induction false} KeptKeys(keys: seq<Key>, vals: map<Key, Bytes>, drop: set<Key>)
    requires Distinct(keys) && Elems(keys) <= vals.Keys
    ensures KeySet(Kept(keys, vals, drop)) == Elems(keys) - drop
    ensures DistinctKeys(Kept(keys, vals, drop))
  {
    hide ListMap;
    if keys != [] {
      var n := |keys| - 1;
      var k := keys[n];
      assert keys == keys[..n] + [k];
      ElemsConcat(keys[..n], [k]);
      assert Elems([k]) == {k} && k !in Elems(keys[..n]);
      KeptKeys(keys[..n], vals, drop);
      var front := Kept(keys[..n], vals, drop);
      if k !in drop {
        PushKeys(front, Pair(k, vals[k]));
      }
    }
  }

  lemma {:induction false} KeptValues(keys: seq<Key>, vals: map<Key, Bytes>, drop: set<Key>)
    ensures forall p :: p in Kept(keys, vals, drop) ==> p.key in vals && p.value == vals[p.key]
  {
    if keys != [] {
      KeptValues(keys[..|keys| - 1], vals, drop);
    }
  }

  // A batch in terms of its parts: taken are the real keys read, kept what enters the cache, full the cache with that.
  ghost predicate Passing(freqs: map<Key, int>, cache: List, hist: map<Key, Bytes>, taken: set<Key>, drop: set<Key>, kept: List) {
    && taken <= Resident(freqs, cache) && drop <= taken
    && DistinctKeys(cache + kept) && KeySet(kept) == taken - drop
    && forall i :: 0 <= i < |kept| ==> kept[i].key in hist && kept[i].value == hist[kept[i].key]
  }

  lemma PassingHolds(freqs: map<Key, int>, cache: List, hist: map<Key, Bytes>, keys: seq<Key>, vals: map<Key, Bytes>, drop: set<Key>)
    requires DistinctKeys(cache) && Distinct(keys) && Elems(keys) <= Resident(freqs, cache) && drop <= Elems(keys)
    requires vals.Keys == Elems(keys) && forall k :: k in vals ==> k in hist && vals[k] == hist[k]
    ensures Passing(freqs, cache, hist, Elems(keys), drop, Kept(keys, vals, drop))
    ensures |Kept(keys, vals, drop)| == |keys| - |drop|
  {
    KeptKeys(keys, vals, drop);
    KeptValues(keys, vals, drop);
    KeySetSize(Kept(keys, vals, drop));
    DistinctSize(keys);
    assert Elems(keys) == (Elems(keys) - drop) + drop;
    DistinctKeysConcat(cache, Kept(keys, vals, drop));
  }

  lemma SplitKeySets(full: List, n: nat)
    requires DistinctKeys(full) && n <= |full|
    ensures KeySet(full) == KeySet(full[..n]) + KeySet(full[n..]) && KeySet(full[..n]) !! KeySet(full[n..])
    ensures DistinctKeys(full[..n]) && DistinctKeys(full[n..])
  {
    assert full == full[..n] + full[n..];
    KeySetConcat(full[..n], full[n..]);
    DistinctKeysConcat(full[..n], full[n..]);
  }

  // Afterwards the store holds what was not read, and what was evicted.
  lemma ResidentAfter(freqs: map<Key, int>, cache: List, hist: map<Key, Bytes>, taken: set<Key>, drop: set<Key>, kept: List,
                      after: map<Key, int>, n: nat)
    requires Passing(freqs, cache, hist, taken, drop, kept) && n <= |cache + kept|
    requires KeySet(cache) <= freqs.Keys && after.Keys == freqs.Keys - drop
    ensures var full := cache + kept;
            && KeySet(full) == KeySet(cache) + (taken - drop)
            && Resident(after, full[n..]) == (Resident(freqs, cache) - taken) + KeySet(full[..n])
            && KeySet(full[n..]) <= after.Keys
  {
    KeySetConcat(cache, kept);
    SplitKeySets(cache + kept, n);
  }

  lemma CacheAfter(freqs: map<Key, int>, cache: List, hist: map<Key, Bytes>, taken: set<Key>, drop: set<Key>, kept: List,
                   after: map<Key, int>, n: nat)
    requires InvCache(freqs, cache, hist) && Passing(freqs, cache, hist, taken, drop, kept) && n <= |cache + kept|
    requires after.Keys == freqs.Keys - drop
    ensures InvCache(after, (cache + kept)[n..], hist)
    ensures forall i :: 0 <= i < n ==> (cache + kept)[i].key in hist && (cache + kept)[i].value == hist[(cache + kept)[i].key]
  {
    var full := cache + kept;
    ResidentAfter(freqs, cache, hist, taken, drop, kept, after, n);
    SplitKeySets(full, n);
    forall i | 0 <= i < |full| ensures full[i].key in hist && full[i].value == hist[full[i].key] {
      assert full[i] == if i < |cache| then cache[i] else kept[i - |cache|];
    }
  }

  // ---- versions and recency ----

  // The frequencies after the batch: read keys at t, dropped keys gone.
  ghost predicate Restamped(freqs: map<Key, int>, taken: set<Key>, drop: set<Key>, t: int, after: map<Key, int>) {
    && after.Keys == freqs.Keys - drop
    && forall k :: k in after ==> after[k] == if k in taken then t else freqs[k]
  }

  lemma StampedIs(freqs: map<Key, int>, taken: set<Key>, drop: set<Key>, t: int)
    requires taken <= freqs.Keys
    ensures Restamped(freqs, taken, drop, t, Stamped(freqs, taken, t) - drop)
    ensures Restamped(freqs, taken, {}, t, Stamped(freqs, taken, t))
  {
  }

  lemma VersionsAfter(freqs: map<Key, int>, taken: set<Key>, drop: set<Key>, clock: int, after: map<Key, int>)
    requires InvVersions(freqs, clock) && clock >= 0 && Restamped(freqs, taken, drop, clock + 1, after)
    ensures InvVersions(after, clock + 1)
  {
  }

  lemma FullIsSorted(freqs: map<Key, int>, cache: List, hist: map<Key, Bytes>, taken: set<Key>, drop: set<Key>, kept: List,
                     clock: int, after: map<Key, int>)
    requires InvRecency(freqs, cache) && InvVersions(freqs, clock) && KeySet(cache) <= freqs.Keys
    requires Passing(freqs, cache, hist, taken, drop, kept) && Restamped(freqs, taken, drop, clock + 1, after)
    ensures var full := cache + kept;
            && (forall i :: 0 <= i < |full| ==>
                  full[i].key in after && after[full[i].key] == if i < |cache| then freqs[cache[i].key] else clock + 1)
            && (forall i, j :: 0 <= i < j < |full| ==> after[full[i].key] <= after[full[j].key])
  {
    var full := cache + kept;
    forall i | 0 <= i < |full|
      ensures full[i].key in after && after[full[i].key] == if i < |cache| then freqs[cache[i].key] else clock + 1
      ensures i < |cache| ==> cache[i].key in freqs && FreqOf(freqs, cache[i].key) == freqs[cache[i].key] <= clock
    {
      if i < |cache| {
        assert cache[i].key in KeySet(cache);
      } else {
        assert kept[i - |cache|].key in KeySet(kept);
      }
    }
  }

  lemma RecencyAfter(freqs: map<Key, int>, cache: List, hist: map<Key, Bytes>, taken: set<Key>, drop: set<Key>, kept: List,
                     clock: int, after: map<Key, int>, n: nat)
    requires InvRecency(freqs, cache) && InvVersions(freqs, clock) && KeySet(cache) <= freqs.Keys && n <= |cache + kept|
    requires Passing(freqs, cache, hist, taken, drop, kept) && Restamped(freqs, taken, drop, clock + 1, after)
    ensures InvRecency(after, (cache + kept)[n..])
  {
    var full := cache + kept;
    FullIsSorted(freqs, cache, hist, taken, drop, kept, clock, after);
    ResidentAfter(freqs, cache, hist, taken, drop, kept, after, n);
    var left := full[n..];
    assert forall i :: 0 <= i < |left| ==> left[i] == full[n + i];
    forall k, i | k in Resident(after, left) && 0 <= i < |left| ensures after[k] <= after[left[i].key] {
      if k in KeySet(full[..n]) {
        var j :| 0 <= j < n && full[..n][j].key == k;
      } else if n + i < |cache| {
        assert FreqOf(freqs, k) <= FreqOf(freqs, cache[n + i].key);
        assert cache[n + i].key in KeySet(cache);
      }
    }
    assert forall i :: 0 <= i < |left| ==> FreqOf(after, left[i].key) == after[left[i].key];
  }

  // ---- tags ----

  lemma TagsElems(m: map<Key, int>, keys: seq<Key>)
    ensures Elems(TagsOf(m, keys)) == Tagged(m, Elems(keys))
  {
    var tags := TagsOf(m, keys);
    forall t | t in Tagged(m, Elems(keys)) ensures t in tags {
      var i :| 0 <= i < |keys| && keys[i] == t.key;
      assert tags[i] == t;
    }
  }

  lemma TagsDistinct(m: map<Key, int>, keys: seq<Key>)
    requires Distinct(keys)
    ensures Distinct(TagsOf(m, keys))
  {
  }

  lemma KeysInElems(q: List)
    ensures Elems(KeysIn(q)) == KeySet(q)
    ensures DistinctKeys(q) ==> Distinct(KeysIn(q))
  {
    forall k | k in KeySet(q) ensures k in KeysIn(q) {
      var i :| 0 <= i < |q| && q[i].key == k;
      assert KeysIn(q)[i] == k;
    }
  }

  // Replacing the tags of taken by those of entered.
  lemma TaggedAfter(m: map<Key, int>, after: map<Key, int>, keys: set<Key>, taken: set<Key>, entered: set<Key>)
    requires taken <= keys && keys <= m.Keys
    requires forall k :: k in keys - taken ==> k in after && after[k] == m[k]
    ensures Tagged(after, (keys - taken) + entered) == (Tagged(m, keys) - Tagged(m, taken)) + Tagged(after, entered)
  {
    var a, b := Tagged(after, (keys - taken) + entered), (Tagged(m, keys) - Tagged(m, taken)) + Tagged(after, entered);
    forall t | t in a ensures t in b {
      if t.key in keys - taken {
        assert t == TagOf(m, t.key);
      }
    }
    forall t | t in b ensures t in a {
      if t !in Tagged(after, entered) {
        assert t.key in keys && t == TagOf(m, t.key);
        assert t.key !in taken;
        assert t == TagOf(after, t.key);
      }
    }
  }

  lemma TaggedUnion(m: map<Key, int>, a: set<Key>, b: set<Key>)
    ensures Tagged(m, a + b) == Tagged(m, a) + Tagged(m, b)
  {
  }

  // ---- the store ----

  lemma {:induction false} PutAllKeys(store: map<Tag, Cell>, tags: seq<Tag>, cells: seq<Cell>)
    requires |tags| == |cells|
    ensures PutAll(store, tags, cells).Keys == store.Keys + Elems(tags)
  {
    if tags != [] {
      var n := |tags| - 1;
      PutAllKeys(store, tags[..n], cells[..n]);
      assert Elems(tags) == Elems(tags[..n]) + {tags[n]} by {
        assert tags == tags[..n] + [tags[n]];
        ElemsConcat(tags[..n], [tags[n]]);
      }
    }
  }

  lemma {:induction false} PutAllAt(store: map<Tag, Cell>, tags: seq<Tag>, cells: seq<Cell>, i: nat)
    requires |tags| == |cells| && Distinct(tags) && i < |tags|
    ensures tags[i] in PutAll(store, tags, cells) && PutAll(store, tags, cells)[tags[i]] == cells[i]
    decreases |tags|
  {
    var n := |tags| - 1;
    if i < n {
      PutAllAt(store, tags[..n], cells[..n], i);
    }
  }

  lemma {:induction false} PutAllElse(store: map<Tag, Cell>, tags: seq<Tag>, cells: seq<Cell>, t: Tag)
    requires |tags| == |cells| && t in store && t !in tags
    ensures t in PutAll(store, tags, cells) && PutAll(store, tags, cells)[t] == store[t]
  {
    if tags != [] {
      var n := |tags| - 1;
      assert tags[n] in tags;
      PutAllElse(store, tags[..n], cells[..n], t);
    }
  }

  lemma PutAllGet(store: map<Tag, Cell>, tags: seq<Tag>, cells: seq<Cell>)
    requires |tags| == |cells| && Distinct(tags)
    ensures PutAll(store, tags, cells).Keys == store.Keys + Elems(tags)
    ensures forall i :: 0 <= i < |tags| ==> tags[i] in PutAll(store, tags, cells) && PutAll(store, tags, cells)[tags[i]] == cells[i]
    ensures forall t :: t in store && t !in tags ==> t in PutAll(store, tags, cells) && PutAll(store, tags, cells)[t] == store[t]
  {
    hide PutAll, Distinct;
    PutAllKeys(store, tags, cells);
    forall i | 0 <= i < |tags| ensures tags[i] in PutAll(store, tags, cells) && PutAll(store, tags, cells)[tags[i]] == cells[i] {
      PutAllAt(store, tags, cells, i);
    }
    forall t | t in store && t !in tags ensures t in PutAll(store, tags, cells) && PutAll(store, tags, cells)[t] == store[t] {
      PutAllElse(store, tags, cells, t);
    }
  }

  // The bookkeeping of one batch over sets of tags.
  lemma StoreAfter(live: set<Tag>, store: set<Tag>, queue: seq<seq<Tag>>, written: set<Tag>, read: set<Tag>,
                   taken: seq<Tag>, put: seq<Tag>, pops: nat, after: set<Tag>)
    requires InvStore(live, store, queue, written, read) && pops <= |queue|
    requires Elems(taken) <= live && Distinct(taken) && Elems(put) !! written
    requires after == (live - Elems(taken)) + Elems(put)
    ensures InvStore(after, (store - Queued(queue[..pops])) + Elems(put), queue[pops..] + [taken],
                     written + Elems(put), read + Elems(taken))
  {
    assert queue == queue[..pops] + queue[pops..];
    FlattenConcat(queue[..pops], queue[pops..]);
    ElemsConcat(Flatten(queue[..pops]), Flatten(queue[pops..]));
    DistinctConcat(Flatten(queue[..pops]), Flatten(queue[pops..]));
    FlattenSnoc(queue[pops..], taken);
    ElemsConcat(Flatten(queue[pops..]), taken);
    DistinctConcat(Flatten(queue[pops..]), taken);
  }

  lemma StoredAfter(resident: set<Key>, taken: set<Key>, freqs: map<Key, int>, after: map<Key, int>, hist: map<Key, Bytes>,
                    store: map<Tag, Cell>, ev: List, tags: seq<Tag>, cells: seq<Cell>)
    requires InvStored(resident, freqs, store, hist) && |tags| == |cells| && |ev| <= |tags| && Distinct(tags)
    requires resident <= freqs.Keys && Elems(tags) !! store.Keys
    requires forall k :: k in resident - taken ==> k in after && after[k] == freqs[k]
    requires forall i :: 0 <= i < |ev| ==>
      tags[i] == TagOf(after, ev[i].key) && ev[i].key in hist && ev[i].value == hist[ev[i].key] && Wraps(cells[i], ev[i].value)
    ensures InvStored((resident - taken) + KeySet(ev), after, PutAll(store, tags, cells), hist)
  {
    hide Wraps;
    PutAllGet(store, tags, cells);
    var put := PutAll(store, tags, cells);
    forall k | k in (resident - taken) + KeySet(ev)
      ensures TagOf(after, k) in put && k in hist && Wraps(put[TagOf(after, k)], hist[k])
    {
      if k in KeySet(ev) {
        var i :| 0 <= i < |ev| && ev[i].key == k;
        assert tags[i] == TagOf(after, k);
      } else {
        assert TagOf(after, k) == TagOf(freqs, k);
        assert TagOf(freqs, k) in store.Keys;
      }
    }
  }

  // The tags written for evicted records were never written before.
  lemma FreshReal(freqs: map<Key, int>, cache: List, hist: map<Key, Bytes>, taken: set<Key>, drop: set<Key>, kept: List,
                  clock: int, after: map<Key, int>, written: set<Tag>)
    requires InvWritten(freqs, KeySet(cache), hist.Keys, written) && InvVersions(freqs, clock) && KeySet(cache) <= freqs.Keys
    requires Passing(freqs, cache, hist, taken, drop, kept) && Restamped(freqs, taken, drop, clock + 1, after)
    ensures Tagged(after, KeySet(cache + kept)) !! written
  {
    KeySetConcat(cache, kept);
    forall t | t in Tagged(after, KeySet(cache + kept)) ensures t !in written {
      assert t.key in after && t.version == after[t.key];
    }
  }

  lemma WrittenAfter(freqs: map<Key, int>, cache: List, hist: map<Key, Bytes>, taken: set<Key>, drop: set<Key>, kept: List,
                     clock: int, after: map<Key, int>, written: set<Tag>, n: nat, more: set<Tag>)
    requires InvWritten(freqs, KeySet(cache), hist.Keys, written) && InvVersions(freqs, clock) && KeySet(cache) <= freqs.Keys
    requires Passing(freqs, cache, hist, taken, drop, kept) && Restamped(freqs, taken, drop, clock + 1, after)
    requires freqs.Keys <= hist.Keys && n <= |cache + kept| && (forall k :: k in hist ==> k.Bucket?)
    requires forall t :: t in more && t.key.Bucket? ==> t in Tagged(after, KeySet((cache + kept)[..n]))
    ensures InvWritten(after, KeySet((cache + kept)[n..]), hist.Keys, written + more)
  {
    var full := cache + kept;
    KeySetConcat(cache, kept);
    SplitKeySets(full, n);
    forall t | t in more && t.key.Bucket?
      ensures t.key in hist && (t.key in after ==> t.version <= after[t.key]) && t.key !in KeySet(full[n..])
    {
      assert t.key in KeySet(full[..n]);
    }
    forall t | t in written && t.key in after ensures t.version <= after[t.key] {
    }
    forall t | t in written && t.key in KeySet(full[n..]) ensures t.version < FreqOf(after, t.key) {
      assert t.key in KeySet(full);
    }
  }

  // ---- the fake records ----

  lemma FakesKeep(fakes: map<Key, int>, taken: set<Key>, clock: int, after: map<Key, int>, written: set<Tag>, more: set<Tag>)
    requires InvFakes(fakes, written) && InvVersions(fakes, clock) && taken <= fakes.Keys
    requires Restamped(fakes, taken, {}, clock + 1, after)
    requires forall t :: t in more && t.key.Fake? ==> t in Tagged(after, taken)
    ensures InvFakes(after, written + more) && Tagged(after, taken) !! written
  {
  }

  // ---- what is dropped ----

  lemma {:induction false} DropStampsKeeps(live: set<Key>, stamps: Stamps, keys: seq<Key>, drop: set<Key>)
    requires Indexed(live, stamps) && forall k :: k in drop ==> k.Bucket?
    ensures Indexed(live - (drop * Elems(keys)), DropStamps(stamps, keys, drop))
  {
    if keys == [] {
      assert live - (drop * Elems(keys)) == live;
    } else {
      var n := |keys| - 1;
      var k := keys[n];
      DropStampsKeeps(live, stamps, keys[..n], drop);
      assert keys == keys[..n] + [k];
      ElemsConcat(keys[..n], [k]);
      assert Elems([k]) == {k};
      var rest := live - (drop * Elems(keys[..n]));
      if k in drop {
        DropStampIndexed(rest, DropStamps(stamps, keys[..n], drop), k);
        assert live - (drop * Elems(keys)) == rest - {k};
      } else {
        assert live - (drop * Elems(keys)) == rest;
      }
    }
  }

  lemma WindowAfter(live: set<Key>, hist: set<Key>, running: set<Key>, drop: set<Key>)
    requires InvWindow(live, hist) && InvPending(live, running, drop) && drop <= live && live <= hist
    ensures InvWindow(live - drop, hist)
  {
    forall k, q | k in hist && k !in live - drop && q in live - drop && k.Bucket? && q.Bucket? && k.item == q.item
      ensures k.ts < q.ts
    {
      if k in drop {
        assert k != q && k == Bucket(k.item, k.ts) && q == Bucket(q.item, q.ts);
      }
    }
  }

  // Two PUTs of an item in one round register the same bucket, so an item loses at most one.
  lemma BaseAfter(base: map<Item, nat>, live: set<Key>, running: set<Key>, drop: set<Key>, stamps: Stamps, after: Stamps)
    requires InvBase(base, stamps, drop) && InvPending(live, running, drop) && drop <= live
    requires Indexed(live, stamps) && Indexed(live - drop, after)
    ensures InvBase(base, after, {})
  {
    forall i: Item | i in base ensures |StampsOf(after, i)| >= base[i] + Doomed({}, i) {
      if k :| k in drop && k.Bucket? && k.item == i {
        forall t | t in StampsOf(stamps, i) - {k.ts} ensures t in StampsOf(after, i) {
          OnlyOldest(live, running, drop, k, Bucket(i, t));
        }
        SubsetSize(StampsOf(stamps, i) - {k.ts}, StampsOf(after, i));
      } else {
        forall t | t in StampsOf(stamps, i) ensures t in StampsOf(after, i) {
          assert Bucket(i, t) in live - drop;
        }
        SubsetSize(StampsOf(stamps, i), StampsOf(after, i));
      }
    }
  }

  lemma OnlyOldest(live: set<Key>, running: set<Key>, drop: set<Key>, k: Key, q: Key)
    requires InvPending(live, running, drop) && drop <= live && k in drop && k.Bucket? && q in live && q.Bucket?
    requires q.item == k.item && q.ts != k.ts
    ensures q !in drop
  {
  }

  lemma {:induction false} SubsetSize<T>(a: set<T>, b: set<T>)
    requires a <= b
    ensures |a| <= |b|
  {
    assert b == a + (b - a);
    assert |a + (b - a)| == |a| + |b - a|;
  }

  lemma {:induction false} NothingPending(pending: seq<Key>, gone: set<Key>)
    requires Elems(pending) <= gone
    ensures Without(pending, gone) == []
  {
    if pending != [] {
      var n := |pending| - 1;
      assert pending == pending[..n] + [pending[n]];
      ElemsConcat(pending[..n], [pending[n]]);
      assert pending[n] in Elems(pending);
      NothingPending(pending[..n], gone);
    }
  }

  lemma CountsAfter(p: Params, freqs: map<Key, int>, cached: nat, drop: set<Key>, after: map<Key, int>, left: nat)
    requires InvCounts(p, |freqs|, cached, |drop|) && drop <= freqs.Keys && after.Keys == freqs.Keys - drop
    requires left + |drop| == cached
    ensures InvCounts(p, |after|, left, 0)
  {
    assert |after| == |after.Keys| && |freqs| == |freqs.Keys|;
    assert freqs.Keys == after.Keys + drop;
  }

  // ---- the answers ----

  lemma AllReady(t: Tracker, resident: set<Key>, hist: map<Key, Bytes>, asked: map<nat, seq<Key>>, nextId: nat, fetched: map<Key, Bytes>)
    requires InvTracker(t, resident, hist) && InvAsked(t, asked, nextId, hist) && t.waiting.Keys <= fetched.Keys
    ensures Ready(t.requests.Keys, t.requests, t.got + fetched)
  {
    forall r | r in t.requests ensures Fulfilled(t.requests[r], t.got + fetched) {
      forall k | k in t.requests[r] ensures k in t.got + fetched {
        assert k in t.got || k in t.waiting;
      }
    }
  }

  lemma AskedAfter(t: Tracker, resident: set<Key>, hist: map<Key, Bytes>, asked: map<nat, seq<Key>>, nextId: nat, fetched: map<Key, Bytes>)
    requires InvTracker(t, resident, hist) && InvAsked(t, asked, nextId, hist) && t.waiting.Keys <= fetched.Keys
    requires forall k :: k in fetched ==> k in hist && fetched[k] == hist[k]
    requires Ready(t.requests.Keys, t.requests, t.got + fetched)
    ensures InvAsked(AnswerAll(t, fetched), asked, nextId, hist)
  {
    var u := AnswerAll(t, fetched);
    forall r | r in asked ensures r in u.answers && u.answers[r] == [AnswerOf(asked[r], hist)] {
      if r in t.requests {
        assert Calls(t.answers, r) == [];
        AnswerFrame(asked[r], t.got + fetched, hist);
      }
    }
  }

  // ---- the batch as a whole ----

  // What a batch of a valid state runs on.
  ghost predicate BatchFacts(p: Params, s: State, ch: Choices) {
    var taken := Elems(Reads(s, ch));
    var drop := Elems(s.pending);
    var vals := Fetched(s, Reads(s, ch));
    && Distinct(Reads(s, ch)) && |Reads(s, ch)| + p.F == p.B && taken <= Resident(s.freqs, s.cache)
    && s.tracker.waiting.Keys <= taken
    && vals.Keys == taken && (forall k :: k in vals ==> k in s.hist && vals[k] == s.hist[k])
    && Passing(s.freqs, s.cache, s.hist, taken, drop, Kept(Reads(s, ch), vals, drop))
    && |Through(s, ch)| + |drop| == |s.cache| + |Reads(s, ch)|
    && Distinct(ch.fakeKeys) && Elems(ch.fakeKeys) <= s.fakes.Keys && |ch.fakeKeys| == p.F
  }

  // Every value read back from the store is the one that was inserted.
  lemma FetchedIsHist(resident: set<Key>, s: State, keys: seq<Key>)
    requires InvStored(resident, s.freqs, s.store, s.hist) && Elems(keys) <= resident
    requires forall k :: k in s.hist ==> NulFree(s.hist[k])
    ensures Fetched(s, keys).Keys == Elems(keys)
    ensures forall k :: k in Fetched(s, keys) ==> k in s.hist && Fetched(s, keys)[k] == s.hist[k]
  {
    hide Wraps, NulFree, DecryptNonDeterministic;
    forall k | k in Elems(keys) ensures k in s.hist && StoredValue(s, k) == s.hist[k] {
      DecryptEncrypt(s.store[TagOf(s.freqs, k)], s.hist[k]);
    }
  }

  lemma ReadsDistinct(p: Params, s: State, ch: Choices)
    requires InvRound(p, Resident(s.freqs, s.cache), s.tracker.running + s.tracker.waiting.Keys, s.ops, s.slots)
    requires IsScan(s.freqs, Eligible(s), ch.chosen)
    ensures Distinct(Reads(s, ch)) && Elems(Reads(s, ch)) <= Resident(s.freqs, s.cache)
    ensures Elems(Reads(s, ch)) == Elems(s.ops) + Elems(ch.chosen)
  {
    DistinctConcat(s.ops, ch.chosen);
    ElemsConcat(s.ops, ch.chosen);
  }

  lemma FactsHold(p: Params, s: State, ch: Choices)
    requires Inv(p, s) && IsScan(s.freqs, Eligible(s), ch.chosen) && |s.ops| + p.F + |ch.chosen| == p.B
    requires IsScan(s.fakes, s.fakes.Keys, ch.fakeKeys) && |ch.fakeKeys| == p.F
    ensures BatchFacts(p, s, ch)
  {
    hide InvVersions, InvRecency, InvStore, InvWritten, InvFakes;
    hide InvAsked, InvCounts, InvWindow, InvBase, InvFakeAges, InvNoise;
    hide Live, Kept, Indexed, NulFree, Fetched, InvTracker;
    ReadsDistinct(p, s, ch);
    FetchedIsHist(Resident(s.freqs, s.cache), s, Reads(s, ch));
    PassingHolds(s.freqs, s.cache, s.hist, Reads(s, ch), Fetched(s, Reads(s, ch)), Elems(s.pending));
  }

  // The scan and the evictions never run dry: there are more eligible records and cached pairs than are needed.
  lemma EnoughEligible(p: Params, s: State)
    requires Inv(p, s) && Sane(p)
    ensures |s.ops| + p.F <= p.B && |Eligible(s)| >= p.B - p.F - |s.ops|
  {
    hide InvKeys, InvVersions, InvRecency, InvStored, InvStore, InvWritten, InvFakes;
    hide InvPending, InvTracker, InvAsked, InvWindow, InvBase, InvFakeAges, InvNoise, Live;
    KeySetSize(s.cache);
    DistinctSize(s.ops);
    var r := Resident(s.freqs, s.cache);
    assert s.freqs.Keys == r + KeySet(s.cache) && |s.freqs| == |s.freqs.Keys|;
    assert r == Eligible(s) + Elems(s.ops);
  }

  lemma EnoughCached(p: Params, s: State, ch: Choices)
    requires Inv(p, s) && BatchFacts(p, s, ch)
    ensures |Through(s, ch)| >= |Reads(s, ch)| + p.C
  {
    hide InvKeys, InvVersions, InvRecency, InvStored, InvStore, InvWritten, InvFakes, InvCache;
    hide InvPending, InvTracker, InvAsked, InvWindow, InvBase, InvFakeAges, InvNoise, Live, Through;
  }

  // What is evicted stays live.
  lemma EvictedAreLive(p: Params, s: State, ch: Choices)
    requires BatchFacts(p, s, ch) && |Through(s, ch)| >= |Reads(s, ch)| && KeySet(s.cache) <= s.freqs.Keys
    ensures var ev, stamped := Through(s, ch)[..|Reads(s, ch)|], Stamped(s.freqs, Elems(Reads(s, ch)), s.clock + 1);
            && Evictions(s, ch) == ev && DistinctKeys(ev) && KeySet(ev) <= s.freqs.Keys
            && forall k :: k in KeySet(ev) ==> TagOf(stamped, k) == TagOf(FreqsAfter(s, ch), k)
  {
    hide Kept, Fetched, Distinct, KeySet;
    var taken, drop := Elems(Reads(s, ch)), Elems(s.pending);
    var kept := Kept(Reads(s, ch), Fetched(s, Reads(s, ch)), drop);
    SplitKeySets(Through(s, ch), |Reads(s, ch)|);
    KeySetConcat(s.cache, kept);
    StampedIs(s.freqs, taken, drop, s.clock + 1);
  }

  // The tags a batch writes: the evicted records and the fake ones, under their new versions.
  lemma WriteTagsAre(p: Params, s: State, ch: Choices)
    requires BatchFacts(p, s, ch) && |Through(s, ch)| >= |Reads(s, ch)| && KeySet(s.cache) <= s.freqs.Keys
    ensures var ev := Through(s, ch)[..|Reads(s, ch)|];
            && Evictions(s, ch) == ev && DistinctKeys(ev)
            && Elems(WriteTags(s, ch)) == Tagged(FreqsAfter(s, ch), KeySet(ev)) + Tagged(FakesAfter(s, ch), Elems(ch.fakeKeys))
            && |WriteTags(s, ch)| == p.B
            && forall i :: 0 <= i < |ev| ==> WriteTags(s, ch)[i] == TagOf(FreqsAfter(s, ch), ev[i].key)
  {
    hide Kept, Fetched, Through, FreqsAfter, FakesAfter, Evictions, Stamped, TagOf, Passing, Distinct;
    var ev := Through(s, ch)[..|Reads(s, ch)|];
    var stamped := Stamped(s.freqs, Elems(Reads(s, ch)), s.clock + 1);
    EvictedAreLive(p, s, ch);
    KeysInElems(ev);
    TagsElems(stamped, KeysIn(ev));
    TagsElems(FakesAfter(s, ch), ch.fakeKeys);
    ElemsConcat(TagsOf(stamped, KeysIn(ev)), TagsOf(FakesAfter(s, ch), ch.fakeKeys));
    assert Tagged(stamped, KeySet(ev)) == Tagged(FreqsAfter(s, ch), KeySet(ev));
    forall i | 0 <= i < |ev| ensures WriteTags(s, ch)[i] == TagOf(FreqsAfter(s, ch), ev[i].key) {
      assert ev[i].key in KeySet(ev);
    }
  }
}
