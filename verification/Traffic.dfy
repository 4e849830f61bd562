// What the untrusted store sees: constant traffic, single use of tags, safe deferred deletion.
module Traffic {
  import opened BatchKeeps
  import opened BatchProofs
  import opened Caches
  import opened Invariant
  import opened Keys
  import opened Protocol
  import opened PutProofs
  import opened Running
  import opened Runs
  import opened Seqs
  import opened Values

  // ---- sizes ----

  lemma TaggedSize(m: map<Key, int>, keys: set<Key>)
    ensures |Tagged(m, keys)| == |keys|
    decreases |keys|
  {
    if keys != {} {
      var k :| k in keys;
      TaggedSize(m, keys - {k});
      assert Tagged(m, keys) == Tagged(m, keys - {k}) + {TagOf(m, k)};
    }
  }

  // Records outside the cache keep their number through every PUT and batch, coalesced deletions included.
  lemma Conservation(p: Params, s: State)
    requires Inv(p, s)
    ensures |Resident(s.freqs, s.cache)| + p.C == p.N && |s.cache| >= p.C
  {
    hide InvKeys, InvVersions, InvRecency, InvStored, InvStore, InvWritten, InvFakes, InvRound;
    hide InvPending, InvTracker, InvAsked, InvWindow, InvBase, InvFakeAges, InvNoise, Live;
    KeySetSize(s.cache);
    assert s.freqs.Keys == Resident(s.freqs, s.cache) + KeySet(s.cache);
    assert |s.freqs| == |s.freqs.Keys|;
  }

  // The store's size less the tags queued for deletion is the same number in every reachable state.
  lemma StoreSize(p: Params, s: State)
    requires Inv(p, s)
    ensures |s.store| + p.C == p.N + p.D + |Flatten(s.queue)|
  {
    Conservation(p, s);
    hide InvKeys, InvCache, InvVersions, InvRecency, InvStored, InvWritten, InvRound;
    hide InvPending, InvTracker, InvAsked, InvCounts, InvWindow, InvBase, Resident, Flatten;
    var a, b := Tagged(s.freqs, Resident(s.freqs, s.cache)), Tagged(s.fakes, s.fakes.Keys);
    TaggedSize(s.freqs, Resident(s.freqs, s.cache));
    TaggedSize(s.fakes, s.fakes.Keys);
    DistinctSize(Flatten(s.queue));
    RealAndFake(p, s);
    assert |s.fakes| == |s.fakes.Keys| && |s.store| == |s.store.Keys|;
    assert |a + b| == |a| + |b|;
  }

  lemma RealAndFake(p: Params, s: State)
    requires Inv(p, s)
    ensures Tagged(s.freqs, Resident(s.freqs, s.cache)) !! Tagged(s.fakes, s.fakes.Keys)
  {
    hide InvCache, InvVersions, InvRecency, InvStored, InvStore, InvWritten, InvRound;
    hide InvPending, InvTracker, InvAsked, InvCounts, InvWindow, InvBase, InvFakeAges, InvNoise, Live;
    assert forall k :: k in s.freqs ==> k in s.hist;
  }

  // ---- one batch ----

  // A batch asks for B different tags, all in the store even if the background deletion runs meanwhile; it writes B
  // different tags, none ever written before; and it queues exactly the tags it asked for.
  lemma ConstantTraffic(p: Params, s: State, ch: Choices)
    requires Inv(p, s) && BatchOk(p, s, ch)
    ensures |ReadTags(s, ch)| == p.B && Distinct(ReadTags(s, ch))
    ensures Elems(ReadTags(s, ch)) <= Clear(s, ch.pops).store.Keys && Elems(ReadTags(s, ch)) !! s.read
    ensures |WriteTags(s, ch)| == p.B && Distinct(WriteTags(s, ch)) && Elems(WriteTags(s, ch)) !! s.written
    ensures Batch(p, s, ch).queue == s.queue[ch.pops..] + [ReadTags(s, ch)]
    ensures Batch(p, s, ch).store.Keys == Clear(s, ch.pops).store.Keys + Elems(WriteTags(s, ch))
  {
    hide Inv, BatchOk, Ripe, ReadTags, WriteTags, Resident, Through, Fetched, FreqsAfter, FakesAfter, DropStamps, Without, Flatten, PutAll;
    FactsOfBatch(p, s, ch);
    MoreFacts(p, s, ch);
    ReadsPart(p, s, ch);
    WritesPart(p, s, ch);
    LiveStays(p, s, ch.pops);
    FreshTags(p, s, ch);
    BatchReadyOnly(p, s, ch);
    PutAllGet(Clear(s, ch.pops).store, WriteTags(s, ch), ch.cells);
  }

  lemma LiveStays(p: Params, s: State, n: nat)
    requires Inv(p, s) && n <= |s.queue|
    ensures Live(s.freqs, s.cache, s.fakes) <= Clear(s, n).store.Keys
    ensures Live(s.freqs, s.cache, s.fakes) !! s.read && s.read <= s.written && s.store.Keys <= s.written
    ensures Queued(s.queue) <= s.read
  {
    hide InvKeys, InvCache, InvVersions, InvRecency, InvStored, InvWritten, InvFakes, InvRound;
    hide InvPending, InvTracker, InvAsked, InvCounts, InvWindow, InvBase, InvFakeAges, InvNoise, Resident, Live, Flatten;
    ClearStore(Live(s.freqs, s.cache, s.fakes), s.store, s.queue, s.written, s.read, n);
  }

  lemma FreshTags(p: Params, s: State, ch: Choices)
    requires Inv(p, s) && BatchOk(p, s, ch) && Ripe(p, s, ch)
    ensures Elems(WriteTags(s, ch)) !! s.written
  {
    hide BatchOk, InvKeys, InvCache, InvVersions, InvRecency, InvStored, InvStore, InvWritten, InvFakes, InvRound;
    hide InvPending, InvTracker, InvAsked, InvCounts, InvWindow, InvBase, InvFakeAges, InvNoise, Resident, Live;
    hide BatchFacts, FreqsAfter, FakesAfter, Through, WriteTags, KeySet, DropStamps, Restamped;
    KeysPart(p, s, ch);
    FreshPart(p, s, ch);
  }

  // ---- across a run ----

  // Two different batches of a run neither write nor read a common tag.
  lemma TagsUsedOnce(p: Params, ss: seq<State>, steps: seq<Step>, i: nat, j: nat)
    requires Run(p, ss, steps) && Inv(p, ss[0]) && Sane(p)
    requires i < j < |steps| && steps[i].BatchStep? && steps[j].BatchStep?
    ensures Elems(WriteTags(ss[i], steps[i].ch)) !! Elems(WriteTags(ss[j], steps[j].ch))
    ensures Elems(ReadTags(ss[i], steps[i].ch)) !! Elems(ReadTags(ss[j], steps[j].ch))
  {
    hide Inv, BatchOk, PutOk, Get, Put, Clear, Batch, SplitOf, ReadTags, WriteTags;
    RunKeeps(p, ss, steps, i);
    RunKeeps(p, ss, steps, j);
    RunAt(p, ss, steps, i);
    RunAt(p, ss, steps, j);
    HistoryKept(p, ss[i], steps[i].ch);
    RunGrows(p, ss, steps, i + 1, j);
    ConstantTraffic(p, ss[j], steps[j].ch);
  }

  // A tag queued for deletion is never live and never written again, in any later state of the run. Deleting it at any
  // time is safe.
  lemma DeletionIsSafe(p: Params, ss: seq<State>, steps: seq<Step>, i: nat, j: nat, t: Tag)
    requires Run(p, ss, steps) && Inv(p, ss[0]) && Sane(p)
    requires i <= j < |ss| && t in Queued(ss[i].queue)
    ensures t !in Live(ss[j].freqs, ss[j].cache, ss[j].fakes)
    ensures j < |steps| && steps[j].BatchStep? ==> t !in WriteTags(ss[j], steps[j].ch) && t !in ReadTags(ss[j], steps[j].ch)
  {
    hide Inv, BatchOk, PutOk, Get, Put, Clear, Batch, SplitOf, ReadTags, WriteTags, Live, Flatten;
    RunKeeps(p, ss, steps, i);
    RunKeeps(p, ss, steps, j);
    LiveStays(p, ss[i], 0);
    LiveStays(p, ss[j], 0);
    RunGrows(p, ss, steps, i, j);
    if j < |steps| && steps[j].BatchStep? {
      RunAt(p, ss, steps, j);
      ConstantTraffic(p, ss[j], steps[j].ch);
    }
  }

  // It makes no difference whether the background thread deletes before a batch or during it.
  lemma DeletionAnytime(p: Params, s: State, ch: Choices, n: nat)
    requires BatchOk(p, s, ch) && Inv(p, s) && n <= ch.pops
    ensures BatchOk(p, Clear(s, n), ch.(pops := ch.pops - n))
    ensures Batch(p, Clear(s, n), ch.(pops := ch.pops - n)) == Batch(p, s, ch)
  {
    hide Inv, Ripe, BatchOk, Through, Evictions, Eligible, WriteTags, ReadTags, FreqsAfter, FakesAfter, Fetched;
    hide DropStamps, Without, PutAll, AnswerAll, Flatten, Ready, Clear;
    BatchReadyOnly(p, s, ch);
    FactsOfBatch(p, s, ch);
    SameFetched(p, s, ch, n);
    SameParts(s, ch, n);
    SameOk(p, s, ch, n);
    SameStore(s, ch, n);
  }

  lemma SameStore(s: State, ch: Choices, n: nat)
    requires n <= ch.pops <= |s.queue|
    ensures Clear(Clear(s, n), ch.pops - n).store == Clear(s, ch.pops).store
    ensures Clear(s, n).queue[ch.pops - n..] == s.queue[ch.pops..]
  {
    hide Flatten, Elems;
    SplitPops(s.store, s.queue, n, ch.pops);
  }

  lemma SameParts(s: State, ch: Choices, n: nat)
    requires n <= ch.pops <= |s.queue|
    requires Fetched(Clear(s, n), Reads(s, ch)) == Fetched(s, Reads(s, ch))
    ensures var t, dh := Clear(s, n), ch.(pops := ch.pops - n);
            && Reads(t, dh) == Reads(s, ch) && Through(t, dh) == Through(s, ch) && Evictions(t, dh) == Evictions(s, ch)
            && Eligible(t) == Eligible(s) && WriteTags(t, dh) == WriteTags(s, ch) && ReadTags(t, dh) == ReadTags(s, ch)
            && FreqsAfter(t, dh) == FreqsAfter(s, ch) && FakesAfter(t, dh) == FakesAfter(s, ch)
            && t == s.(store := t.store, queue := s.queue[n..])
  {
    hide Kept, Fetched, Flatten;
  }

  lemma SameOk(p: Params, s: State, ch: Choices, n: nat)
    requires BatchOk(p, s, ch) && n <= ch.pops <= |s.queue|
    requires var t, dh := Clear(s, n), ch.(pops := ch.pops - n);
            && Reads(t, dh) == Reads(s, ch) && Through(t, dh) == Through(s, ch) && Evictions(t, dh) == Evictions(s, ch)
            && Eligible(t) == Eligible(s) && Fetched(t, Reads(t, dh)) == Fetched(s, Reads(s, ch))
            && t == s.(store := t.store, queue := s.queue[n..])
    ensures BatchOk(p, Clear(s, n), ch.(pops := ch.pops - n))
  {
    hide Through, Evictions, Eligible, Fetched, Clear, Wraps, WrapsNoise, IsScan, Ready, Reads;
  }

  lemma SameFetched(p: Params, s: State, ch: Choices, n: nat)
    requires Inv(p, s) && Ripe(p, s, ch) && n <= |s.queue|
    ensures Fetched(Clear(s, n), Reads(s, ch)) == Fetched(s, Reads(s, ch))
  {
    hide Inv, Live, Flatten, Through, Kept, Passing;
    LiveStays(p, s, n);
    LiveResident(s);
    var t := Clear(s, n);
    assert forall k :: k in Elems(Reads(s, ch)) ==> StoredValue(t, k) == StoredValue(s, k);
  }

  lemma LiveResident(s: State)
    ensures forall k :: k in Resident(s.freqs, s.cache) ==> TagOf(s.freqs, k) in Live(s.freqs, s.cache, s.fakes)
  {
  }

  lemma SplitPops(store: map<Tag, Cell>, queue: seq<seq<Tag>>, n: nat, pops: nat)
    requires n <= pops <= |queue|
    ensures queue[n..][pops - n..] == queue[pops..]
    ensures (store - Elems(Flatten(queue[..n]))) - Elems(Flatten(queue[n..][..pops - n])) == store - Elems(Flatten(queue[..pops]))
  {
    assert queue[..pops] == queue[..n] + queue[n..][..pops - n];
    FlattenConcat(queue[..n], queue[n..][..pops - n]);
    ElemsConcat(Flatten(queue[..n]), Flatten(queue[n..][..pops - n]));
  }

  // ---- quiescence ----

  // After every batch the tracker's four maps, the parked pairs, the registered deletions and the round's reads are empty.
  lemma Quiescence(p: Params, s: State, ch: Choices)
    requires Inv(p, s) && BatchOk(p, s, ch)
    ensures var t := Batch(p, s, ch);
            && t.tracker.running == {} && t.tracker.waiting == map[] && t.tracker.requests == map[] && t.tracker.got == map[]
            && t.evicted == map[] && t.pending == [] && t.ops == []
  {
    hide Inv, Ripe;
    FactsOfBatch(p, s, ch);
    Dropped(p, s, ch);
    hide BatchOk, FreqsAfter, FakesAfter, Through, WriteTags, ReadTags, DropStamps, Fetched, PutAll;
    BatchReadyOnly(p, s, ch);
    NothingPending(s.pending, Elems(Reads(s, ch)));
  }

  // Each eviction removes a cached record of least version.
  lemma EvictsLeast(p: Params, s: State, k: Key)
    requires Inv(p, s) && k in KeySet(s.cache)
    ensures s.cache != [] && FreqOf(s.freqs, s.cache[0].key) <= FreqOf(s.freqs, k)
    ensures forall q :: q in Resident(s.freqs, s.cache) ==> FreqOf(s.freqs, q) <= FreqOf(s.freqs, k)
  {
    hide InvKeys, InvCache, InvVersions, InvStored, InvStore, InvWritten, InvFakes, InvRound;
    hide InvPending, InvTracker, InvAsked, InvCounts, InvWindow, InvBase, InvFakeAges, InvNoise, Live;
    var i :| 0 <= i < |s.cache| && s.cache[i].key == k;
    assert i > 0 ==> FreqOf(s.freqs, s.cache[0].key) <= FreqOf(s.freqs, s.cache[i].key);
  }
}
