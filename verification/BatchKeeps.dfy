// The parts of the invariant after a batch, put together.
module BatchKeeps {
  import opened BatchProofs
  import opened Caches
  import opened Frequencies
  import opened Invariant
  import opened Keys
  import opened Protocol
  import opened PutProofs
  import opened Running
  import opened Seqs
  import opened Values

  function Left(s: State, ch: Choices): List
    requires |Reads(s, ch)| <= |Through(s, ch)|
  {
    Through(s, ch)[|Reads(s, ch)|..]
  }

  ghost predicate Ripe(p: Params, s: State, ch: Choices) {
    && BatchFacts(p, s, ch) && |Reads(s, ch)| <= |Through(s, ch)|
    && KeySet(s.cache) <= s.freqs.Keys <= s.hist.Keys
    && (forall k :: k in s.hist ==> k.Bucket?)
    && Elems(s.pending) <= s.freqs.Keys
    && s.clock >= 0
  }

  ghost predicate WrapsEvicted(s: State, ch: Choices) {
    && |Reads(s, ch)| <= |ch.cells| && |Reads(s, ch)| <= |Through(s, ch)|
    && forall i :: 0 <= i < |Reads(s, ch)| ==> Wraps(ch.cells[i], Through(s, ch)[i].value)
  }

  lemma RipeHolds(p: Params, s: State, ch: Choices)
    requires Inv(p, s) && BatchFacts(p, s, ch)
    ensures Ripe(p, s, ch)
  {
    EnoughCached(p, s, ch);
    hide InvVersions, InvRecency, InvStored, InvStore, InvWritten, InvFakes;
    hide InvPending, InvTracker, InvAsked, InvWindow, InvBase, InvFakeAges, InvNoise, Live, Through;
  }

  lemma KeysPart(p: Params, s: State, ch: Choices)
    requires Ripe(p, s, ch) && InvKeys(s.freqs, s.stamps, s.hist)
    ensures InvKeys(FreqsAfter(s, ch), DropStamps(s.stamps, Reads(s, ch), Elems(s.pending)), s.hist)
    ensures Restamped(s.freqs, Elems(Reads(s, ch)), Elems(s.pending), s.clock + 1, FreqsAfter(s, ch))
  {
    var taken, drop := Elems(Reads(s, ch)), Elems(s.pending);
    assert taken <= s.freqs.Keys && drop <= taken && (forall k :: k in drop ==> k.Bucket?);
    StampedIs(s.freqs, taken, drop, s.clock + 1);
    KeysAfter(s.freqs, s.stamps, s.hist, Reads(s, ch), drop, FreqsAfter(s, ch));
  }

  lemma KeysAfter(freqs: map<Key, int>, stamps: Stamps, hist: map<Key, Bytes>, keys: seq<Key>, drop: set<Key>, after: map<Key, int>)
    requires InvKeys(freqs, stamps, hist) && drop <= Elems(keys) && after.Keys == freqs.Keys - drop
    requires forall k :: k in drop ==> k.Bucket?
    ensures InvKeys(after, DropStamps(stamps, keys, drop), hist)
  {
    hide Indexed, DropStamps;
    DropStampsKeeps(freqs.Keys, stamps, keys, drop);
    assert drop * Elems(keys) == drop;
  }

  lemma CachePart(p: Params, s: State, ch: Choices)
    requires Ripe(p, s, ch)
    requires InvCache(s.freqs, s.cache, s.hist) && InvRecency(s.freqs, s.cache) && InvVersions(s.freqs, s.clock)
    requires Restamped(s.freqs, Elems(Reads(s, ch)), Elems(s.pending), s.clock + 1, FreqsAfter(s, ch))
    ensures InvCache(FreqsAfter(s, ch), Left(s, ch), s.hist) && InvRecency(FreqsAfter(s, ch), Left(s, ch))
    ensures InvVersions(FreqsAfter(s, ch), s.clock + 1)
    ensures Resident(FreqsAfter(s, ch), Left(s, ch))
         == (Resident(s.freqs, s.cache) - Elems(Reads(s, ch))) + KeySet(Through(s, ch)[..|Reads(s, ch)|])
    ensures forall i :: 0 <= i < |Reads(s, ch)| ==>
              Through(s, ch)[i].key in s.hist && Through(s, ch)[i].value == s.hist[Through(s, ch)[i].key]
  {
    hide Kept, Fetched, InvCache, InvRecency, InvVersions, Resident, KeySet, Passing, FreqsAfter, Elems;
    var taken, drop, n := Elems(Reads(s, ch)), Elems(s.pending), |Reads(s, ch)|;
    var kept := Kept(Reads(s, ch), Fetched(s, Reads(s, ch)), drop);
    CacheAfter(s.freqs, s.cache, s.hist, taken, drop, kept, FreqsAfter(s, ch), n);
    RecencyAfter(s.freqs, s.cache, s.hist, taken, drop, kept, s.clock, FreqsAfter(s, ch), n);
    VersionsAfter(s.freqs, taken, drop, s.clock, FreqsAfter(s, ch));
    ResidentAfter(s.freqs, s.cache, s.hist, taken, drop, kept, FreqsAfter(s, ch), n);
  }

  // The tags a batch writes are new.
  lemma FreshPart(p: Params, s: State, ch: Choices)
    requires Ripe(p, s, ch)
    requires InvWritten(s.freqs, KeySet(s.cache), s.hist.Keys, s.written) && InvVersions(s.freqs, s.clock)
    requires InvFakes(s.fakes, s.written) && InvVersions(s.fakes, s.clock)
    requires Restamped(s.freqs, Elems(Reads(s, ch)), Elems(s.pending), s.clock + 1, FreqsAfter(s, ch))
    ensures Elems(WriteTags(s, ch)) !! s.written
    ensures InvFakes(FakesAfter(s, ch), s.written + Elems(WriteTags(s, ch)))
    ensures InvVersions(FakesAfter(s, ch), s.clock + 1)
    ensures Restamped(s.fakes, Elems(ch.fakeKeys), {}, s.clock + 1, FakesAfter(s, ch))
  {
    hide InvWritten, InvVersions, FreqsAfter, FakesAfter, WriteTags, Restamped, Through, Tagged, KeySet, Ripe;
    FakesAreFake(s.fakes, s.written);
    WriteKinds(p, s, ch);
    FreshRealPart(p, s, ch);
    hide InvFakes;
    FreshFakePart(p, s, ch, Elems(WriteTags(s, ch)));
  }

  lemma FakesAreFake(fakes: map<Key, int>, written: set<Tag>)
    requires InvFakes(fakes, written)
    ensures forall k :: k in fakes ==> k.Fake?
  {
  }

  lemma FreshRealPart(p: Params, s: State, ch: Choices)
    requires Ripe(p, s, ch)
    requires InvWritten(s.freqs, KeySet(s.cache), s.hist.Keys, s.written) && InvVersions(s.freqs, s.clock)
    requires Restamped(s.freqs, Elems(Reads(s, ch)), Elems(s.pending), s.clock + 1, FreqsAfter(s, ch))
    ensures Tagged(FreqsAfter(s, ch), KeySet(Through(s, ch)[..|Reads(s, ch)|])) !! s.written
  {
    hide Kept, Fetched, InvWritten, InvVersions, Resident, Passing, FreqsAfter, Elems, Restamped, Tagged, KeySet, Reads;
    var kept := Kept(Reads(s, ch), Fetched(s, Reads(s, ch)), Elems(s.pending));
    FreshReal(s.freqs, s.cache, s.hist, Elems(Reads(s, ch)), Elems(s.pending), kept, s.clock, FreqsAfter(s, ch), s.written);
    FrontTags(FreqsAfter(s, ch), Through(s, ch), |Reads(s, ch)|);
  }

  lemma FreshFakePart(p: Params, s: State, ch: Choices, more: set<Tag>)
    requires Ripe(p, s, ch) && InvFakes(s.fakes, s.written) && InvVersions(s.fakes, s.clock)
    requires forall t :: t in more && t.key.Fake? ==> t in Tagged(FakesAfter(s, ch), Elems(ch.fakeKeys))
    ensures Tagged(FakesAfter(s, ch), Elems(ch.fakeKeys)) !! s.written
    ensures InvFakes(FakesAfter(s, ch), s.written + more) && InvVersions(FakesAfter(s, ch), s.clock + 1)
    ensures Restamped(s.fakes, Elems(ch.fakeKeys), {}, s.clock + 1, FakesAfter(s, ch))
  {
    hide Kept, Fetched, InvVersions, Resident, Passing, Through, Elems, InvFakes, Restamped, Tagged, KeySet, Reads, Stamped;
    FakesRestamped(s.fakes, Elems(ch.fakeKeys), s.clock + 1);
    FakesKeep(s.fakes, Elems(ch.fakeKeys), s.clock, FakesAfter(s, ch), s.written, more);
    VersionsAfter(s.fakes, Elems(ch.fakeKeys), {}, s.clock, FakesAfter(s, ch));
  }

  lemma WrittenPart(p: Params, s: State, ch: Choices)
    requires Ripe(p, s, ch) && forall k :: k in s.fakes ==> k.Fake?
    requires InvWritten(s.freqs, KeySet(s.cache), s.hist.Keys, s.written) && InvVersions(s.freqs, s.clock)
    requires Restamped(s.freqs, Elems(Reads(s, ch)), Elems(s.pending), s.clock + 1, FreqsAfter(s, ch))
    ensures InvWritten(FreqsAfter(s, ch), KeySet(Left(s, ch)), s.hist.Keys, s.written + Elems(WriteTags(s, ch)))
  {
    hide Kept, Fetched, InvWritten, InvVersions, Resident, Passing, FreqsAfter, FakesAfter, Elems, WriteTags, InvFakes, Restamped;
    hide Tagged, KeySet;
    var drop := Elems(s.pending);
    var kept := Kept(Reads(s, ch), Fetched(s, Reads(s, ch)), drop);
    WriteKinds(p, s, ch);
    WrittenAfter(s.freqs, s.cache, s.hist, Elems(Reads(s, ch)), drop, kept, s.clock, FreqsAfter(s, ch), s.written,
                 |Reads(s, ch)|, Elems(WriteTags(s, ch)));
  }

  lemma FakesRestamped(fakes: map<Key, int>, taken: set<Key>, t: int)
    requires taken <= fakes.Keys
    ensures Restamped(fakes, taken, {}, t, Stamped(fakes, taken, t))
  {
  }

  lemma FrontTags(m: map<Key, int>, full: List, n: nat)
    requires n <= |full|
    ensures Tagged(m, KeySet(full[..n])) <= Tagged(m, KeySet(full))
  {
    assert full == full[..n] + full[n..];
    KeySetConcat(full[..n], full[n..]);
    TaggedUnion(m, KeySet(full[..n]), KeySet(full[n..]));
  }

  // A written tag is a bucket's or a fake record's.
  lemma WriteKinds(p: Params, s: State, ch: Choices)
    requires Ripe(p, s, ch) && forall k :: k in s.fakes ==> k.Fake?
    ensures var more, n := Elems(WriteTags(s, ch)), |Reads(s, ch)|;
            && more == Tagged(FreqsAfter(s, ch), KeySet(Through(s, ch)[..n])) + Tagged(FakesAfter(s, ch), Elems(ch.fakeKeys))
            && (forall t :: t in more && t.key.Bucket? ==> t in Tagged(FreqsAfter(s, ch), KeySet(Through(s, ch)[..n])))
            && (forall t :: t in more && t.key.Fake? ==> t in Tagged(FakesAfter(s, ch), Elems(ch.fakeKeys)))
  {
    var kept := Kept(Reads(s, ch), Fetched(s, Reads(s, ch)), Elems(s.pending));
    var full, n := Through(s, ch), |Reads(s, ch)|;
    WriteTagsAre(p, s, ch);
    hide Kept, Fetched, WriteTags, FreqsAfter, FakesAfter;
    KeySetConcat(s.cache, kept);
    SplitKeySets(full, n);
    forall k | k in KeySet(full[..n]) ensures k.Bucket? {
      assert k in KeySet(full);
      assert k in s.hist;
    }
  }

  // ---- traffic: what is read and written ----

  lemma KindsApart(m: map<Key, int>, a: seq<Key>, f: map<Key, int>, b: seq<Key>)
    requires Distinct(a) && Distinct(b) && (forall k :: k in a ==> k.Bucket?) && (forall k :: k in b ==> k.Fake?)
    ensures Distinct(TagsOf(m, a) + TagsOf(f, b))
    ensures Elems(TagsOf(m, a) + TagsOf(f, b)) == Tagged(m, Elems(a)) + Tagged(f, Elems(b))
  {
    TagsDistinct(m, a);
    TagsDistinct(f, b);
    TagsElems(m, a);
    TagsElems(f, b);
    DistinctConcat(TagsOf(m, a), TagsOf(f, b));
    ElemsConcat(TagsOf(m, a), TagsOf(f, b));
  }

  // A batch reads B different live tags.
  lemma ReadsPart(p: Params, s: State, ch: Choices)
    requires Ripe(p, s, ch) && forall k :: k in s.fakes ==> k.Fake?
    ensures Distinct(ReadTags(s, ch)) && |ReadTags(s, ch)| == p.B
    ensures Elems(ReadTags(s, ch)) == Tagged(s.freqs, Elems(Reads(s, ch))) + Tagged(s.fakes, Elems(ch.fakeKeys))
    ensures Elems(ReadTags(s, ch)) <= Live(s.freqs, s.cache, s.fakes)
  {
    assert forall k :: k in Reads(s, ch) ==> k in Elems(Reads(s, ch));
    assert forall k :: k in ch.fakeKeys ==> k in Elems(ch.fakeKeys);
    hide Kept, Fetched, Through, Passing;
    KindsApart(s.freqs, Reads(s, ch), s.fakes, ch.fakeKeys);
  }

  // A batch writes B different tags.
  lemma WritesPart(p: Params, s: State, ch: Choices)
    requires Ripe(p, s, ch) && forall k :: k in s.fakes ==> k.Fake?
    ensures Distinct(WriteTags(s, ch)) && |WriteTags(s, ch)| == p.B
  {
    hide Kept, Fetched, Through, FreqsAfter, FakesAfter, Stamped, TagOf, Passing, DistinctKeys, Resident, KeySet;
    var ev := Through(s, ch)[..|Reads(s, ch)|];
    EvictedAreLive(p, s, ch);
    KeysInElems(ev);
    KeySetSize(ev);
    assert forall k :: k in KeysIn(ev) ==> k in Elems(KeysIn(ev));
    assert forall k :: k in ch.fakeKeys ==> k in Elems(ch.fakeKeys);
    KindsApart(Stamped(s.freqs, Elems(Reads(s, ch)), s.clock + 1), KeysIn(ev), FakesAfter(s, ch), ch.fakeKeys);
  }

  lemma LiveAlgebra(a: set<Tag>, b: set<Tag>, x: set<Tag>, y: set<Tag>, x': set<Tag>, y': set<Tag>)
    requires (forall t :: t in a ==> t.key.Bucket?) && (forall t :: t in x ==> t.key.Bucket?)
    requires (forall t :: t in b ==> t.key.Fake?) && (forall t :: t in y ==> t.key.Fake?)
    ensures ((a - x) + x') + ((b - y) + y') == ((a + b) - (x + y)) + (x' + y')
  {
  }

  // What is live afterwards: what was, less what was read, and what was written.
  lemma LivePart(p: Params, s: State, ch: Choices)
    requires Ripe(p, s, ch) && forall k :: k in s.fakes ==> k.Fake?
    requires Restamped(s.freqs, Elems(Reads(s, ch)), Elems(s.pending), s.clock + 1, FreqsAfter(s, ch))
    requires Restamped(s.fakes, Elems(ch.fakeKeys), {}, s.clock + 1, FakesAfter(s, ch))
    requires Resident(FreqsAfter(s, ch), Left(s, ch))
          == (Resident(s.freqs, s.cache) - Elems(Reads(s, ch))) + KeySet(Through(s, ch)[..|Reads(s, ch)|])
    ensures Live(FreqsAfter(s, ch), Left(s, ch), FakesAfter(s, ch))
         == (Live(s.freqs, s.cache, s.fakes) - Elems(ReadTags(s, ch))) + Elems(WriteTags(s, ch))
  {
    var taken, fake, n := Elems(Reads(s, ch)), Elems(ch.fakeKeys), |Reads(s, ch)|;
    var resident := Resident(s.freqs, s.cache);
    hide Kept, Fetched, FreqsAfter, FakesAfter, Through, WriteTags, ReadTags, Passing;
    WriteKinds(p, s, ch);
    ReadsPart(p, s, ch);
    TaggedAfter(s.freqs, FreqsAfter(s, ch), resident, taken, KeySet(Through(s, ch)[..n]));
    TaggedAfter(s.fakes, FakesAfter(s, ch), s.fakes.Keys, fake, fake);
    assert (s.fakes.Keys - fake) + fake == FakesAfter(s, ch).Keys;
    LiveAlgebra(Tagged(s.freqs, resident), Tagged(s.fakes, s.fakes.Keys), Tagged(s.freqs, taken), Tagged(s.fakes, fake),
                Tagged(FreqsAfter(s, ch), KeySet(Through(s, ch)[..n])), Tagged(FakesAfter(s, ch), fake));
  }

  // ---- the store ----

  lemma StoreKeys(store: map<Tag, Cell>, popped: set<Tag>, tags: seq<Tag>, cells: seq<Cell>)
    requires |tags| == |cells| && Distinct(tags)
    ensures PutAll(store - popped, tags, cells).Keys == (store.Keys - popped) + Elems(tags)
  {
    PutAllGet(store - popped, tags, cells);
  }

  lemma StorePart(p: Params, s: State, ch: Choices)
    requires Ripe(p, s, ch) && (forall k :: k in s.fakes ==> k.Fake?) && ch.pops <= |s.queue|
    requires InvStore(Live(s.freqs, s.cache, s.fakes), s.store.Keys, s.queue, s.written, s.read)
    requires Elems(WriteTags(s, ch)) !! s.written && |WriteTags(s, ch)| == |ch.cells|
    requires Live(FreqsAfter(s, ch), Left(s, ch), FakesAfter(s, ch))
          == (Live(s.freqs, s.cache, s.fakes) - Elems(ReadTags(s, ch))) + Elems(WriteTags(s, ch))
    ensures InvStore(Live(FreqsAfter(s, ch), Left(s, ch), FakesAfter(s, ch)),
                     PutAll(Clear(s, ch.pops).store, WriteTags(s, ch), ch.cells).Keys,
                     s.queue[ch.pops..] + [ReadTags(s, ch)],
                     s.written + Elems(WriteTags(s, ch)), s.read + Elems(ReadTags(s, ch)))
  {
    hide BatchFacts, InvStore, Live, FreqsAfter, FakesAfter, Through, WriteTags, ReadTags, Flatten;
    ReadsPart(p, s, ch);
    WritesPart(p, s, ch);
    StoreKeys(s.store, Queued(s.queue[..ch.pops]), WriteTags(s, ch), ch.cells);
    StoreAfter(Live(s.freqs, s.cache, s.fakes), s.store.Keys, s.queue, s.written, s.read, ReadTags(s, ch), WriteTags(s, ch),
               ch.pops, Live(FreqsAfter(s, ch), Left(s, ch), FakesAfter(s, ch)));
  }

  lemma StoredPart(p: Params, s: State, ch: Choices)
    requires Ripe(p, s, ch) && (forall k :: k in s.fakes ==> k.Fake?) && ch.pops <= |s.queue|
    requires InvStored(Resident(s.freqs, s.cache), s.freqs, s.store, s.hist)
    requires InvStore(Live(s.freqs, s.cache, s.fakes), s.store.Keys, s.queue, s.written, s.read)
    requires Elems(WriteTags(s, ch)) !! s.written && |WriteTags(s, ch)| == |ch.cells|
    requires Restamped(s.freqs, Elems(Reads(s, ch)), Elems(s.pending), s.clock + 1, FreqsAfter(s, ch))
    requires forall i :: 0 <= i < |Reads(s, ch)| ==>
               Through(s, ch)[i].key in s.hist && Through(s, ch)[i].value == s.hist[Through(s, ch)[i].key]
    requires WrapsEvicted(s, ch)
    ensures InvStored((Resident(s.freqs, s.cache) - Elems(Reads(s, ch))) + KeySet(Through(s, ch)[..|Reads(s, ch)|]),
                      FreqsAfter(s, ch), PutAll(Clear(s, ch.pops).store, WriteTags(s, ch), ch.cells), s.hist)
  {
    hide Kept, Fetched, Live, FreqsAfter, FakesAfter, WriteTags, ReadTags, Flatten, InvStored, Wraps, Passing, Through, KeySet, BatchFacts, InvStore;
    var ev, taken := Through(s, ch)[..|Reads(s, ch)|], Elems(Reads(s, ch));
    WritesPart(p, s, ch);
    WriteTagsFront(p, s, ch);
    PoppedStore(s, ch.pops);
    ResidentKept(s.freqs, s.cache, taken, Elems(s.pending), s.clock + 1, FreqsAfter(s, ch), p, s, ch);
    StoredAfter(Resident(s.freqs, s.cache), taken, s.freqs, FreqsAfter(s, ch), s.hist, s.store - Queued(s.queue[..ch.pops]), ev,
                WriteTags(s, ch), ch.cells);
  }

  lemma WriteTagsFront(p: Params, s: State, ch: Choices)
    requires Ripe(p, s, ch)
    ensures var ev := Through(s, ch)[..|Reads(s, ch)|];
            |WriteTags(s, ch)| == p.B && |ev| <= p.B
            && forall i :: 0 <= i < |ev| ==> WriteTags(s, ch)[i] == TagOf(FreqsAfter(s, ch), ev[i].key)
  {
    hide Kept, Fetched, FreqsAfter, FakesAfter, WriteTags, Passing;
    WriteTagsAre(p, s, ch);
  }

  lemma ResidentKept(freqs: map<Key, int>, cache: List, taken: set<Key>, drop: set<Key>, t: int, after: map<Key, int>,
                     p: Params, s: State, ch: Choices)
    requires Ripe(p, s, ch) && taken == Elems(Reads(s, ch)) && drop == Elems(s.pending) && freqs == s.freqs && cache == s.cache
    requires Restamped(freqs, taken, drop, t, after)
    ensures Resident(freqs, cache) <= freqs.Keys
    ensures forall k :: k in Resident(freqs, cache) - taken ==> k in after && after[k] == freqs[k]
  {
    hide Kept, Fetched, Through;
  }

  lemma PoppedStore(s: State, pops: nat)
    requires InvStored(Resident(s.freqs, s.cache), s.freqs, s.store, s.hist) && pops <= |s.queue|
    requires InvStore(Live(s.freqs, s.cache, s.fakes), s.store.Keys, s.queue, s.written, s.read)
    ensures InvStored(Resident(s.freqs, s.cache), s.freqs, s.store - Queued(s.queue[..pops]), s.hist)
    ensures s.store.Keys <= s.written
  {
    ClearStore(Live(s.freqs, s.cache, s.fakes), s.store, s.queue, s.written, s.read, pops);
    ClearStored(s, Queued(s.queue[..pops]));
  }

  // ---- the counts and the answers ----

  lemma DropPart(p: Params, s: State, ch: Choices)
    requires Ripe(p, s, ch)
    requires InvPending(s.freqs.Keys, s.tracker.running, Elems(s.pending)) && InvWindow(s.freqs.Keys, s.hist.Keys)
    requires InvBase(p.base, s.stamps, Elems(s.pending)) && Indexed(s.freqs.Keys, s.stamps)
    requires InvCounts(p, |s.freqs|, |s.cache|, |Elems(s.pending)|)
    requires FreqsAfter(s, ch).Keys == s.freqs.Keys - Elems(s.pending)
    requires Indexed(FreqsAfter(s, ch).Keys, DropStamps(s.stamps, Reads(s, ch), Elems(s.pending)))
    ensures Without(s.pending, Elems(Reads(s, ch))) == []
    ensures InvWindow(FreqsAfter(s, ch).Keys, s.hist.Keys)
    ensures InvBase(p.base, DropStamps(s.stamps, Reads(s, ch), Elems(s.pending)), {})
    ensures InvCounts(p, |FreqsAfter(s, ch)|, |Left(s, ch)|, 0)
  {
    hide BatchFacts, InvPending, InvWindow, InvBase, InvCounts, FreqsAfter, DropStamps, Indexed, Through, Reads;
    var drop := Elems(s.pending);
    Dropped(p, s, ch);
    NothingPending(s.pending, Elems(Reads(s, ch)));
    WindowAfter(s.freqs.Keys, s.hist.Keys, s.tracker.running, drop);
    BaseAfter(p.base, s.freqs.Keys, s.tracker.running, drop, s.stamps, DropStamps(s.stamps, Reads(s, ch), drop));
    CountsAfter(p, s.freqs, |s.cache|, drop, FreqsAfter(s, ch), |Left(s, ch)|);
  }

  // What is dropped was read, and leaves room.
  lemma Dropped(p: Params, s: State, ch: Choices)
    requires Ripe(p, s, ch)
    ensures Elems(s.pending) <= Elems(Reads(s, ch)) && |Reads(s, ch)| <= |Through(s, ch)| && |Left(s, ch)| + |Elems(s.pending)| == |s.cache|
  {
    hide Through, Kept, Fetched, Distinct, KeySet, Resident;
  }

  lemma AnswerPart(p: Params, s: State, ch: Choices)
    requires Ripe(p, s, ch)
    requires InvTracker(s.tracker, Resident(s.freqs, s.cache), s.hist) && InvAsked(s.tracker, s.asked, s.nextId, s.hist)
    ensures var fetched := Fetched(s, Reads(s, ch));
            && Ready(s.tracker.requests.Keys, s.tracker.requests, s.tracker.got + fetched)
            && InvAsked(AnswerAll(s.tracker, fetched), s.asked, s.nextId, s.hist)
  {
    hide Kept, Fetched, Through, Passing, InvTracker, InvAsked, AnswerAll, Ready;
    AllReady(s.tracker, Resident(s.freqs, s.cache), s.hist, s.asked, s.nextId, Fetched(s, Reads(s, ch)));
    AskedAfter(s.tracker, Resident(s.freqs, s.cache), s.hist, s.asked, s.nextId, Fetched(s, Reads(s, ch)));
  }

  // ---- fake records age by at most one batch per batch, and the F stalest are renewed ----

  lemma StaleAfter(fakes: map<Key, int>, picked: seq<Key>, clock: int, after: map<Key, int>, v: int)
    requires IsScan(fakes, fakes.Keys, picked) && Restamped(fakes, Elems(picked), {}, clock + 1, after) && v <= clock
    ensures Stale(after, v) == Stale(fakes, v) - Elems(picked)
    ensures Stale(after, v) == {} || Elems(picked) <= Stale(fakes, v)
  {
    if o :| o in Stale(after, v) {
      forall k | k in Elems(picked) ensures k in Stale(fakes, v) {
        assert FreqCmp(Entry(k, FreqOf(fakes, k)), Entry(o, FreqOf(fakes, o)));
      }
    }
  }

  lemma AgeLimitStep(p: Params, j: nat)
    requires j > 0
    ensures AgeLimit(p, j) == if AgeLimit(p, j - 1) >= p.F then AgeLimit(p, j - 1) - p.F else 0
  {
    assert j * p.F == (j - 1) * p.F + p.F;
  }

  lemma AgesPart(p: Params, fakes: map<Key, int>, picked: seq<Key>, clock: int, after: map<Key, int>)
    requires InvFakeAges(p, fakes, clock) && |picked| == p.F
    requires IsScan(fakes, fakes.Keys, picked) && Restamped(fakes, Elems(picked), {}, clock + 1, after)
    ensures InvFakeAges(p, after, clock + 1)
  {
    assert after.Keys == fakes.Keys;
    assert |after| == |after.Keys| && |fakes| == |fakes.Keys|;
    assert Distinct(picked) && |Stale(fakes, clock - 0)| <= AgeLimit(p, 0);
    DistinctSize(picked);
    hide AgeLimit;
    forall j: nat ensures |Stale(after, clock + 1 - j)| <= AgeLimit(p, j) {
      if j == 0 {
        SubsetSize(Stale(after, clock + 1), after.Keys);
        AgeLimitStart(p);
      } else {
        AgePart(p, fakes, picked, clock, after, j);
      }
    }
  }

  lemma AgeLimitStart(p: Params)
    ensures AgeLimit(p, 0) == p.D
  {
  }

  lemma AgePart(p: Params, fakes: map<Key, int>, picked: seq<Key>, clock: int, after: map<Key, int>, j: nat)
    requires j > 0 && |Stale(fakes, clock - (j - 1))| <= AgeLimit(p, j - 1) && |Elems(picked)| == p.F
    requires IsScan(fakes, fakes.Keys, picked) && Restamped(fakes, Elems(picked), {}, clock + 1, after)
    ensures |Stale(after, clock + 1 - j)| <= AgeLimit(p, j)
  {
    var v := clock - (j - 1);
    StaleAfter(fakes, picked, clock, after, v);
    hide Stale, IsScan, Restamped, AgeLimit;
    AgeLimitStep(p, j);
    if Stale(after, v) != {} {
      assert |Stale(fakes, v) - Elems(picked)| == |Stale(fakes, v)| - p.F;
    }
  }

  // ---- fake records are written as noise ----

  ghost predicate NoiseFrom(cells: seq<Cell>, n: nat, size: nat) {
    forall i :: n <= i < |cells| ==> WrapsNoise(cells[i], size)
  }

  lemma FakesRenewed(fakes: map<Key, int>, picked: seq<Key>, t: int, after: map<Key, int>, store: map<Tag, Cell>, tags: seq<Tag>,
                   cells: seq<Cell>, n: nat, size: nat)
    requires InvNoise(fakes, store, size) && Restamped(fakes, Elems(picked), {}, t, after) && NoiseFrom(cells, n, size)
    requires |tags| == |cells| == n + |picked| && Distinct(tags) && Elems(tags) !! store.Keys
    requires forall j :: 0 <= j < |picked| ==> tags[n + j] == TagOf(after, picked[j])
    ensures InvNoise(after, PutAll(store, tags, cells), size)
  {
    hide WrapsNoise, PutAll;
    PutAllGet(store, tags, cells);
    forall k | k in after
      ensures TagOf(after, k) in PutAll(store, tags, cells) && WrapsNoise(PutAll(store, tags, cells)[TagOf(after, k)], size)
    {
      if k in Elems(picked) {
        var j :| 0 <= j < |picked| && picked[j] == k;
        assert tags[n + j] == TagOf(after, k);
      } else {
        assert TagOf(after, k) == TagOf(fakes, k) && TagOf(fakes, k) in store.Keys;
      }
    }
  }

  lemma FakeTagsBack(p: Params, s: State, ch: Choices)
    requires Ripe(p, s, ch)
    ensures |WriteTags(s, ch)| == |Reads(s, ch)| + |ch.fakeKeys|
    ensures forall j :: 0 <= j < |ch.fakeKeys| ==> WriteTags(s, ch)[|Reads(s, ch)| + j] == TagOf(FakesAfter(s, ch), ch.fakeKeys[j])
  {
    hide Kept, Fetched, FakesAfter, FreqsAfter, Stamped, Passing, BatchFacts, Through, Evictions, TagOf, KeySet, DistinctKeys, Reads, Elems;
    EvictedAreLive(p, s, ch);
  }

  lemma NoisePart(p: Params, s: State, ch: Choices)
    requires Ripe(p, s, ch) && (forall k :: k in s.fakes ==> k.Fake?) && ch.pops <= |s.queue|
    requires InvStore(Live(s.freqs, s.cache, s.fakes), s.store.Keys, s.queue, s.written, s.read)
    requires InvNoise(s.fakes, s.store, p.objectSize) && NoiseFrom(ch.cells, |Reads(s, ch)|, p.objectSize)
    requires Elems(WriteTags(s, ch)) !! s.written && |WriteTags(s, ch)| == |ch.cells|
    requires Restamped(s.fakes, Elems(ch.fakeKeys), {}, s.clock + 1, FakesAfter(s, ch))
    ensures InvNoise(FakesAfter(s, ch), PutAll(Clear(s, ch.pops).store, WriteTags(s, ch), ch.cells), p.objectSize)
  {
    hide Live, FakesAfter, WriteTags, Flatten, InvNoise, NoiseFrom, Through, InvStore, Restamped, Ripe, PutAll, Elems, Queued, Reads;
    WritesPart(p, s, ch);
    FakeTagsBack(p, s, ch);
    StoreIsWritten(s);
    ClearIs(s, ch.pops);
    ClearStore(Live(s.freqs, s.cache, s.fakes), s.store, s.queue, s.written, s.read, ch.pops);
    ClearNoise(s.freqs, s.cache, s.fakes, s.store, p.objectSize, Queued(s.queue[..ch.pops]));
    FakesRenewed(s.fakes, ch.fakeKeys, s.clock + 1, FakesAfter(s, ch), s.store - Queued(s.queue[..ch.pops]), WriteTags(s, ch), ch.cells,
               |Reads(s, ch)|, p.objectSize);
  }

  lemma StoreIsWritten(s: State)
    requires InvStore(Live(s.freqs, s.cache, s.fakes), s.store.Keys, s.queue, s.written, s.read)
    ensures s.store.Keys <= s.written
  {
    hide Live, Queued;
  }

  // ---- all together ----

  ghost predicate AllParts(p: Params, s: State, ch: Choices)
    requires |Reads(s, ch)| <= |Through(s, ch)| && |WriteTags(s, ch)| == |ch.cells| && ch.pops <= |s.queue|
    requires Ready(s.tracker.requests.Keys, s.tracker.requests, s.tracker.got + Fetched(s, Reads(s, ch)))
  {
    var freqs, fakes, left := FreqsAfter(s, ch), FakesAfter(s, ch), Left(s, ch);
    var resident := Resident(freqs, left);
    var stamps := DropStamps(s.stamps, Reads(s, ch), Elems(s.pending));
    var written := s.written + Elems(WriteTags(s, ch));
    var store := PutAll(Clear(s, ch.pops).store, WriteTags(s, ch), ch.cells);
    && InvKeys(freqs, stamps, s.hist) && InvCache(freqs, left, s.hist) && InvRecency(freqs, left)
    && InvVersions(freqs, s.clock + 1) && InvVersions(fakes, s.clock + 1)
    && InvStored(resident, freqs, store, s.hist)
    && InvStore(Live(freqs, left, fakes), store.Keys, s.queue[ch.pops..] + [ReadTags(s, ch)], written, s.read + Elems(ReadTags(s, ch)))
    && InvWritten(freqs, KeySet(left), s.hist.Keys, written) && InvFakes(fakes, written)
    && InvAsked(AnswerAll(s.tracker, Fetched(s, Reads(s, ch))), s.asked, s.nextId, s.hist)
    && InvCounts(p, |freqs|, |left|, 0) && InvWindow(freqs.Keys, s.hist.Keys) && InvBase(p.base, stamps, {})
    && InvFakeAges(p, fakes, s.clock + 1) && InvNoise(fakes, store, p.objectSize)
    && Without(s.pending, Elems(Reads(s, ch))) == []
  }

  lemma FactsOfBatch(p: Params, s: State, ch: Choices)
    requires Inv(p, s) && BatchOk(p, s, ch)
    ensures Ripe(p, s, ch)
  {
    hide Inv, BatchFacts, Ripe, Through, Fetched;
    FactsHold(p, s, ch);
    RipeHolds(p, s, ch);
  }

  lemma MoreFacts(p: Params, s: State, ch: Choices)
    requires Inv(p, s) && BatchOk(p, s, ch) && Ripe(p, s, ch)
    ensures |WriteTags(s, ch)| == |ch.cells| && ch.pops <= |s.queue|
    ensures forall k :: k in s.fakes ==> k.Fake?
    ensures IsScan(s.fakes, s.fakes.Keys, ch.fakeKeys) && |ch.fakeKeys| == p.F
    ensures WrapsEvicted(s, ch) && NoiseFrom(ch.cells, |Reads(s, ch)|, p.objectSize)
    ensures Indexed(s.freqs.Keys, s.stamps) && s.clock >= 0 && p.R - 1 + p.M >= 0
  {
    hide InvVersions, InvRecency, InvStored, InvStore, InvWritten, BatchFacts, IsScan, Wraps, Indexed, Ready;
    hide InvPending, InvTracker, InvAsked, InvWindow, InvBase, InvFakeAges, InvNoise, InvCounts, Live, Through, InvCache;
    assert forall i :: 0 <= i < |Reads(s, ch)| ==> Evictions(s, ch)[i] == Through(s, ch)[i];
  }

  lemma PartsHold(p: Params, s: State, ch: Choices)
    requires Inv(p, s) && BatchOk(p, s, ch)
    requires Ripe(p, s, ch) && |WriteTags(s, ch)| == |ch.cells| && ch.pops <= |s.queue|
    requires forall k :: k in s.fakes ==> k.Fake?
    requires IsScan(s.fakes, s.fakes.Keys, ch.fakeKeys) && |ch.fakeKeys| == p.F
    requires WrapsEvicted(s, ch) && NoiseFrom(ch.cells, |Reads(s, ch)|, p.objectSize)
    requires Indexed(s.freqs.Keys, s.stamps)
    ensures Ready(s.tracker.requests.Keys, s.tracker.requests, s.tracker.got + Fetched(s, Reads(s, ch)))
    ensures |Reads(s, ch)| <= |Through(s, ch)|
    ensures AllParts(p, s, ch)
  {
    hide BatchOk, InvKeys, InvCache, InvVersions, InvRecency, InvStored, InvStore, InvWritten, InvFakes;
    hide InvRound, InvPending, InvTracker, InvAsked, InvCounts, InvWindow, InvBase, InvFakeAges, InvNoise;
    hide BatchFacts, FreqsAfter, FakesAfter, Through, WriteTags, ReadTags, Resident, Live, KeySet, DropStamps, Indexed;
    hide Restamped, IsScan, Fetched, Ready, WrapsEvicted, NoiseFrom, Without, PutAll, AnswerAll;
    KeysPart(p, s, ch);
    CachePart(p, s, ch);
    FreshPart(p, s, ch);
    WrittenPart(p, s, ch);
    LivePart(p, s, ch);
    StorePart(p, s, ch);
    StoredPart(p, s, ch);
    AfterKeysPart(p, s, ch);
    DropPart(p, s, ch);
    AnswerPart(p, s, ch);
    AgesPart(p, s.fakes, ch.fakeKeys, s.clock, FakesAfter(s, ch));
    NoisePart(p, s, ch);
  }

  lemma AfterKeysPart(p: Params, s: State, ch: Choices)
    requires Restamped(s.freqs, Elems(Reads(s, ch)), Elems(s.pending), s.clock + 1, FreqsAfter(s, ch))
    requires InvKeys(FreqsAfter(s, ch), DropStamps(s.stamps, Reads(s, ch), Elems(s.pending)), s.hist)
    ensures FreqsAfter(s, ch).Keys == s.freqs.Keys - Elems(s.pending)
    ensures Indexed(FreqsAfter(s, ch).Keys, DropStamps(s.stamps, Reads(s, ch), Elems(s.pending)))
  {
    hide FreqsAfter;
  }

  // A batch keeps the invariant.
  lemma BatchKeepsInv(p: Params, s: State, ch: Choices)
    requires Inv(p, s) && BatchOk(p, s, ch)
    ensures Inv(p, Batch(p, s, ch))
  {
    hide Inv, BatchOk, Ripe, AllParts, Through, WriteTags, Batch, WrapsEvicted, NoiseFrom;
    FactsOfBatch(p, s, ch);
    MoreFacts(p, s, ch);
    PartsHold(p, s, ch);
    BatchInv(p, s, ch);
  }

  lemma BatchInv(p: Params, s: State, ch: Choices)
    requires BatchOk(p, s, ch) && s.clock >= 0 && p.R - 1 + p.M >= 0
    requires |Reads(s, ch)| <= |Through(s, ch)| && |WriteTags(s, ch)| == |ch.cells| && ch.pops <= |s.queue|
    requires Ready(s.tracker.requests.Keys, s.tracker.requests, s.tracker.got + Fetched(s, Reads(s, ch)))
    requires AllParts(p, s, ch)
    ensures Inv(p, Batch(p, s, ch))
  {
    hide BatchOk, InvKeys, InvCache, InvVersions, InvRecency, InvStored, InvStore, InvWritten, InvFakes;
    hide InvAsked, InvCounts, InvWindow, InvBase, InvFakeAges, InvNoise;
    hide FreqsAfter, FakesAfter, Through, WriteTags, ReadTags, Resident, Live, KeySet, DropStamps, Indexed;
    hide Fetched, Ready, Without, PutAll, Record, InvRound, InvPending, InvTracker, Elems, Clear;
    var t := Batch(p, s, ch);
    IdleParts(p, Resident(t.freqs, t.cache), t.freqs.Keys, t.tracker, s.hist);
  }

  lemma IdleParts(p: Params, resident: set<Key>, live: set<Key>, t: Tracker, hist: map<Key, Bytes>)
    requires t.running == {} && t.waiting == map[] && t.requests == map[] && t.got == map[] && p.R - 1 + p.M >= 0
    ensures InvRound(p, resident, t.running + t.waiting.Keys, [], 0) && InvPending(live, t.running, Elems([]))
    ensures InvTracker(t, resident, hist) && Elems<Key>([]) == {}
  {
    assert Elems<Key>([]) == {};
  }
}
