// What every reachable state satisfies, in parts. Each part speaks of the fields it needs and no others.
module Invariant {
  import opened Caches
  import opened Frequencies
  import opened Keys
  import opened Protocol
  import opened Running
  import opened Seqs
  import opened Values

  // The index names the live records, and every live record was inserted at some time.
  ghost predicate InvKeys(freqs: map<Key, int>, stamps: Stamps, hist: map<Key, Bytes>) {
    && Indexed(freqs.Keys, stamps) && freqs.Keys <= hist.Keys
    && forall k :: k in hist ==> k.Bucket? && NulFree(hist[k])
  }

  // The cache holds live records with the values they were inserted with.
  ghost predicate InvCache(freqs: map<Key, int>, cache: List, hist: map<Key, Bytes>) {
    && DistinctKeys(cache) && KeySet(cache) <= freqs.Keys
    && forall i :: 0 <= i < |cache| ==> cache[i].key in hist && cache[i].value == hist[cache[i].key]
  }

  ghost predicate InvVersions(m: map<Key, int>, clock: int) {
    forall k :: k in m ==> 0 <= m[k] <= clock
  }

  // From back to front the cache has non-decreasing versions, and none is below a store-resident one.
  ghost predicate InvRecency(freqs: map<Key, int>, cache: List) {
    && (forall i, j :: 0 <= i < j < |cache| ==> FreqOf(freqs, cache[i].key) <= FreqOf(freqs, cache[j].key))
    && (forall k, i :: k in Resident(freqs, cache) && 0 <= i < |cache| ==> FreqOf(freqs, k) <= FreqOf(freqs, cache[i].key))
  }

  // A store-resident record is in the store, at its current tag, with the value it was inserted with.
  ghost predicate InvStored(resident: set<Key>, freqs: map<Key, int>, store: map<Tag, Cell>, hist: map<Key, Bytes>) {
    forall k :: k in resident ==>
      TagOf(freqs, k) in store && k in hist && Wraps(store[TagOf(freqs, k)], hist[k])
  }

  // The store is what is live and what waits for deletion, and those are different tags. A tag that was read is not live.
  ghost predicate InvStore(live: set<Tag>, store: set<Tag>, queue: seq<seq<Tag>>, written: set<Tag>, read: set<Tag>) {
    && store == live + Queued(queue) && live !! Queued(queue) && Distinct(Flatten(queue))
    && store <= written && Queued(queue) <= read <= written && live !! read
  }

  // Versions written so far are at most the current one, and below it when the value is in the cache.
  ghost predicate InvWritten(freqs: map<Key, int>, cached: set<Key>, hist: set<Key>, written: set<Tag>) {
    && (forall t :: t in written && t.key.Bucket? ==> t.key in hist)
    && (forall t :: t in written && t.key in freqs ==> t.version <= freqs[t.key])
    && (forall t :: t in written && t.key in cached ==> t.version < FreqOf(freqs, t.key))
  }

  ghost predicate InvFakes(fakes: map<Key, int>, written: set<Tag>) {
    && (forall k :: k in fakes ==> k.Fake?)
    && (forall t :: t in written && t.key.Fake? ==> t.key in fakes && t.version <= fakes[t.key])
  }

  // The round's reads are distinct store-resident records, exactly those the tracker calls busy.
  ghost predicate InvRound(p: Params, resident: set<Key>, busy: set<Key>, ops: seq<Key>, slots: nat) {
    && Distinct(ops) && Elems(ops) <= resident && busy == Elems(ops)
    && |ops| <= slots <= p.R - 1 + p.M
  }

  // A record registered for deletion is going to be read, and is the oldest of its item.
  ghost predicate InvPending(live: set<Key>, running: set<Key>, pending: set<Key>) {
    && pending <= running
    && forall k, q :: k in pending && q in live && q.Bucket? ==> k.Bucket? && (q.item == k.item ==> k.ts <= q.ts)
  }

  // A pending GET waits for exactly the keys it still misses; what it has got is right.
  ghost predicate InvTracker(t: Tracker, resident: set<Key>, hist: map<Key, Bytes>) {
    && (forall k :: k in t.got ==> k in hist && t.got[k] == hist[k])
    && t.got.Keys !! resident
    && (forall k :: k in t.waiting ==> t.waiting[k] != {})
    && (forall k, r :: k in t.waiting && r in t.waiting[k] ==> r in t.requests && k in t.requests[r])
    && (forall r, k :: r in t.requests && k in t.requests[r] ==> k in t.got || (k in t.waiting && r in t.waiting[k]))
  }

  // Every GET is still pending and unanswered, or was answered once, with the right sum.
  ghost predicate InvAsked(t: Tracker, asked: map<nat, seq<Key>>, nextId: nat, hist: map<Key, Bytes>) {
    && t.answers.Keys <= asked.Keys && t.requests.Keys <= asked.Keys
    && (forall r :: r in asked ==> r < nextId && asked[r] != [] && Fulfilled(asked[r], hist))
    && (forall r :: r in t.requests ==> t.requests[r] == asked[r] && r !in t.answers)
    && (forall r :: r in asked && r !in t.requests ==> r in t.answers && t.answers[r] == [AnswerOf(asked[r], hist)])
  }

  // Records outside the cache keep their number; every registered deletion is backed by a cached record to spare.
  ghost predicate InvCounts(p: Params, records: nat, cached: nat, doomed: nat) {
    records + p.C == cached + p.N && cached >= p.C + doomed
  }

  // Nothing retained is older than something removed.
  ghost predicate InvWindow(live: set<Key>, hist: set<Key>) {
    forall k, q :: k in hist && k !in live && q in live && k.Bucket? && q.Bucket? && k.item == q.item ==> k.ts < q.ts
  }

  function Doomed(pending: set<Key>, item: Item): nat {
    if exists k :: k in pending && k.Bucket? && k.item == item then 1 else 0
  }

  // No item runs short of buckets.
  ghost predicate InvBase(base: map<Item, nat>, stamps: Stamps, pending: set<Key>) {
    forall item :: item in base ==> |StampsOf(stamps, item)| >= base[item] + Doomed(pending, item)
  }

  // The fake records with a version at most v.
  function Stale(fakes: map<Key, int>, v: int): set<Key> {
    set k | k in fakes && fakes[k] <= v
  }

  // How many fake records may have gone unread for j batches.
  function AgeLimit(p: Params, j: nat): nat {
    if p.D >= j * p.F then p.D - j * p.F else 0
  }

  ghost predicate InvFakeAges(p: Params, fakes: map<Key, int>, clock: int) {
    |fakes| == p.D
    && forall j: nat :: |Stale(fakes, clock - j)| <= AgeLimit(p, j)
  }

  // Every fake record is in the store, at its current tag, as noise of the size of an object.
  ghost predicate InvNoise(fakes: map<Key, int>, store: map<Tag, Cell>, size: nat) {
    forall k :: k in fakes ==> TagOf(fakes, k) in store && WrapsNoise(store[TagOf(fakes, k)], size)
  }

  // Some noise.
  function Noise(size: nat): (noise: Bytes)
    ensures |noise| == size && Alphanumeric(noise)
  {
    seq(size, _ => Alphanum(0))
  }

  lemma NoiseWraps(c: Cell, noise: Bytes)
    requires Wraps(c, noise) && Alphanumeric(noise)
    ensures WrapsNoise(c, |noise|)
  {
  }

  ghost predicate Inv(p: Params, s: State) {
    var resident := Resident(s.freqs, s.cache);
    && s.evicted == map[] && s.clock >= 0
    && InvKeys(s.freqs, s.stamps, s.hist)
    && InvCache(s.freqs, s.cache, s.hist)
    && InvVersions(s.freqs, s.clock) && InvVersions(s.fakes, s.clock)
    && InvRecency(s.freqs, s.cache)
    && InvStored(resident, s.freqs, s.store, s.hist)
    && InvStore(Live(s.freqs, s.cache, s.fakes), s.store.Keys, s.queue, s.written, s.read)
    && InvWritten(s.freqs, KeySet(s.cache), s.hist.Keys, s.written)
    && InvFakes(s.fakes, s.written)
    && InvRound(p, resident, s.tracker.running + s.tracker.waiting.Keys, s.ops, s.slots)
    && InvPending(s.freqs.Keys, s.tracker.running, Elems(s.pending))
    && InvTracker(s.tracker, resident, s.hist)
    && InvAsked(s.tracker, s.asked, s.nextId, s.hist)
    && InvCounts(p, |s.freqs|, |s.cache|, |Elems(s.pending)|)
    && InvWindow(s.freqs.Keys, s.hist.Keys)
    && InvBase(p.base, s.stamps, Elems(s.pending))
    && InvFakeAges(p, s.fakes, s.clock)
    && InvNoise(s.fakes, s.store, p.objectSize)
  }
}
