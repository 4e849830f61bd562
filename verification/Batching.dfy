// What the code of a batch relies on, and how its pieces add up to a batch.
module Batching {
  import opened BatchKeeps
  import opened BatchProofs
  import opened Caches
  import opened Clearing
  import opened Exchanges
  import opened Frequencies
  import opened Invariant
  import opened Keys
  import opened Loops
  import opened Protocol
  import opened Running
  import opened Seqs
  import opened Values

  ghost predicate NoneEmpty(t: Tracker) {
    forall r :: r in t.requests ==> t.requests[r] != []
  }

  // The promises answered when a round ends take no key out of get_map that still has to be read.
  lemma WaitingStays(t: Tracker, resident: set<Key>, hist: map<Key, Bytes>, asked: map<nat, seq<Key>>, nextId: nat)
    requires InvTracker(t, resident, hist) && InvAsked(t, asked, nextId, hist) && t.waiting.Keys <= resident
    ensures NoneEmpty(t)
    ensures TryClearAll(t).waiting == t.waiting && TryClearAll(t).running == t.running
  {
    var done := FulfilledOf(t.requests.Keys, t.requests, t.got);
    if k :| k in t.waiting {
      var r :| r in t.waiting[k];
      assert r in t.requests && k in t.requests[r] && k !in t.got;
      assert r in t.requests - done;
    } else {
      assert t.waiting == map[];
    }
  }

  // What the start of a batch finds.
  ghost predicate RoundReady(p: Params, s: State) {
    && Shape(s.tracker) && s.evicted == map[] && Distinct(s.ops) && Elems(s.ops) <= Resident(s.freqs, s.cache)
    && s.tracker.running + s.tracker.waiting.Keys == Elems(s.ops)
    && NoneEmpty(s.tracker)
    && TryClearAll(s.tracker).waiting == s.tracker.waiting && TryClearAll(s.tracker).running == s.tracker.running
    && (forall k :: k in s.freqs ==> k.Bucket?) && (forall k :: k in s.fakes ==> k.Fake?)
    && Below(s.fakes, s.clock + 1) && |s.fakes| == p.D
    && |s.ops| + p.F <= p.B && |Eligible(s)| >= p.B - p.F - |s.ops|
  }

  lemma RoundIsReady(p: Params, s: State)
    requires Inv(p, s) && Sane(p)
    ensures RoundReady(p, s)
  {
    hide InvVersions, InvRecency, InvStored, InvStore, InvWritten, InvCache, Indexed, NulFree;
    hide InvPending, InvTracker, InvAsked, InvCounts, InvWindow, InvBase, Live, Eligible, Resident, Shape, TryClearAll, Below;
    var resident := Resident(s.freqs, s.cache);
    EnoughEligible(p, s);
    ShapeHolds(s.tracker, resident, s.hist, s.asked, s.nextId);
    WaitingStays(s.tracker, resident, s.hist, s.asked, s.nextId);
    BelowNext(s.fakes, s.clock);
  }

  lemma BelowNext(m: map<Key, int>, clock: int)
    requires InvVersions(m, clock)
    ensures Below(m, clock + 1)
  {
  }

  // The padding loop looks at the tree after the round's reads were stamped; what it may take is the same.
  lemma PoolIs(p: Params, s: State, t: Tracker)
    requires RoundReady(p, s) && DistinctKeys(s.cache) && t.running == s.tracker.running && t.waiting == s.tracker.waiting
    ensures IsPool(Stamped(s.freqs, Elems(s.ops), s.clock + 1), ListMap(s.cache), s.evicted, t, Eligible(s))
  {
    hide Shape, TryClearAll, Below, Distinct;
    ListMapOf(s.cache);
  }

  lemma ScanUnstamped(s: State, chosen: seq<Key>, t: int)
    requires IsScan(Stamped(s.freqs, Elems(s.ops), t), Eligible(s), chosen) && Eligible(s) <= s.freqs.Keys
    ensures IsScan(s.freqs, Eligible(s), chosen) && Distinct(chosen) && Elems(chosen) <= Eligible(s)
  {
    var m := Stamped(s.freqs, Elems(s.ops), t);
    assert forall k :: k in Eligible(s) ==> FreqOf(m, k) == FreqOf(s.freqs, k);
    assert forall i :: 0 <= i < |chosen| ==> chosen[i] in Elems(chosen);
  }

  lemma StampTwice(freqs: map<Key, int>, ops: seq<Key>, chosen: seq<Key>, t: int)
    requires Elems(chosen) !! Elems(ops)
    ensures Stamped(Stamped(freqs, Elems(ops), t), Elems(chosen), t) == Stamped(freqs, Elems(ops + chosen), t)
    ensures TagsOf(Stamped(freqs, Elems(ops), t), chosen) == TagsOf(freqs, chosen)
    ensures TagsOf(freqs, ops) + TagsOf(freqs, chosen) == TagsOf(freqs, ops + chosen)
    ensures freqs.Keys <= Stamped(freqs, Elems(ops), t).Keys
  {
    ElemsConcat(ops, chosen);
    StampUnion(freqs, Elems(ops), Elems(chosen), t);
    hide Stamped;
    forall i | 0 <= i < |chosen| ensures TagOf(Stamped(freqs, Elems(ops), t), chosen[i]) == TagOf(freqs, chosen[i]) {
      assert chosen[i] in Elems(chosen);
    }
  }

  lemma StampUnion(freqs: map<Key, int>, a: set<Key>, b: set<Key>, t: int)
    ensures Stamped(Stamped(freqs, a, t), b, t) == Stamped(freqs, a + b, t)
    ensures forall k :: k !in a ==> TagOf(Stamped(freqs, a, t), k) == TagOf(freqs, k)
    ensures freqs.Keys <= Stamped(freqs, a, t).Keys
  {
  }

  // B - (ops + F) in unsigned 64-bit arithmetic.
  function UnsignedDifference(a: nat, b: nat): nat {
    (a - b) % 0x1_0000_0000_0000_0000
  }

  // It is the difference exactly when nothing is borrowed.
  lemma NoWrap(a: nat, b: nat)
    requires a < 0x8000_0000 && b < 0x1_0000_0000
    ensures UnsignedDifference(a, b) == a - b <==> b <= a
  {
  }

  // The padding count does not wrap, although the last GET of a round may overshoot R.
  lemma NoUnderflow(p: Params, s: State)
    requires Inv(p, s) && Sane(p)
    ensures |s.ops| <= p.R - 1 + p.M && UnsignedDifference(p.B, |s.ops| + p.F) == p.B - (|s.ops| + p.F)
  {
    hide InvKeys, InvCache, InvVersions, InvRecency, InvStored, InvStore, InvWritten, InvFakes;
    hide InvPending, InvTracker, InvAsked, InvCounts, InvWindow, InvBase, InvFakeAges, InvNoise, Resident, Live;
    NoWrap(p.B, |s.ops| + p.F);
  }

  lemma RoundOps(p: Params, s: State)
    requires RoundReady(p, s) && Sane(p)
    ensures s.evicted == map[] && Distinct(s.ops) && Elems(s.ops) <= s.freqs.Keys && KeyedBy([], map[])
    ensures |s.ops| + p.F <= p.B && UnsignedDifference(p.B, |s.ops| + p.F) == p.B - (|s.ops| + p.F) <= |Eligible(s)|
    ensures NoneEmpty(s.tracker)
    ensures TryClearAll(s.tracker).waiting == s.tracker.waiting && TryClearAll(s.tracker).running == s.tracker.running
    ensures Eligible(s) <= s.freqs.Keys && Eligible(s) !! Elems(s.ops)
  {
    hide Shape, TryClearAll, Below, Distinct;
    NoWrap(p.B, |s.ops| + p.F);
  }

  // No fake record is busy when the fake reads are chosen.
  lemma FakesIdle(p: Params, s: State, chosen: seq<Key>, running: set<Key>, waiting: set<Key>)
    requires RoundReady(p, s) && Sane(p) && PaddedReal(p, s, chosen, running) && waiting == s.tracker.waiting.Keys
    ensures s.fakes.Keys !! running + waiting && Below(s.fakes, s.clock + 1) && p.F <= |s.fakes|
    ensures running <= Elems(s.ops + chosen) && IsScan(s.freqs, Eligible(s), chosen) && |s.ops| + p.F + |chosen| == p.B
  {
    hide Shape, TryClearAll, Below, Distinct, Resident, IsScan;
    ElemsConcat(s.ops, chosen);
    assert running + waiting <= Elems(s.ops) + Elems(chosen);
    LiveReads(s);
    forall k | k in running + waiting ensures k !in s.fakes {
      assert k in s.freqs;
    }
  }

  lemma LiveReads(s: State)
    ensures Eligible(s) <= s.freqs.Keys && Resident(s.freqs, s.cache) <= s.freqs.Keys
  {
  }

  // The real reads once the padding is chosen; running are the keys of m_map_.
  ghost predicate PaddedReal(p: Params, s: State, chosen: seq<Key>, running: set<Key>) {
    && IsScan(s.freqs, Eligible(s), chosen) && |s.ops| + p.F + |chosen| == p.B && Elems(chosen) <= Eligible(s)
    && running <= s.tracker.running + s.tracker.waiting.Keys + Elems(chosen)
  }

  // The reads of a batch, once they are selected.
  ghost predicate Selected(p: Params, s: State, ch: Choices) {
    && IsScan(s.freqs, Eligible(s), ch.chosen) && |s.ops| + p.F + |ch.chosen| == p.B
    && IsScan(s.fakes, s.fakes.Keys, ch.fakeKeys) && |ch.fakeKeys| == p.F
  }

  lemma SelectedIs(p: Params, s: State, chosen: seq<Key>, fakeKeys: seq<Key>)
    requires IsScan(s.freqs, Eligible(s), chosen) && |s.ops| + p.F + |chosen| == p.B
    requires IsScan(s.fakes, s.fakes.Keys, fakeKeys) && |fakeKeys| == p.F
    ensures var ch := Choices(chosen, fakeKeys, [], 0);
            && Selected(p, s, ch) && Reads(s, ch) == s.ops + chosen
            && ReadTags(s, ch) == TagsOf(s.freqs, s.ops + chosen) + TagsOf(s.fakes, fakeKeys)
            && StampedReads(s, ch) == Stamped(s.freqs, Elems(s.ops + chosen), s.clock + 1)
            && FakesAfter(s, ch) == Stamped(s.fakes, Elems(fakeKeys), s.clock + 1)
  {
    hide IsScan, Eligible, Stamped;
  }

  lemma SelectedRipe(p: Params, s: State, ch: Choices)
    requires Inv(p, s) && Sane(p) && Selected(p, s, ch)
    ensures Ripe(p, s, ch) && |Reads(s, ch)| < |Through(s, ch)|
    ensures |ReadTags(s, ch)| == p.B && Elems(ReadTags(s, ch)) <= Live(s.freqs, s.cache, s.fakes)
    ensures forall k :: k in s.fakes ==> k.Fake?
  {
    hide Inv, Ripe, Through, ReadTags, Live, BatchFacts;
    FactsHold(p, s, ch);
    RipeHolds(p, s, ch);
    EnoughCached(p, s, ch);
    FakeNames(p, s);
    ReadsPart(p, s, ch);
  }

  lemma Readable(p: Params, s: State, ch: Choices)
    requires Inv(p, s) && Elems(ReadTags(s, ch)) <= Live(s.freqs, s.cache, s.fakes)
    ensures Elems(ReadTags(s, ch)) <= s.store.Keys
  {
    hide InvKeys, InvCache, InvVersions, InvRecency, InvStored, InvWritten, InvFakes, InvRound;
    hide InvPending, InvTracker, InvAsked, InvCounts, InvWindow, InvBase, InvFakeAges, InvNoise, Resident, Live, ReadTags;
  }

  lemma FetchesAre(s: State, tags: seq<Tag>, responses: seq<Cell>)
    requires |responses| == |tags| && forall i :: 0 <= i < |tags| ==> tags[i] in s.store && responses[i] == s.store[tags[i]]
    ensures Fetches(s, tags, responses)
  {
  }

  lemma FakeNames(p: Params, s: State)
    requires Inv(p, s)
    ensures forall k :: k in s.fakes ==> k.Fake?
  {
    hide InvKeys, InvCache, InvVersions, InvRecency, InvStored, InvStore, InvWritten, InvRound;
    hide InvPending, InvTracker, InvAsked, InvCounts, InvWindow, InvBase, InvFakeAges, InvNoise, Resident, Live;
  }

  // The ciphertexts a batch writes and the deletions meanwhile have no part in what it reads or where it writes.
  lemma ChoicesApart(s: State, ch: Choices, cells: seq<Cell>, pops: nat)
    ensures var dh := ch.(cells := cells, pops := pops);
            && Reads(s, dh) == Reads(s, ch) && Through(s, dh) == Through(s, ch) && Evictions(s, dh) == Evictions(s, ch)
            && FreqsAfter(s, dh) == FreqsAfter(s, ch) && FakesAfter(s, dh) == FakesAfter(s, ch)
            && WriteTags(s, dh) == WriteTags(s, ch) && ReadTags(s, dh) == ReadTags(s, ch)
  {
    hide Kept, Fetched, Stamped;
  }

  // ---- the promises ----

  lemma ClearedRunning(t: Tracker, vals: map<Key, Bytes>, done: set<Key>, u: Tracker, running: set<Key>)
    requires Ready(AnsweredBy(t, vals, done), t.requests, GotBy(t, vals, vals.Keys)) && Cleared(t, vals, done, u)
    ensures Cleared(t, vals, done, u.(running := running))
  {
    hide AnsweredBy, GotBy, Ready, Record;
  }

  // Before the first promise is cleared.
  lemma PromisesStart(p: Params, s: State, vals: map<Key, Bytes>, u: Tracker)
    requires RoundReady(p, s) && u == TryClearAll(s.tracker).(running := u.running)
    ensures Shape(s.tracker) && Ready(AnsweredBy(s.tracker, vals, {}), s.tracker.requests, GotBy(s.tracker, vals, vals.Keys))
    ensures Cleared(s.tracker, vals, {}, u)
  {
    hide AnsweredBy, GotBy, Ready, Record, Shape, TryClearAll, Cleared, Below, Eligible, Distinct;
    EndOfRound(s.tracker, vals);
    ClearedRunning(s.tracker, vals, {}, TryClearAll(s.tracker), u.running);
  }

  // What the promises are cleared with: every value read, those of the real records as they were stored.
  ghost predicate Satisfies(s: State, ch: Choices, vals: map<Key, Bytes>) {
    vals.Keys == Fetched(s, Reads(s, ch)).Keys + Elems(ch.fakeKeys) && Extends(Fetched(s, Reads(s, ch)), vals)
  }

  lemma SatisfiesAll(p: Params, s: State, ch: Choices, vals: map<Key, Bytes>)
    requires Ripe(p, s, ch) && Satisfies(s, ch, vals)
    ensures vals.Keys == Elems(Reads(s, ch)) + Elems(ch.fakeKeys)
  {
    hide Kept, Fetched, Through, Distinct;
  }

  lemma TrackerFacts(p: Params, s: State, ch: Choices)
    requires Inv(p, s) && Ripe(p, s, ch)
    ensures s.tracker.waiting.Keys <= Fetched(s, Reads(s, ch)).Keys
    ensures s.tracker.got.Keys !! Fetched(s, Reads(s, ch)).Keys
    ensures Ready(s.tracker.requests.Keys, s.tracker.requests, s.tracker.got + Fetched(s, Reads(s, ch)))
  {
    hide InvKeys, InvCache, InvVersions, InvRecency, InvStored, InvStore, InvWritten, InvFakes, InvRound;
    hide InvPending, InvCounts, InvWindow, InvBase, InvFakeAges, InvNoise, Resident, Live, Fetched, Ready, Kept, Through, Distinct, InvAsked;
    AllReady(s.tracker, Resident(s.freqs, s.cache), s.hist, s.asked, s.nextId, Fetched(s, Reads(s, ch)));
  }

  // After the last one.
  lemma PromisesDone(p: Params, s: State, ch: Choices, vals: map<Key, Bytes>, u: Tracker)
    requires Inv(p, s) && RoundReady(p, s) && Ripe(p, s, ch) && Satisfies(s, ch, vals) && u.running == {}
    requires Ready(AnsweredBy(s.tracker, vals, vals.Keys), s.tracker.requests, GotBy(s.tracker, vals, vals.Keys))
    requires Cleared(s.tracker, vals, vals.Keys, u)
    ensures Ready(s.tracker.requests.Keys, s.tracker.requests, s.tracker.got + Fetched(s, Reads(s, ch)))
    ensures u == AnswerAll(s.tracker, Fetched(s, Reads(s, ch)))
  {
    hide Inv, Ripe, AnsweredBy, GotBy, Ready, AnswerAll, Shape, TryClearAll, Cleared, Below, Eligible, Distinct, Fetched;
    TrackerFacts(p, s, ch);
    AllCleared(s.tracker, vals, Fetched(s, Reads(s, ch)), vals.Keys, u);
  }

  // ---- the end ----

  lemma RewrittenIs(s: State, ch: Choices, keys: seq<Tag>, values: seq<Cell>)
    requires |Reads(s, ch)| <= |Through(s, ch)| && Rewritten(s, ch, |Reads(s, ch)|, keys, values)
    ensures keys + TagsOf(FakesAfter(s, ch), ch.fakeKeys) == WriteTags(s, ch)
    ensures |Evictions(s, ch)| == |Reads(s, ch)| == |values| == |keys|
    ensures forall i :: 0 <= i < |values| ==> Wraps(values[i], Evictions(s, ch)[i].value)
  {
    hide Through, Wraps, Stamped;
    assert keys == TagsOf(StampedReads(s, ch), KeysIn(Evictions(s, ch)));
  }

  ghost predicate CellsFit(p: Params, s: State, ch: Choices, cells: seq<Cell>) {
    && |cells| == p.B && |Evictions(s, ch)| == |Reads(s, ch)| <= p.B
    && (forall i :: 0 <= i < |Reads(s, ch)| ==> Wraps(cells[i], Evictions(s, ch)[i].value))
    && (forall i :: |Reads(s, ch)| <= i < p.B ==> WrapsNoise(cells[i], p.objectSize))
  }

  lemma BatchIsOk(p: Params, s: State, ch: Choices, cells: seq<Cell>, pops: nat)
    requires Selected(p, s, ch) && CellsFit(p, s, ch, cells) && pops <= |s.queue| && |Through(s, ch)| >= |Reads(s, ch)|
    requires Ready(s.tracker.requests.Keys, s.tracker.requests, s.tracker.got + Fetched(s, Reads(s, ch)))
    ensures BatchOk(p, s, ch.(cells := cells, pops := pops))
  {
    ChoicesApart(s, ch, cells, pops);
    hide Through, Evictions, Fetched, Ready, Wraps, WrapsNoise, IsScan, Eligible;
  }

  lemma FakeReads(p: Params, s: State, ch: Choices)
    requires Ripe(p, s, ch) && forall k :: k in s.fakes ==> k.Fake?
    ensures |ReadTags(s, ch)| == |Reads(s, ch)| + |ch.fakeKeys| == p.B
    ensures FakeSlots(ReadTags(s, ch), |Reads(s, ch)|, ch.fakeKeys, FakesAfter(s, ch), Fetched(s, Reads(s, ch)))
  {
    hide Kept, Fetched, Through, Distinct;
    forall j | 0 <= j < |ch.fakeKeys| ensures ch.fakeKeys[j] in s.fakes && ch.fakeKeys[j] !in Elems(Reads(s, ch)) {
      assert ch.fakeKeys[j] in Elems(ch.fakeKeys);
    }
  }

  lemma CellsAreFit(p: Params, s: State, ch: Choices, values: seq<Cell>, cells: seq<Cell>)
    requires |Reads(s, ch)| + |ch.fakeKeys| == p.B == |cells| && |Evictions(s, ch)| == |Reads(s, ch)| == |values|
    requires forall i :: 0 <= i < |values| ==> Wraps(values[i], Evictions(s, ch)[i].value)
    requires NoiseAfter(values, cells, p.objectSize)
    ensures CellsFit(p, s, ch, cells)
  {
    hide Evictions, Wraps, WrapsNoise;
    assert forall i :: 0 <= i < |values| ==> cells[i] == values[i];
  }

  // ---- a batch can always run ----

  lemma {:induction false} ScanExists(m: map<Key, int>, pool: set<Key>, n: nat) returns (picked: seq<Key>)
    requires pool <= m.Keys && n <= |pool|
    ensures IsScan(m, pool, picked) && |picked| == n
  {
    if n == 0 {
      picked := [];
      assert Elems(picked) == {};
    } else {
      var front := ScanExists(m, pool, n - 1);
      DistinctSize(front);
      var rest := pool - Elems(front);
      assert pool == Elems(front) + rest;
      var entries := set k | k in rest :: Entry(k, FreqOf(m, k));
      var some :| some in rest;
      assert Entry(some, FreqOf(m, some)) in entries;
      var e := FirstExists(entries);
      assert forall o :: o in rest ==> Entry(o, FreqOf(m, o)) in entries;
      ScanMore(m, pool, front, e.key);
      picked := front + [e.key];
    }
  }

  lemma ScanMore(m: map<Key, int>, pool: set<Key>, picked: seq<Key>, key: Key)
    requires IsScan(m, pool, picked) && key in pool && key !in Elems(picked)
    requires forall o :: o in pool - Elems(picked) && o != key ==> FreqCmp(Entry(key, FreqOf(m, key)), Entry(o, FreqOf(m, o)))
    ensures IsScan(m, pool, picked + [key])
  {
    hide FreqCmp;
    ElemsConcat(picked, [key]);
    assert Elems([key]) == {key};
    DistinctConcat(picked, [key]);
    assert forall i :: 0 <= i < |picked| ==> picked[i] in Elems(picked);
  }

  function SomeCells(ev: List, fakes: nat, size: nat): (cells: seq<Cell>)
    ensures |cells| == |ev| + fakes
  {
    seq(|ev|, i requires 0 <= i < |ev| => Seal(ev[i].value)) + seq(fakes, _ => Seal(Noise(size)))
  }

  lemma SomeCellsFit(p: Params, s: State, ch: Choices)
    requires |Reads(s, ch)| + p.F == p.B && |Reads(s, ch)| <= |Through(s, ch)|
    ensures CellsFit(p, s, ch, SomeCells(Evictions(s, ch), p.F, p.objectSize))
  {
    hide Through, Wraps, WrapsNoise, Seal, Noise, Alphanumeric;
    NoiseWraps(Seal(Noise(p.objectSize)), Noise(p.objectSize));
  }

  // From every state of the invariant, whatever is deleted meanwhile.
  lemma BatchExists(p: Params, s: State, pops: nat) returns (ch: Choices)
    requires Inv(p, s) && Sane(p) && pops <= |s.queue|
    ensures BatchOk(p, s, ch) && ch.pops == pops
  {
    hide Inv, Eligible, IsScan, Ripe, Through, CellsFit, Ready, BatchOk, Reads, Fetched, Evictions;
    RoundIsReady(p, s);
    RoundOps(p, s);
    FakeRoomLeft(p, s);
    var chosen := ScanExists(s.freqs, Eligible(s), p.B - p.F - |s.ops|);
    var fakeKeys := ScanExists(s.fakes, s.fakes.Keys, p.F);
    var picked := Choices(chosen, fakeKeys, [], 0);
    SelectedIs(p, s, chosen, fakeKeys);
    SelectedRipe(p, s, picked);
    var cells := SomeCells(Evictions(s, picked), p.F, p.objectSize);
    SomeCellsFit(p, s, picked);
    TrackerFacts(p, s, picked);
    BatchIsOk(p, s, picked, cells, pops);
    ch := picked.(cells := cells, pops := pops);
  }

  lemma FakeRoomLeft(p: Params, s: State)
    requires RoundReady(p, s) && Sane(p)
    ensures p.F <= |s.fakes.Keys|
  {
    hide Shape, TryClearAll, Below, Distinct, Eligible, Resident;
    assert |s.fakes| == |s.fakes.Keys|;
  }
}
