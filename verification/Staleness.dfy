// How long a record can go unread.
module Staleness {
  import opened BatchKeeps
  import opened BatchProofs
  import opened Caches
  import opened Frequencies
  import opened GetProofs
  import opened Invariant
  import opened Keys
  import opened Protocol
  import opened PutProofs
  import opened Running
  import opened Runs
  import opened Seqs
  import opened Starting
  import opened Values

  // ---- fake records ----

  function CeilDiv(a: nat, b: nat): nat
    requires b > 0
  {
    (a + b - 1) / b
  }

  // The least number of b's that makes a.
  lemma CeilDivCovers(a: nat, b: nat)
    requires b > 0
    ensures a <= CeilDiv(a, b) * b && (a > 0 ==> CeilDiv(a, b) > 0 && (CeilDiv(a, b) - 1) * b < a)
  {
    var q := (a + b - 1) / b;
    assert a + b - 1 == q * b + (a + b - 1) % b;
    assert (q - 1) * b == q * b - b;
  }

  // At any time every fake record was read within the last ceil(D / F) batches, or has not lived that long.
  lemma FakesAreFresh(p: Params, s: State, k: Key)
    requires Inv(p, s) && p.F > 0 && k in s.fakes
    ensures s.fakes[k] >= s.clock - CeilDiv(p.D, p.F) + 1
  {
    hide InvKeys, InvCache, InvVersions, InvRecency, InvStored, InvStore, InvWritten, InvFakes, InvRound;
    hide InvPending, InvTracker, InvAsked, InvCounts, InvWindow, InvBase, Resident, Live, CeilDiv;
    var j := CeilDiv(p.D, p.F);
    CeilDivCovers(p.D, p.F);
    assert |Stale(s.fakes, s.clock - j)| <= AgeLimit(p, j) == 0;
    assert k !in Stale(s.fakes, s.clock - j);
  }

  // Two consecutive reads of a fake record are at most ceil(D / F) batches apart.
  lemma FakeReadGap(p: Params, s: State, ch: Choices, k: Key)
    requires Inv(p, s) && p.F > 0 && BatchOk(p, s, ch) && k in ch.fakeKeys
    ensures k in s.fakes && Batch(p, s, ch).clock - s.fakes[k] <= CeilDiv(p.D, p.F)
    ensures k in Batch(p, s, ch).fakes && Batch(p, s, ch).fakes[k] == Batch(p, s, ch).clock
  {
    hide Inv, CeilDiv, Through, WriteTags, ReadTags, Fetched, PutAll, DropStamps, Without, Wraps, WrapsNoise, Record, FreqsAfter, Ready;
    assert k in Elems(ch.fakeKeys) && k in s.fakes;
    FakesAreFresh(p, s, k);
  }

  // The number of batches among the first m steps.
  function Batches(steps: seq<Step>, m: nat): nat
    requires m <= |steps|
  {
    if m == 0 then 0 else Batches(steps, m - 1) + (if steps[m - 1].BatchStep? then 1 else 0)
  }

  lemma FakeStays(p: Params, s: State, step: Step, k: Key)
    requires Inv(p, s) && Enabled(p, s, step) && k in s.fakes && (step.BatchStep? ==> k !in step.ch.fakeKeys)
    ensures k in Next(p, s, step).fakes && Next(p, s, step).fakes[k] == s.fakes[k]
    ensures Next(p, s, step).clock == s.clock + (if step.BatchStep? then 1 else 0)
  {
    hide Inv, BatchOk, Get, Put, Batch, SplitOf, PutOk;
    match step
    case GetStep(item, lo, hi) =>
      TouchKeeps(p, s, item);
      GetFields(s, item, lo, hi);
    case PutStep(key, v) => PutFields(s, key, v);
    case ClearStep =>
    case BatchStep(ch) => BatchFakes(p, s, ch, k);
  }

  lemma BatchFakes(p: Params, s: State, ch: Choices, k: Key)
    requires BatchOk(p, s, ch) && k in s.fakes && k !in ch.fakeKeys
    ensures k in Batch(p, s, ch).fakes && Batch(p, s, ch).fakes[k] == s.fakes[k] && Batch(p, s, ch).clock == s.clock + 1
  {
    BatchReadyOnly(p, s, ch);
    hide BatchOk, FreqsAfter, Through, WriteTags, ReadTags, DropStamps, Fetched, Without, PutAll, Ready;
  }

  ghost predicate ReadsFakeAt(steps: seq<Step>, i: nat, k: Key)
    requires i < |steps|
  {
    steps[i].BatchStep? && k in steps[i].ch.fakeKeys
  }

  lemma {:induction false} FakeUnread(p: Params, ss: seq<State>, steps: seq<Step>, k: Key, m: nat)
    requires Run(p, ss, steps) && Inv(p, ss[0]) && Sane(p) && m <= |steps| && k in ss[0].fakes
    requires forall i :: 0 <= i < m ==> !ReadsFakeAt(steps, i, k)
    ensures k in ss[m].fakes && ss[m].fakes[k] == ss[0].fakes[k] && ss[m].clock == ss[0].clock + Batches(steps, m)
  {
    hide Inv, Next, Enabled;
    if m > 0 {
      FakeUnread(p, ss, steps, k, m - 1);
      RunKeeps(p, ss, steps, m - 1);
      RunAt(p, ss, steps, m - 1);
      assert !ReadsFakeAt(steps, m - 1, k);
      FakeStays(p, ss[m - 1], steps[m - 1], k);
    }
  }

  // A fake record goes unread for fewer than ceil(D / F) batches.
  lemma UnreadIsShort(p: Params, ss: seq<State>, steps: seq<Step>, k: Key, m: nat)
    requires Run(p, ss, steps) && Inv(p, ss[0]) && Sane(p) && m <= |steps| && k in ss[0].fakes
    requires forall i :: 0 <= i < m ==> !ReadsFakeAt(steps, i, k)
    ensures Batches(steps, m) < CeilDiv(p.D, p.F)
  {
    hide Inv, Run, CeilDiv, Batches, ReadsFakeAt;
    RunLength(p, ss, steps);
    FakeUnread(p, ss, steps, k, m);
    RunKeeps(p, ss, steps, m);
    FakesAreFresh(p, ss[m], k);
    FakeVersion(p, ss[0], k);
  }

  lemma FakeVersion(p: Params, s: State, k: Key)
    requires Inv(p, s) && k in s.fakes
    ensures s.fakes[k] <= s.clock
  {
    hide InvKeys, InvCache, InvRecency, InvStored, InvStore, InvWritten, InvFakes, InvRound;
    hide InvPending, InvTracker, InvAsked, InvCounts, InvWindow, InvBase, InvFakeAges, InvNoise, Resident, Live;
  }

  lemma {:induction false} FirstFakeRead(steps: seq<Step>, k: Key, m: nat) returns (i: nat)
    requires m <= |steps|
    ensures i <= m && (forall q :: 0 <= q < i ==> !ReadsFakeAt(steps, q, k)) && (i < m ==> ReadsFakeAt(steps, i, k))
  {
    if m == 0 {
      i := 0;
    } else {
      i := FirstFakeRead(steps, k, m - 1);
      if i == m - 1 && !ReadsFakeAt(steps, m - 1, k) {
        i := m;
      }
    }
  }

  // Any stretch of a run with ceil(D / F) batches reads every fake record in one of them.
  lemma FakeReadInTime(p: Params, ss: seq<State>, steps: seq<Step>, k: Key) returns (i: nat)
    requires Run(p, ss, steps) && Inv(p, ss[0]) && Sane(p) && k in ss[0].fakes
    requires Batches(steps, |steps|) >= CeilDiv(p.D, p.F)
    ensures i < |steps| && ReadsFakeAt(steps, i, k) && Batches(steps, i) < CeilDiv(p.D, p.F)
  {
    hide Inv, Run, CeilDiv, Batches, ReadsFakeAt, Sane;
    i := FirstFakeRead(steps, k, |steps|);
    UnreadIsShort(p, ss, steps, k, i);
  }

  // ---- real records ----

  // The records before k in (frequency, key) order.
  function Ahead(freqs: map<Key, int>, k: Key): set<Key>
    requires k in freqs
  {
    set q | q in freqs && FreqCmp(Entry(q, freqs[q]), Entry(k, freqs[k]))
  }

  // k waits in the store.
  ghost predicate Waits(s: State, k: Key) {
    k in Resident(s.freqs, s.cache)
  }

  // It was last touched before the latest batch.
  ghost predicate Aged(s: State, k: Key) {
    Waits(s, k) && s.freqs[k] < s.clock
  }

  function Rank(s: State, k: Key): nat
    requires k in s.freqs
  {
    |Ahead(s.freqs, k)|
  }

  lemma AheadAfterBatch(freqs: map<Key, int>, taken: set<Key>, drop: set<Key>, clock: int, after: map<Key, int>,
                        pool: set<Key>, chosen: seq<Key>, k: Key)
    requires k in freqs && k !in taken && k !in drop && InvVersions(freqs, clock)
    requires Restamped(freqs, taken, drop, clock + 1, after) && IsScan(freqs, pool, chosen)
    requires k in pool && Elems(chosen) <= taken
    ensures k in after && after[k] == freqs[k]
    ensures Ahead(after, k) <= Ahead(freqs, k) - Elems(chosen) && Elems(chosen) <= Ahead(freqs, k)
  {
    forall c | c in Elems(chosen) ensures c in Ahead(freqs, k) {
      assert FreqCmp(Entry(c, FreqOf(freqs, c)), Entry(k, FreqOf(freqs, k)));
    }
    forall q | q in Ahead(after, k) ensures q in Ahead(freqs, k) && q !in taken {
      assert after[k] == freqs[k] <= clock;
    }
  }

  lemma BatchWaitParts(p: Params, s: State, ch: Choices, k: Key)
    requires Inv(p, s) && BatchOk(p, s, ch) && Waits(s, k) && k !in Reads(s, ch)
    ensures Restamped(s.freqs, Elems(Reads(s, ch)), Elems(s.pending), s.clock + 1, FreqsAfter(s, ch))
    ensures Elems(ch.chosen) <= Elems(Reads(s, ch)) && k in Eligible(s) && k !in Elems(s.pending)
    ensures InvVersions(s.freqs, s.clock) && IsScan(s.freqs, Eligible(s), ch.chosen)
    ensures |Reads(s, ch)| <= |Through(s, ch)| && k in Resident(FreqsAfter(s, ch), Left(s, ch))
  {
    hide InvCache, InvVersions, InvRecency, InvStored, InvStore, InvWritten, InvFakes, InvRound, Indexed;
    hide InvPending, InvTracker, InvAsked, InvCounts, InvWindow, InvBase, InvFakeAges, InvNoise, Live;
    hide Ripe, Through, Fetched, DropStamps, FreqsAfter, Ready, Wraps, WrapsNoise, IsScan;
    FactsOfBatch(p, s, ch);
    KeysPart(p, s, ch);
    CachePart(p, s, ch);
    ElemsConcat(s.ops, ch.chosen);
    Dropped(p, s, ch);
  }

  // A batch that passes a waiting record by brings it forward by at least as many places as it padded with.
  lemma BatchAdvances(p: Params, s: State, ch: Choices, k: Key)
    requires Inv(p, s) && BatchOk(p, s, ch) && Waits(s, k) && k !in Reads(s, ch)
    ensures Aged(Batch(p, s, ch), k) && k in s.freqs
    ensures Rank(Batch(p, s, ch), k) + |ch.chosen| <= Rank(s, k)
  {
    hide Inv, BatchOk, Batch, Through, Reads, FreqsAfter, Ahead, Eligible, IsScan, InvVersions, Restamped, Left, Distinct;
    BatchWaitParts(p, s, ch, k);
    BatchFreqs(p, s, ch);
    ScanDistinct(s.freqs, Eligible(s), ch.chosen);
    DistinctSize(ch.chosen);
    AheadAfterBatch(s.freqs, Elems(Reads(s, ch)), Elems(s.pending), s.clock, FreqsAfter(s, ch), Eligible(s), ch.chosen, k);
    SubsetSize(Ahead(FreqsAfter(s, ch), k), Ahead(s.freqs, k) - Elems(ch.chosen));
    VersionBound(s.freqs, s.clock, k);
  }

  lemma VersionBound(freqs: map<Key, int>, clock: int, k: Key)
    requires InvVersions(freqs, clock) && k in freqs
    ensures freqs[k] <= clock
  {
  }

  lemma ScanDistinct(m: map<Key, int>, pool: set<Key>, picked: seq<Key>)
    requires IsScan(m, pool, picked)
    ensures Distinct(picked)
  {
  }

  lemma BatchFreqs(p: Params, s: State, ch: Choices)
    requires BatchOk(p, s, ch) && |Reads(s, ch)| <= |Through(s, ch)|
    ensures var t := Batch(p, s, ch);
            t.freqs == FreqsAfter(s, ch) && t.cache == Left(s, ch) && t.clock == s.clock + 1
  {
    BatchReadyOnly(p, s, ch);
    hide BatchOk, FreqsAfter, FakesAfter, Through, WriteTags, ReadTags, DropStamps, Fetched, Without, PutAll, Ready;
  }

  // The new record goes in front of w: it has the number of the latest batch, and so has w.
  ghost predicate PassedBy(s: State, k: Key, w: Key)
    requires w in s.freqs
  {
    s.freqs[w] == s.clock && KeyLess(k, w)
  }

  // A cached victim that is dropped from in front of w.
  ghost predicate DroppedAhead(s: State, victim: Key, w: Key)
    requires w in s.freqs
  {
    victim in KeySet(s.cache) && victim in Ahead(s.freqs, w)
  }

  // What a PUT does to the rank of a record that waits, exactly.
  lemma PutRank(p: Params, s: State, k: Key, v: Bytes, w: Key)
    requires Inv(p, s) && PutOk(s, k, v) && Waits(s, w)
    ensures Waits(Put(s, k, v), w) && w in s.freqs && Put(s, k, v).freqs[w] == s.freqs[w] && Put(s, k, v).clock == s.clock
    ensures Rank(Put(s, k, v), w)
         == Rank(s, w) + (if PassedBy(s, k, w) then 1 else 0) - (if DroppedAhead(s, Oldest(s.stamps, k.item), w) then 1 else 0)
  {
    hide Inv, Put, Ahead, StampsOf, NulFree, KeySet, InvVersions;
    var victim := Oldest(s.stamps, k.item);
    PutShape(p, s, k, v, w);
    KnownKeys(p, s);
    AheadMore(s.freqs, if victim in KeySet(s.cache) then {victim} else {}, s.clock, k, w);
    OneGone(Ahead(s.freqs, w), victim);
    assert Ahead(s.freqs, w) - {} == Ahead(s.freqs, w);
  }

  lemma AheadMore(freqs: map<Key, int>, gone: set<Key>, clock: int, k: Key, w: Key)
    requires w in freqs && w !in gone && k !in freqs && InvVersions(freqs, clock)
    ensures var after := (freqs - gone)[k := clock];
            w in after && |Ahead(after, w)| == |Ahead(freqs, w) - gone| + (if freqs[w] == clock && KeyLess(k, w) then 1 else 0)
  {
    var after := (freqs - gone)[k := clock];
    AheadSet(freqs, gone, clock, k, w);
    hide Ahead, KeyLess, InvVersions;
    NotAhead(freqs, k, w);
    var ahead := Ahead(freqs, w) - gone;
    assert |ahead + {k}| == |ahead| + 1;
  }

  lemma NotAhead(freqs: map<Key, int>, k: Key, w: Key)
    requires w in freqs && k !in freqs
    ensures k !in Ahead(freqs, w)
  {
  }

  lemma AheadSet(freqs: map<Key, int>, gone: set<Key>, clock: int, k: Key, w: Key)
    requires w in freqs && w !in gone && k !in freqs && InvVersions(freqs, clock)
    ensures var after := (freqs - gone)[k := clock];
            w in after && Ahead(after, w) == (Ahead(freqs, w) - gone) + (if freqs[w] == clock && KeyLess(k, w) then {k} else {})
  {
    hide KeyLess;
  }

  lemma OneGone(s: set<Key>, v: Key)
    ensures |s - {v}| == |s| - (if v in s then 1 else 0)
  {
    if v !in s {
      assert s - {v} == s;
    }
  }

  // A PUT raises the rank of a waiting record exactly when the record has the number of the latest batch, the new key is
  // before it in key order, and no cached victim in front of it is dropped.
  lemma PutPassesIff(p: Params, s: State, k: Key, v: Bytes, w: Key)
    requires Inv(p, s) && PutOk(s, k, v) && Waits(s, w)
    ensures Waits(Put(s, k, v), w) && w in s.freqs
    ensures Rank(Put(s, k, v), w) > Rank(s, w)
       <==> s.freqs[w] == s.clock && KeyLess(k, w) && !DroppedAhead(s, Oldest(s.stamps, k.item), w)
  {
    hide Inv, Put, Ahead, StampsOf, NulFree, KeySet, Waits;
    PutRank(p, s, k, v, w);
  }

  // In the first round, with a@0 and b@0 in the store and c@0 cached, a PUT of a@1 goes in front of b@0.
  lemma FirstRoundPut() returns (p: Params, s: State)
    ensures Sane(p) && IsInitial(p, s) && Enabled(p, s, PutStep(Bucket("a", 1), [1]))
    ensures Waits(s, Bucket("b", 0)) && Bucket("b", 0) in Put(s, Bucket("a", 1), [1]).freqs
    ensures Rank(Put(s, Bucket("a", 1), [1]), Bucket("b", 0)) == Rank(s, Bucket("b", 0)) + 1
  {
    hide Inv, IsInitial, Put, Ahead, StampsOf, Drawn, Zeros, Indexed;
    p := Params(2, 1, 1, 1, 3, 1, 1, map[], 0);
    var a, b, c := Bucket("a", 0), Bucket("b", 0), Bucket("c", 0);
    var keys, values: seq<Bytes> := [a, b, c], [[1], [1], [1]];
    assert Distinct(keys) && InputOk(p, keys, values, [2], ["fake"]);
    s := StartExists(p, keys, values, [2], ["fake"]);
    InitialInv(p, s);
    InitialParts(p, s);
    FirstRoundFacts(p, s, values);
    PutRank(p, s, Bucket("a", 1), [1], b);
  }

  lemma InitialParts(p: Params, s: State)
    requires IsInitial(p, s)
    ensures Indexed(s.freqs.Keys, s.stamps) && s.slots == 0 && s.clock == 0
  {
  }

  lemma FirstRoundFacts(p: Params, s: State, values: seq<Bytes>)
    requires Indexed(s.freqs.Keys, s.stamps) && s.slots == 0 && s.clock == 0 && p.R == 1 && |values| == 3
    requires var keys := [Bucket("a", 0), Bucket("b", 0), Bucket("c", 0)];
             s.freqs == Zeros(Elems(keys)) && s.cache == Drawn(keys, values, [2]) && s.hist.Keys == Elems(keys)
    ensures PutOk(s, Bucket("a", 1), [1]) && Enabled(p, s, PutStep(Bucket("a", 1), [1])) && Waits(s, Bucket("b", 0))
    ensures PassedBy(s, Bucket("a", 1), Bucket("b", 0)) && Oldest(s.stamps, "a") !in KeySet(s.cache)
  {
    hide KeyLess, Drawn, KeySet, Waits, Oldest;
    var keys := [Bucket("a", 0), Bucket("b", 0), Bucket("c", 0)];
    assert keys[0] in Elems(keys) && keys[1] in Elems(keys);
    assert 0 in StampsOf(s.stamps, "a");
    VictimShape(s.stamps, "a");
    FirstRoundCache(s, keys, values);
    ItemsDecide();
  }

  lemma FirstRoundCache(s: State, keys: seq<Key>, values: seq<Bytes>)
    requires keys == [Bucket("a", 0), Bucket("b", 0), Bucket("c", 0)] && |values| == 3
    requires s.freqs == Zeros(Elems(keys)) && s.cache == Drawn(keys, values, [2])
    ensures Waits(s, Bucket("b", 0)) && KeySet(s.cache) == {Bucket("c", 0)}
  {
    assert s.cache[0].key == keys[2] && KeySet(s.cache) == {keys[2]};
    assert keys[1] in Elems(keys);
  }

  lemma ItemsDecide()
    ensures KeyLess(Bucket("a", 1), Bucket("b", 0))
  {
    assert KeyText(Bucket("a", 1))[0] == 'a' && KeyText(Bucket("b", 0))[0] == 'b';
  }

  // So it puts nothing in front of a record that waited through a batch.
  lemma PutDoesNotPass(p: Params, s: State, k: Key, v: Bytes, w: Key)
    requires Inv(p, s) && PutOk(s, k, v) && Aged(s, w)
    ensures Aged(Put(s, k, v), w) && w in s.freqs && Rank(Put(s, k, v), w) <= Rank(s, w)
  {
    hide Inv, Put, Ahead, StampsOf, NulFree, KeySet;
    PutRank(p, s, k, v, w);
  }

  lemma PutShape(p: Params, s: State, k: Key, v: Bytes, w: Key)
    requires Inv(p, s) && PutOk(s, k, v) && Waits(s, w)
    ensures var t, victim := Put(s, k, v), Oldest(s.stamps, k.item);
            && t.clock == s.clock && w in s.freqs && w != k && k !in s.freqs && InvVersions(s.freqs, s.clock)
            && w !in (if victim in KeySet(s.cache) then {victim} else {})
            && t.freqs == (s.freqs - (if victim in KeySet(s.cache) then {victim} else {}))[k := s.clock]
            && w in Resident(t.freqs, t.cache)
  {
    hide Inv, Ahead;
    var victim := Oldest(s.stamps, k.item);
    VictimIsCachedOrResident(p, s, k.item);
    VictimShape(s.stamps, k.item);
    KnownKeys(p, s);
    CacheOfPut(p, s, k, v, victim);
    assert s.freqs - {} == s.freqs;
    hide Oldest, PlaceOf, Requested, DropStamp, AddStamp, Erase, StampsOf, KeySet, InvVersions;
  }

  lemma KnownKeys(p: Params, s: State)
    requires Inv(p, s)
    ensures s.freqs.Keys <= s.hist.Keys && (forall q :: q in s.hist ==> q.Bucket?) && DistinctKeys(s.cache) && KeySet(s.cache) <= s.freqs.Keys
    ensures InvVersions(s.freqs, s.clock)
  {
    hide InvVersions, InvRecency, InvStored, InvStore, InvWritten, InvFakes, InvRound, Indexed;
    hide InvPending, InvTracker, InvAsked, InvCounts, InvWindow, InvBase, InvFakeAges, InvNoise, Live;
  }

  lemma CacheOfPut(p: Params, s: State, k: Key, v: Bytes, victim: Key)
    requires DistinctKeys(s.cache) && k.Bucket? && victim.Bucket?
    ensures KeySet(Insert(RemoveVictim(s, victim), k, v).cache) <= KeySet(s.cache) + {k}
  {
    hide DropStamp, Requested, PlaceOf, ListMap, Erase, AddStamp;
    EraseKeys(s.cache, victim);
    var c := RemoveVictim(s, victim).cache;
    EraseKeys(c, k);
    PushKeys(Erase(c, k), Pair(k, v));
  }

  lemma OtherSteps(p: Params, s: State, step: Step, w: Key)
    requires Inv(p, s) && Enabled(p, s, step) && !step.BatchStep? && Aged(s, w)
    ensures Aged(Next(p, s, step), w) && w in s.freqs && Rank(Next(p, s, step), w) <= Rank(s, w)
  {
    hide Inv, PutOk, Get, Put, SplitOf, Ahead;
    match step
    case GetStep(item, lo, hi) =>
      TouchKeeps(p, s, item);
      GetFields(s, item, lo, hi);
    case PutStep(k, v) => PutDoesNotPass(p, s, k, v, w);
    case ClearStep =>
  }

  ghost predicate ReadsAt(ss: seq<State>, steps: seq<Step>, i: nat, k: Key)
    requires i < |steps| && |ss| == |steps| + 1
  {
    steps[i].BatchStep? && k in Reads(ss[i], steps[i].ch)
  }

  lemma RankStep(p: Params, s: State, step: Step, k: Key, n: nat)
    requires Inv(p, s) && Enabled(p, s, step) && Waits(s, k) && (Aged(s, k) || step.BatchStep?)
    requires step.BatchStep? ==> |step.ch.chosen| >= n && k !in Reads(s, step.ch)
    ensures Aged(Next(p, s, step), k) && k in s.freqs && k in Next(p, s, step).freqs
    ensures Rank(Next(p, s, step), k) + (if step.BatchStep? then n else 0) <= Rank(s, k)
  {
    hide Inv, Next, Enabled, BatchOk, PutOk, SplitOf, Rank, Reads;
    if step.BatchStep? {
      NextIsBatch(p, s, step);
      BatchAdvances(p, s, step.ch, k);
    } else {
      OtherSteps(p, s, step, k);
    }
  }

  // While a record waits its rank never rises, and each batch lowers it by the number of padding reads.
  lemma {:induction false} RankFalls(p: Params, ss: seq<State>, steps: seq<Step>, k: Key, n: nat, m: nat)
    requires Run(p, ss, steps) && Inv(p, ss[0]) && Sane(p) && m <= |steps|
    requires Waits(ss[0], k) && (Aged(ss[0], k) || (steps != [] && steps[0].BatchStep?))
    requires forall i :: 0 <= i < m && steps[i].BatchStep? ==> |steps[i].ch.chosen| >= n
    requires forall i :: 0 <= i < m ==> !ReadsAt(ss, steps, i, k)
    ensures Waits(ss[m], k) && (m > 0 ==> Aged(ss[m], k)) && k in ss[0].freqs && k in ss[m].freqs
    ensures n * Batches(steps, m) + Rank(ss[m], k) <= Rank(ss[0], k)
  {
    hide Inv, Next, Enabled, Rank, Reads, Resident;
    if m > 0 {
      RankFalls(p, ss, steps, k, n, m - 1);
      RunKeeps(p, ss, steps, m - 1);
      assert !ReadsAt(ss, steps, m - 1, k);
      RunAt(p, ss, steps, m - 1);
      RankStep(p, ss[m - 1], steps[m - 1], k, n);
      OneMore(n, Batches(steps, m - 1));
    } else {
      WaitsIsLive(ss[0], k);
    }
  }

  lemma OneMore(n: nat, b: nat)
    ensures n * (b + 1) == n * b + n
  {
  }

  lemma NextIsBatch(p: Params, s: State, step: Step)
    requires step.BatchStep? && Enabled(p, s, step)
    ensures BatchOk(p, s, step.ch) && Next(p, s, step) == Batch(p, s, step.ch)
  {
  }

  lemma {:induction false} FirstRead(ss: seq<State>, steps: seq<Step>, k: Key, m: nat) returns (i: nat)
    requires |ss| == |steps| + 1 && m <= |steps|
    ensures i <= m && (forall q :: 0 <= q < i ==> !ReadsAt(ss, steps, q, k)) && (i < m ==> ReadsAt(ss, steps, i, k))
  {
    if m == 0 {
      i := 0;
    } else {
      i := FirstRead(ss, steps, k, m - 1);
      if i == m - 1 && !ReadsAt(ss, steps, m - 1, k) {
        i := m;
      }
    }
  }

  lemma Quotient(n: nat, b: nat, r: nat)
    requires n > 0 && n * b <= r
    ensures b <= r / n
  {
    if b > r / n {
      Scaled(n, r / n + 1, b);
    }
  }

  lemma Scaled(n: nat, a: nat, b: nat)
    requires a <= b
    ensures n * a <= n * b
  {
  }

  // A store-resident record with r records before it at the start of a batch is read within floor(r / n) + 1 batches,
  // when every batch pads with at least n records, whatever PUTs, GETs and deletions come between.
  lemma ReadInTime(p: Params, ss: seq<State>, steps: seq<Step>, k: Key, n: nat) returns (i: nat)
    requires Run(p, ss, steps) && Inv(p, ss[0]) && Sane(p) && n > 0
    requires steps != [] && steps[0].BatchStep? && Waits(ss[0], k)
    requires forall j :: 0 <= j < |steps| && steps[j].BatchStep? ==> |steps[j].ch.chosen| >= n
    requires Batches(steps, |steps|) > Rank(ss[0], k) / n
    ensures i < |steps| && ReadsAt(ss, steps, i, k) && Batches(steps, i) <= Rank(ss[0], k) / n
  {
    hide Inv, Run, Rank, Batches, Aged, Waits;
    RunLength(p, ss, steps);
    i := FirstRead(ss, steps, k, |steps|);
    WaitsIsLive(ss[0], k);
    RankFalls(p, ss, steps, k, n, i);
    Quotient(n, Batches(steps, i), Rank(ss[0], k));
  }

  // Every batch pads with at least n records.
  ghost predicate Padded(steps: seq<Step>, n: nat) {
    forall j :: 0 <= j < |steps| && steps[j].BatchStep? ==> |steps[j].ch.chosen| >= n
  }

  // What is left of a batch for padding when a round is as full as it can be.
  function Spare(p: Params): int {
    p.B - p.F - (p.R - 1 + p.M)
  }

  lemma RunsPad(p: Params, ss: seq<State>, steps: seq<Step>, n: nat)
    requires Run(p, ss, steps) && Inv(p, ss[0]) && Sane(p) && n <= Spare(p)
    ensures Padded(steps, n)
  {
    hide Inv, Run, Sane, Enabled, Next, BatchOk;
    forall j | 0 <= j < |steps| && steps[j].BatchStep? ensures |steps[j].ch.chosen| >= n {
      RunLength(p, ss, steps);
      RunAt(p, ss, steps, j);
      RunKeeps(p, ss, steps, j);
      BatchPads(p, ss[j], steps[j]);
    }
  }

  lemma BatchPads(p: Params, s: State, step: Step)
    requires Inv(p, s) && Enabled(p, s, step) && step.BatchStep?
    ensures |step.ch.chosen| >= Spare(p)
  {
    hide InvKeys, InvCache, InvVersions, InvRecency, InvStored, InvStore, InvWritten, InvFakes;
    hide InvPending, InvTracker, InvAsked, InvCounts, InvWindow, InvBase, InvFakeAges, InvNoise, Resident, Live;
    hide IsScan, Eligible, Through, Evictions, Wraps, WrapsNoise, Ready, Fetched;
  }

  lemma WaitsIsLive(s: State, k: Key)
    requires Waits(s, k)
    ensures k in s.freqs
  {
  }
}
