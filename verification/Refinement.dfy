// The proxy refines a plain map from records to values, and range GETs are answered from it.
module Refinement {
  import opened BatchKeeps
  import opened Caches
  import opened Frequencies
  import opened GetProofs
  import opened Invariant
  import opened Keys
  import opened Protocol
  import opened PutProofs
  import opened Running
  import opened Runs
  import opened Seqs
  import opened Splits
  import opened Values

  // ---- the map ----

  lemma LogicalParts(freqs: map<Key, int>, stamps: Stamps, cache: List, store: map<Tag, Cell>, hist: map<Key, Bytes>, s: State)
    requires InvKeys(freqs, stamps, hist) && InvCache(freqs, cache, hist) && InvStored(Resident(freqs, cache), freqs, store, hist)
    requires s.freqs == freqs && s.cache == cache && s.store == store
    ensures Logical(s).Keys == freqs.Keys && forall k :: k in freqs ==> k in hist && Logical(s)[k] == hist[k]
  {
    hide Wraps, NulFree, DecryptNonDeterministic;
    forall k | k in freqs ensures k in hist && Logical(s)[k] == hist[k] {
      CacheLookup(freqs, cache, hist, k);
      if k !in KeySet(cache) {
        DecryptEncrypt(store[TagOf(freqs, k)], hist[k]);
      }
    }
  }

  // Whatever was moved and re-encrypted, a live record has the value it was inserted with.
  lemma LogicalIsHistory(p: Params, s: State)
    requires Inv(p, s)
    ensures Logical(s).Keys == s.freqs.Keys
    ensures forall k :: k in s.freqs ==> k in s.hist && Logical(s)[k] == s.hist[k]
  {
    hide InvKeys, InvCache, InvVersions, InvRecency, InvStored, InvStore, InvWritten, InvFakes, InvRound;
    hide InvPending, InvTracker, InvAsked, InvCounts, InvWindow, InvBase, InvFakeAges, InvNoise, Resident, Live, Logical;
    LogicalParts(s.freqs, s.stamps, s.cache, s.store, s.hist, s);
  }

  // A live record is in exactly one place: the cache, or the store under its current tag.
  lemma OnePlace(p: Params, s: State, k: Key)
    requires Inv(p, s) && k in s.freqs
    ensures k in KeySet(s.cache) <==> TagOf(s.freqs, k) !in s.store
  {
    hide InvKeys, InvCache, InvVersions, InvRecency, InvFakes, InvRound;
    hide InvPending, InvTracker, InvAsked, InvCounts, InvWindow, InvBase, InvFakeAges, InvNoise;
    hide Flatten, Wraps;
    assert TagOf(s.freqs, k) in s.store ==> TagOf(s.freqs, k) in s.written;
  }

  // The abstract machine: what a step does to the clients' map.
  ghost function MapAfter(s: State, step: Step): map<Key, Bytes>
    requires step.PutStep? ==> step.key.Bucket? && StampsOf(s.stamps, step.key.item) != {}
  {
    var m := Logical(s);
    match step
    case GetStep(_, _, _) => m
    case ClearStep => m
    case PutStep(k, v) =>
      var victim := Oldest(s.stamps, k.item);
      (if victim in KeySet(s.cache) then m - {victim} else m)[k := v]
    case BatchStep(_) => m - Elems(s.pending)
  }

  lemma PutFreqs(p: Params, s: State, k: Key, v: Bytes)
    requires Inv(p, s) && PutOk(s, k, v)
    ensures var victim := Oldest(s.stamps, k.item);
            && Put(s, k, v).hist == s.hist[k := v]
            && Put(s, k, v).freqs.Keys == (if victim in KeySet(s.cache) then s.freqs.Keys - {victim} else s.freqs.Keys) + {k}
  {
    hide Inv;
    VictimIsCachedOrResident(p, s, k.item);
    VictimShape(s.stamps, k.item);
    hide Oldest, PlaceOf, Requested, DropStamp, AddStamp, Erase, KeySet, StampsOf;
  }

  lemma RestrictedMaps(m: map<Key, Bytes>, n: map<Key, Bytes>, hist: map<Key, Bytes>)
    requires m.Keys == n.Keys && (forall k :: k in m ==> k in hist && m[k] == hist[k]) && (forall k :: k in n ==> k in hist && n[k] == hist[k])
    ensures m == n
  {
  }

  lemma PutRefines(p: Params, s: State, k: Key, v: Bytes)
    requires Inv(p, s) && Sane(p) && Enabled(p, s, PutStep(k, v))
    ensures Logical(Put(s, k, v)) == MapAfter(s, PutStep(k, v))
  {
    hide Inv, KeySet, Logical, Put, Oldest;
    PutKeeps(p, s, k, v);
    PutFreqs(p, s, k, v);
    LogicalIsHistory(p, s);
    LogicalIsHistory(p, Put(s, k, v));
    var after := MapAfter(s, PutStep(k, v));
    forall q | q in after ensures q in s.hist[k := v] && after[q] == s.hist[k := v][q] {
      FreshPut(p, s, k, v);
    }
    RestrictedMaps(Logical(Put(s, k, v)), after, s.hist[k := v]);
  }

  lemma FreshPut(p: Params, s: State, k: Key, v: Bytes)
    requires PutOk(s, k, v)
    ensures k !in s.hist
  {
  }

  lemma BatchMap(p: Params, s: State, ch: Choices)
    requires Inv(p, s) && BatchOk(p, s, ch)
    ensures Logical(Batch(p, s, ch)) == Logical(s) - Elems(s.pending)
  {
    hide Inv, BatchOk, KeySet, Logical, Batch, Ripe;
    BatchKeepsInv(p, s, ch);
    LogicalIsHistory(p, s);
    LogicalIsHistory(p, Batch(p, s, ch));
    BatchRecords(p, s, ch);
    RestrictedMaps(Logical(Batch(p, s, ch)), Logical(s) - Elems(s.pending), s.hist);
  }

  lemma BatchRecords(p: Params, s: State, ch: Choices)
    requires Inv(p, s) && BatchOk(p, s, ch)
    ensures Batch(p, s, ch).freqs.Keys == s.freqs.Keys - Elems(s.pending) && Batch(p, s, ch).hist == s.hist
  {
    hide Inv;
    FactsOfBatch(p, s, ch);
    RipeReads(p, s, ch);
    hide BatchOk, Through, WriteTags, ReadTags, Fetched, DropStamps, Without, PutAll;
    BatchReadyOnly(p, s, ch);
  }

  lemma RipeReads(p: Params, s: State, ch: Choices)
    requires Ripe(p, s, ch)
    ensures Elems(Reads(s, ch)) <= s.freqs.Keys
  {
  }

  // Every step, whatever padding it chooses and whatever is deleted meanwhile, acts on the clients' map as the
  // abstract machine does.
  lemma StepRefines(p: Params, s: State, step: Step)
    requires Inv(p, s) && Sane(p) && Enabled(p, s, step)
    ensures Logical(Next(p, s, step)) == MapAfter(s, step)
  {
    match step
    case GetStep(item, lo, hi) =>
      hide Inv, Get, SplitOf, Logical;
      GetMap(p, s, item, lo, hi);
    case PutStep(k, v) =>
      hide Inv, Put, Logical, Oldest;
      PutRefines(p, s, k, v);
    case ClearStep =>
      hide Inv, Clear, Logical;
      ClearKeeps(p, s, 1);
    case BatchStep(ch) =>
      hide Inv, Batch, BatchOk, Logical;
      BatchMap(p, s, ch);
  }

  lemma GetMap(p: Params, s: State, item: Item, lo: int, hi: int)
    requires Inv(p, s)
    ensures Logical(Get(s, item, lo, hi)) == Logical(s)
  {
    hide Inv, Get, SplitOf;
    TouchKeeps(p, s, item);
    GetFields(s, item, lo, hi);
    SameRecordsRefine(s, Get(s, item, lo, hi));
  }

  // ---- range GETs ----

  // The answer to a GET over a map of values.
  ghost predicate Answers(t: Tracker, r: nat, keys: seq<Key>, m: map<Key, Bytes>) {
    keys != [] && Fulfilled(keys, m) && r in t.answers && t.answers[r] == [AnswerOf(keys, m)]
  }

  lemma AskedAnswers(t: Tracker, asked: map<nat, seq<Key>>, nextId: nat, hist: map<Key, Bytes>, r: nat, keys: seq<Key>, m: map<Key, Bytes>)
    requires InvAsked(t, asked, nextId, hist) && r in asked && asked[r] == keys && r in t.answers
    requires keys != [] && Fulfilled(keys, m) && forall k :: k in keys ==> k in hist && hist[k] == m[k]
    ensures Answers(t, r, keys, m)
  {
    AnswerFrame(keys, m, hist);
  }

  // At most one call of set_value has been made for any GET of any run, at any time.
  lemma AtMostOneCall(p: Params, s: State, r: nat)
    requires Inv(p, s) && r in s.tracker.answers
    ensures |s.tracker.answers[r]| == 1 && r in s.asked && r !in s.tracker.requests
  {
    hide InvKeys, InvCache, InvVersions, InvRecency, InvStored, InvStore, InvWritten, InvFakes, InvRound;
    hide InvPending, InvTracker, InvCounts, InvWindow, InvBase, InvFakeAges, InvNoise, Resident, Live;
  }

  lemma AfterBatch(p: Params, s: State, ch: Choices, r: nat)
    requires Inv(p, s) && BatchOk(p, s, ch) && r in s.asked
    ensures r in Batch(p, s, ch).tracker.answers
  {
    BatchReadyOnly(p, s, ch);
    hide InvKeys, InvCache, InvVersions, InvRecency, InvStored, InvStore, InvWritten, InvFakes, InvRound;
    hide InvPending, InvTracker, InvCounts, InvWindow, InvBase, InvFakeAges, InvNoise, Resident, Live;
    hide BatchOk, Through, WriteTags, ReadTags, Fetched, DropStamps, Without, PutAll, FreqsAfter, FakesAfter;
  }

  lemma AskedAtGet(p: Params, s: State, item: Item, lo: int, hi: int)
    requires Inv(p, s) && SplitOf(s, item, lo, hi) != []
    ensures var t := Get(s, item, lo, hi);
            s.nextId in t.asked && t.asked[s.nextId] == SplitOf(s, item, lo, hi) && s.nextId < t.nextId
            && s.nextId !in s.asked && s.nextId !in s.tracker.answers
  {
    hide Inv, Get, SplitOf;
    TouchKeeps(p, s, item);
    GetFields(s, item, lo, hi);
    NothingAnswered(p, s, s.nextId);
  }

  lemma NothingAnswered(p: Params, s: State, r: nat)
    requires Inv(p, s) && r !in s.asked
    ensures r !in s.tracker.answers
  {
  }

  // Every GET with a non-empty split that arrives in a run is unanswered before, and once the batch of its round is
  // through it has been answered exactly once, with the sum over its split of the values the map had on arrival. It
  // stays that way for the rest of the run.
  lemma GetAnsweredOnce(p: Params, ss: seq<State>, steps: seq<Step>, i: nat, j: nat, m: nat)
    requires Run(p, ss, steps) && Inv(p, ss[0]) && Sane(p)
    requires i < j < m < |ss| && steps[i].GetStep? && steps[j].BatchStep?
    requires SplitOf(ss[i], steps[i].item, steps[i].lo, steps[i].hi) != []
    ensures ss[i].nextId !in ss[i].tracker.answers
    ensures Answers(ss[m].tracker, ss[i].nextId, SplitOf(ss[i], steps[i].item, steps[i].lo, steps[i].hi), Logical(ss[i]))
  {
    hide Inv, BatchOk, PutOk, Get, Put, Clear, Batch, SplitOf, Logical, Answers;
    var r, keys := ss[i].nextId, SplitOf(ss[i], steps[i].item, steps[i].lo, steps[i].hi);
    RunKeeps(p, ss, steps, i);
    RunKeeps(p, ss, steps, j);
    RunKeeps(p, ss, steps, m);
    AskedAtGet(p, ss[i], steps[i].item, steps[i].lo, steps[i].hi);
    RunGrows(p, ss, steps, i + 1, j);
    RunAt(p, ss, steps, i);
    RunAt(p, ss, steps, j);
    AfterBatch(p, ss[j], steps[j].ch, r);
    RunGrows(p, ss, steps, i + 1, m);
    RunGrows(p, ss, steps, j + 1, m);
    RunGrows(p, ss, steps, i, m);
    LogicalIsHistory(p, ss[i]);
    SplitLive(p, ss[i], steps[i].item, steps[i].lo, steps[i].hi);
    StateAnswers(p, ss[m], r, keys, Logical(ss[i]));
  }

  lemma SplitLive(p: Params, s: State, item: Item, lo: int, hi: int)
    requires Inv(p, s)
    ensures forall k :: k in SplitOf(s, item, lo, hi) ==> k in s.freqs
  {
    hide Inv, SplitOf;
    LiveIndex(p, s);
    SplitIsLive(s, item, lo, hi);
  }

  lemma StateAnswers(p: Params, s: State, r: nat, keys: seq<Key>, m: map<Key, Bytes>)
    requires Inv(p, s) && r in s.asked && s.asked[r] == keys && r in s.tracker.answers
    requires keys != [] && Fulfilled(keys, m) && forall k :: k in keys ==> k in s.hist && s.hist[k] == m[k]
    ensures Answers(s.tracker, r, keys, m)
  {
    hide InvKeys, InvCache, InvVersions, InvRecency, InvStored, InvStore, InvWritten, InvFakes, InvRound, InvAsked;
    hide InvPending, InvTracker, InvCounts, InvWindow, InvBase, InvFakeAges, InvNoise, Resident, Live, Answers;
    AskedAnswers(s.tracker, s.asked, s.nextId, s.hist, r, keys, m);
  }

  // A request number that was passed over is never asked for again.
  lemma StaysUnasked(p: Params, s: State, step: Step, r: nat)
    requires Inv(p, s) && Enabled(p, s, step) && r < s.nextId && r !in s.asked
    ensures r < Next(p, s, step).nextId && r !in Next(p, s, step).asked
  {
    hide Inv, Get, SplitOf, PutOk, BatchOk, Oldest;
    NextGrows(p, s, step);
    match step
    case GetStep(item, lo, hi) =>
      TouchKeeps(p, s, item);
      GetFields(s, item, lo, hi);
    case PutStep(k, v) => PutFields(s, k, v);
    case ClearStep =>
    case BatchStep(ch) => HistoryKept(p, s, ch);
  }

  // A GET with an empty split is never answered.
  lemma {:induction false} EmptyNeverAnswered(p: Params, ss: seq<State>, steps: seq<Step>, i: nat, m: nat)
    requires Run(p, ss, steps) && Inv(p, ss[0]) && Sane(p) && i < m < |ss| && steps[i].GetStep?
    requires SplitOf(ss[i], steps[i].item, steps[i].lo, steps[i].hi) == []
    ensures ss[i].nextId < ss[m].nextId && ss[i].nextId !in ss[m].asked && ss[i].nextId !in ss[m].tracker.answers
  {
    hide Inv, Get, SplitOf, Enabled;
    RunKeeps(p, ss, steps, m);
    RunKeeps(p, ss, steps, m - 1);
    RunAt(p, ss, steps, m - 1);
    if m == i + 1 {
      TouchKeeps(p, ss[i], steps[i].item);
      GetFields(ss[i], steps[i].item, steps[i].lo, steps[i].hi);
    } else {
      EmptyNeverAnswered(p, ss, steps, i, m - 1);
      StaysUnasked(p, ss[m - 1], steps[m - 1], ss[i].nextId);
    }
    NothingAnswered(p, ss[m], ss[i].nextId);
  }

  // A GET is answered, once and in the batch that ends its round, exactly when its item has a bucket at or before the end
  // of the range and, if the range ends before it starts, none between.
  lemma AnsweredExactlyWhen(p: Params, ss: seq<State>, steps: seq<Step>, i: nat, j: nat)
    requires Run(p, ss, steps) && Inv(p, ss[0]) && Sane(p) && i < j < |steps| && steps[i].GetStep? && steps[j].BatchStep?
    ensures var stamps, lo, hi := StampsOf(ss[i].stamps, steps[i].item), steps[i].lo, steps[i].hi;
            ss[i].nextId in ss[j + 1].tracker.answers
            <==> (exists t :: t in stamps && t <= hi) && !exists u :: u in stamps && hi < u < lo
  {
    hide Inv, Run, Logical, Answers, SplitKeys, Wanted, StampsOf;
    RunLength(p, ss, steps);
    var stamps, lo, hi := StampsOf(ss[i].stamps, steps[i].item), steps[i].lo, steps[i].hi;
    EmptySplit(stamps, lo, hi);
    SplitKeysEmpty(steps[i].item, stamps, lo, hi);
    if SplitOf(ss[i], steps[i].item, lo, hi) == [] {
      EmptyNeverAnswered(p, ss, steps, i, j + 1);
    } else {
      GetAnsweredOnce(p, ss, steps, i, j, j + 1);
      AnswersAre(ss[j + 1].tracker, ss[i].nextId, SplitOf(ss[i], steps[i].item, lo, hi), Logical(ss[i]));
    }
  }

  lemma AnswersAre(t: Tracker, r: nat, keys: seq<Key>, m: map<Key, Bytes>)
    requires Answers(t, r, keys, m)
    ensures r in t.answers
  {
  }
}
