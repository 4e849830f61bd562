// The guarantees of the proxy, over every execution: any interleaving of requests, batches and background deletions that
// starts where init leaves the proxy.
module Theorems {
  import opened BatchProofs
  import opened Batching
  import opened Caches
  import opened Frequencies
  import opened GetProofs
  import opened Invariant
  import opened Keys
  import opened Order
  import opened Protocol
  import opened Refinement
  import opened Retention
  import opened Running
  import opened Runs
  import opened Seqs
  import opened Splits
  import opened Staleness
  import opened Starting
  import opened Texts
  import opened Traffic
  import opened Values
  import opened Victims

  lemma ExecutionKeeps(p: Params, ss: seq<State>, steps: seq<Step>, i: nat)
    requires Execution(p, ss, steps) && i < |ss|
    ensures Inv(p, ss[0]) && Inv(p, ss[i])
    ensures i < |steps| ==> Enabled(p, ss[i], steps[i]) && ss[i + 1] == Next(p, ss[i], steps[i])
  {
    hide Inv, IsInitial, Enabled, Next, Run, Sane;
    RunLength(p, ss, steps);
    InitialInv(p, ss[0]);
    RunKeeps(p, ss, steps, i);
    if i < |steps| {
      RunAt(p, ss, steps, i);
    }
  }

  lemma BatchRuns(p: Params, ss: seq<State>, steps: seq<Step>, i: nat)
    requires Execution(p, ss, steps) && i < |steps| && steps[i].BatchStep?
    ensures Inv(p, ss[i]) && BatchOk(p, ss[i], steps[i].ch) && ss[i + 1] == Batch(p, ss[i], steps[i].ch)
  {
    hide Inv, IsInitial, Execution, Run, BatchOk, Batch;
    ExecutionLength(p, ss, steps);
    ExecutionKeeps(p, ss, steps, i);
  }

  lemma ExecutionLength(p: Params, ss: seq<State>, steps: seq<Step>)
    requires Execution(p, ss, steps)
    ensures |ss| == |steps| + 1 && Run(p, ss, steps) && Sane(p)
  {
    hide IsInitial, Sane, RunAndStep;
  }

  // ---- the clients' map ----

  // At every moment a live record is in exactly one place, and what is there decrypts to the value it was inserted with.
  lemma OnePlaceEach(p: Params, ss: seq<State>, steps: seq<Step>, i: nat, k: Key)
    requires Execution(p, ss, steps) && i < |ss| && k in ss[i].freqs
    ensures k in KeySet(ss[i].cache) <==> TagOf(ss[i].freqs, k) !in ss[i].store
    ensures k in ss[i].hist && k in Logical(ss[i]) && Logical(ss[i])[k] == ss[i].hist[k]
  {
    hide Inv, Execution, Logical, KeySet;
    ExecutionKeeps(p, ss, steps, i);
    OnePlace(p, ss[i], k);
    LogicalIsHistory(p, ss[i]);
  }

  // Every step acts on the clients' map as the abstract machine does.
  lemma RefinesMap(p: Params, ss: seq<State>, steps: seq<Step>, i: nat)
    requires Execution(p, ss, steps) && i < |steps|
    ensures steps[i].PutStep? ==> steps[i].key.Bucket? && StampsOf(ss[i].stamps, steps[i].key.item) != {}
    ensures Logical(ss[i + 1]) == MapAfter(ss[i], steps[i])
  {
    hide Inv, Execution, Logical, MapAfter, Next, Enabled;
    ExecutionLength(p, ss, steps);
    ExecutionKeeps(p, ss, steps, i);
    PutParts(p, ss[i], steps[i]);
    StepRefines(p, ss[i], steps[i]);
  }

  lemma PutParts(p: Params, s: State, step: Step)
    requires Enabled(p, s, step)
    ensures step.PutStep? ==> step.key.Bucket? && StampsOf(s.stamps, step.key.item) != {}
  {
  }

  // ---- range GETs ----

  // A GET with a non-empty split is unanswered on arrival. From the first batch after it on it has been answered exactly
  // once, with the sum over its split of the values the map had on arrival.
  lemma AnsweredOnce(p: Params, ss: seq<State>, steps: seq<Step>, i: nat, j: nat, m: nat)
    requires Execution(p, ss, steps) && i < j < m < |ss| && steps[i].GetStep? && steps[j].BatchStep?
    requires SplitOf(ss[i], steps[i].item, steps[i].lo, steps[i].hi) != []
    ensures ss[i].nextId !in ss[i].tracker.answers
    ensures Answers(ss[m].tracker, ss[i].nextId, SplitOf(ss[i], steps[i].item, steps[i].lo, steps[i].hi), Logical(ss[i]))
  {
    hide Inv, Execution, Logical, Answers, SplitOf, Run;
    ExecutionLength(p, ss, steps);
    ExecutionKeeps(p, ss, steps, i);
    GetAnsweredOnce(p, ss, steps, i, j, m);
  }

  // A GET is ever answered exactly when its item has a bucket at or before the end of the range and none strictly between
  // the end and the start.
  lemma AnsweredIff(p: Params, ss: seq<State>, steps: seq<Step>, i: nat, j: nat)
    requires Execution(p, ss, steps) && i < j < |steps| && steps[i].GetStep? && steps[j].BatchStep?
    ensures var stamps, lo, hi := StampsOf(ss[i].stamps, steps[i].item), steps[i].lo, steps[i].hi;
            ss[i].nextId in ss[j + 1].tracker.answers
            <==> (exists t :: t in stamps && t <= hi) && !exists u :: u in stamps && hi < u < lo
  {
    hide Inv, Execution, Run, StampsOf;
    ExecutionLength(p, ss, steps);
    ExecutionKeeps(p, ss, steps, i);
    AnsweredExactlyWhen(p, ss, steps, i, j);
  }

  // When the item is one of ints, that answer is the sum of all ints in all buckets of the split.
  lemma IntAnswer(p: Params, ss: seq<State>, steps: seq<Step>, i: nat, j: nat, m: nat, wss: seq<seq<Word>>)
    requires Execution(p, ss, steps) && i < j < m < |ss| && steps[i].GetStep? && steps[j].BatchStep?
    requires SplitOf(ss[i], steps[i].item, steps[i].lo, steps[i].hi) != [] && HasType(steps[i].item, "int")
    requires HoldInts(SplitOf(ss[i], steps[i].item, steps[i].lo, steps[i].hi), Logical(ss[i]), wss)
    ensures var r, answers := ss[i].nextId, ss[m].tracker.answers;
            r in answers && answers[r] == [Total(SumInts(Flatten(wss)))]
  {
    hide Inv, Execution, Logical, SplitOf, Run, HoldInts, HasType, SumInts, AnswerOf;
    ExecutionLength(p, ss, steps);
    AnsweredOnce(p, ss, steps, i, j, m);
    var keys := SplitOf(ss[i], steps[i].item, steps[i].lo, steps[i].hi);
    SplitItem(ss[i], steps[i].item, steps[i].lo, steps[i].hi);
    AnswerOfInts(steps[i].item, keys, Logical(ss[i]), wss);
  }

  // When it is of any other type but float, the answer is how many elements in all buckets of the split are true.
  lemma BoolAnswer(p: Params, ss: seq<State>, steps: seq<Step>, i: nat, j: nat, m: nat, kind: string, vss: seq<seq<bool>>)
    requires Execution(p, ss, steps) && i < j < m < |ss| && steps[i].GetStep? && steps[j].BatchStep?
    requires SplitOf(ss[i], steps[i].item, steps[i].lo, steps[i].hi) != []
    requires HasType(steps[i].item, kind) && kind != "int" && kind != "float"
    requires HoldBools(SplitOf(ss[i], steps[i].item, steps[i].lo, steps[i].hi), Logical(ss[i]), vss)
    ensures var r, answers := ss[i].nextId, ss[m].tracker.answers;
            r in answers && answers[r] == [Total(CountTrue(Flatten(vss)))]
  {
    hide Inv, Execution, Logical, SplitOf, Run, HoldBools, HasType, CountTrue, AnswerOf;
    ExecutionLength(p, ss, steps);
    AnsweredOnce(p, ss, steps, i, j, m);
    var keys := SplitOf(ss[i], steps[i].item, steps[i].lo, steps[i].hi);
    SplitItem(ss[i], steps[i].item, steps[i].lo, steps[i].hi);
    AnswerOfBools(steps[i].item, kind, keys, Logical(ss[i]), vss);
  }

  lemma SplitItem(s: State, item: Item, lo: int, hi: int)
    ensures forall k :: k in SplitOf(s, item, lo, hi) ==> k.Bucket? && k.item == item
  {
    SplitKeysAre(item, StampsOf(s.stamps, item), lo, hi);
  }

  // No promise is ever set twice.
  lemma NeverAnsweredTwice(p: Params, ss: seq<State>, steps: seq<Step>, i: nat, r: nat)
    requires Execution(p, ss, steps) && i < |ss| && r in ss[i].tracker.answers
    ensures |ss[i].tracker.answers[r]| == 1 && r !in ss[i].tracker.requests
  {
    hide Inv, Execution;
    ExecutionKeeps(p, ss, steps, i);
    AtMostOneCall(p, ss[i], r);
  }

  // ---- what the store sees ----

  // Every batch reads B different tags, all still in the store, writes B different new ones, and queues exactly the tags
  // it read.
  lemma TrafficIsConstant(p: Params, ss: seq<State>, steps: seq<Step>, i: nat)
    requires Execution(p, ss, steps) && i < |steps| && steps[i].BatchStep?
    ensures var s, ch := ss[i], steps[i].ch;
            && |ReadTags(s, ch)| == p.B && Distinct(ReadTags(s, ch)) && Elems(ReadTags(s, ch)) <= s.store.Keys
            && |WriteTags(s, ch)| == p.B && Distinct(WriteTags(s, ch)) && Elems(WriteTags(s, ch)) !! s.written
            && ch.pops <= |s.queue| && ss[i + 1].queue == s.queue[ch.pops..] + [ReadTags(s, ch)]
  {
    hide Inv, Execution, BatchOk, Batch, ReadTags, WriteTags, Clear;
    ExecutionLength(p, ss, steps);
    BatchRuns(p, ss, steps, i);
    BatchReadyOnly(p, ss[i], steps[i].ch);
    ConstantTraffic(p, ss[i], steps[i].ch);
    ClearShrinks(ss[i], steps[i].ch.pops);
  }

  lemma ClearShrinks(s: State, n: nat)
    requires n <= |s.queue|
    ensures Clear(s, n).store.Keys <= s.store.Keys
  {
  }

  // A batch reads what the round asked for, then the padding, then fake records; it writes what it evicts, in the order in
  // which it came to the cache, then the fake records it read.
  lemma TagsInOrder(p: Params, ss: seq<State>, steps: seq<Step>, i: nat, x: nat)
    requires Execution(p, ss, steps) && i < |steps| && steps[i].BatchStep? && x < p.B
    ensures var s, ch, n := ss[i], steps[i].ch, |Reads(ss[i], steps[i].ch)|;
            && |ss| == |steps| + 1 && |ReadTags(s, ch)| == |WriteTags(s, ch)| == p.B && n == |s.ops| + |ch.chosen| == p.B - |ch.fakeKeys|
            && ReadTags(s, ch)[x] == (if x < |s.ops| then Tag(s.ops[x], FreqOf(s.freqs, s.ops[x]))
                                      else if x < n then Tag(ch.chosen[x - |s.ops|], FreqOf(s.freqs, ch.chosen[x - |s.ops|]))
                                      else Tag(ch.fakeKeys[x - n], FreqOf(s.fakes, ch.fakeKeys[x - n])))
            && (x >= n ==> WriteTags(s, ch)[x] == Tag(ch.fakeKeys[x - n], s.clock + 1))
            && (x < n ==>
                  var t := WriteTags(s, ch)[x];
                  && t.version == VersionAfter(s, steps[i], t.key) && t.key !in KeySet(ss[i + 1].cache)
                  && forall y :: x < y < n ==> Precedes(s, ch, t.key, WriteTags(s, ch)[y].key))
  {
    hide Inv, Execution, BatchOk, Batch, ReadTags, WriteTags, Precedes, KeySet, VersionAfter;
    ExecutionLength(p, ss, steps);
    BatchRuns(p, ss, steps, i);
    BatchSizes(p, ss[i], steps[i].ch);
    ReadTagAt(p, ss[i], steps[i].ch, x);
    WriteTagAt(p, ss[i], steps[i].ch, x);
  }

  lemma BatchSizes(p: Params, s: State, ch: Choices)
    requires BatchOk(p, s, ch)
    ensures |Reads(s, ch)| == |s.ops| + |ch.chosen| == p.B - |ch.fakeKeys|
  {
    hide Through, Evictions, IsScan, Wraps, WrapsNoise, Ready;
  }

  // No tag is read by two batches, and none is written by two.
  lemma TagsOnce(p: Params, ss: seq<State>, steps: seq<Step>, i: nat, j: nat)
    requires Execution(p, ss, steps) && i < j < |steps| && steps[i].BatchStep? && steps[j].BatchStep?
    ensures Elems(WriteTags(ss[i], steps[i].ch)) !! Elems(WriteTags(ss[j], steps[j].ch))
    ensures Elems(ReadTags(ss[i], steps[i].ch)) !! Elems(ReadTags(ss[j], steps[j].ch))
  {
    hide Inv, Execution, Run, ReadTags, WriteTags;
    ExecutionLength(p, ss, steps);
    ExecutionKeeps(p, ss, steps, i);
    TagsUsedOnce(p, ss, steps, i, j);
  }

  // A tag queued for deletion is never live again, and no later batch reads or writes it.
  lemma DeletionSafe(p: Params, ss: seq<State>, steps: seq<Step>, i: nat, j: nat, t: Tag)
    requires Execution(p, ss, steps) && i <= j < |ss| && t in Queued(ss[i].queue)
    ensures t !in Live(ss[j].freqs, ss[j].cache, ss[j].fakes)
    ensures j < |steps| && steps[j].BatchStep? ==> t !in WriteTags(ss[j], steps[j].ch) && t !in ReadTags(ss[j], steps[j].ch)
  {
    hide Inv, Execution, Run, ReadTags, WriteTags, Live, Queued;
    ExecutionLength(p, ss, steps);
    ExecutionKeeps(p, ss, steps, i);
    DeletionIsSafe(p, ss, steps, i, j, t);
  }

  // At every moment every fake record is in the store, under its current tag, as as many random characters as an object has.
  lemma FakesAreNoise(p: Params, ss: seq<State>, steps: seq<Step>, i: nat, k: Key)
    requires Execution(p, ss, steps) && i < |ss| && k in ss[i].fakes
    ensures var tag := Tag(k, ss[i].fakes[k]); tag in ss[i].store && WrapsNoise(ss[i].store[tag], p.objectSize)
  {
    hide Inv, Execution, WrapsNoise;
    ExecutionKeeps(p, ss, steps, i);
    NoiseOf(p, ss[i]);
  }

  lemma NoiseOf(p: Params, s: State)
    requires Inv(p, s)
    ensures InvNoise(s.fakes, s.store, p.objectSize)
  {
    hide InvKeys, InvCache, InvVersions, InvRecency, InvStored, InvStore, InvWritten, InvFakes, InvRound, InvNoise;
    hide InvPending, InvTracker, InvAsked, InvCounts, InvWindow, InvBase, InvFakeAges, Resident, Live;
  }

  // The deletion queue is first in, first out: it is what all batches have read, less the lists already taken from its front.
  lemma QueueInOrder(p: Params, ss: seq<State>, steps: seq<Step>, i: nat)
    requires Execution(p, ss, steps) && i < |ss|
    ensures i <= |steps| && Popped(steps, i) <= |AllReads(ss, steps, i)|
    ensures ss[i].queue == AllReads(ss, steps, i)[Popped(steps, i)..]
  {
    hide Inv, Execution, Run, Sane, Popped, AllReads;
    ExecutionStart(p, ss, steps);
    QueueIs(p, ss, steps, i);
  }

  // The store holds every tag that was ever written but those on the lists taken from the queue: nothing else is deleted, and
  // nothing of those is left.
  lemma StoreInOrder(p: Params, ss: seq<State>, steps: seq<Step>, i: nat)
    requires Execution(p, ss, steps) && i < |ss|
    ensures i <= |steps| && Popped(steps, i) <= |AllReads(ss, steps, i)|
    ensures ss[i].store.Keys == ss[i].written - Elems(Flatten(AllReads(ss, steps, i)[..Popped(steps, i)]))
  {
    hide Inv, Execution, Run, Sane, Popped, AllReads, Elems, Flatten;
    ExecutionStart(p, ss, steps);
    StoreIs(p, ss, steps, i);
  }

  lemma ExecutionStart(p: Params, ss: seq<State>, steps: seq<Step>)
    requires Execution(p, ss, steps)
    ensures |ss| == |steps| + 1 && Run(p, ss, steps) && Sane(p) && Inv(p, ss[0])
    ensures ss[0].queue == [] && ss[0].pending == [] && ss[0].store.Keys == ss[0].written
  {
    hide Inv, Sane, RunAndStep, Indexed, InvCache, InvStored, InvNoise, Live;
    InitialInv(p, ss[0]);
  }

  // ---- sizes and order ----

  // The cache is a queue. Requests and deletions leave it alone, but for a PUT, which puts its pair last and takes at most its
  // victim out; a batch takes pairs from the front and puts what it read at the back, in the order it was read.
  lemma CacheInOrder(p: Params, ss: seq<State>, steps: seq<Step>, i: nat, a: Key, b: Key)
    requires Execution(p, ss, steps) && i < |steps|
    ensures |ss| == |steps| + 1
    ensures var q, t := ss[i].cache, ss[i + 1].cache;
            match steps[i]
            case GetStep(_, _, _) => t == q
            case ClearStep => t == q
            case PutStep(k, x) =>
              && t != [] && t[|t| - 1] == Pair(k, x)
              && (Before(q, a, b) && a in KeySet(t) && b in KeySet(t) ==> Before(t, a, b))
              && forall c :: c in KeySet(q) - KeySet(t) ==> Evicts(ss[i], steps[i], c)
            case BatchStep(ch) => Precedes(ss[i], ch, a, b) && a in KeySet(t) ==> Before(t, a, b)
  {
    hide Inv, Execution, Run, Sane, Get, Put, Batch, SplitOf, PutOk, BatchOk, Before, Precedes, KeySet, Oldest, Evicts;
    ExecutionLength(p, ss, steps);
    ExecutionKeeps(p, ss, steps, i);
    match steps[i]
    case GetStep(item, lo, hi) =>
      TouchKeeps(p, ss[i], item);
      GetFields(ss[i], item, lo, hi);
    case ClearStep =>
    case PutStep(k, x) =>
      PutOrder(p, ss[i], k, x, a, b);
      VictimOfPut(p, ss[i], k, x);
      FreshPut(p, ss[i], k, x);
    case BatchStep(ch) => BatchOrder(p, ss[i], ch, a, b);
  }

  // The batch number counts the batches. A PUT gives its record the current number, a batch gives the next one to all it
  // reads, and no other version changes.
  lemma VersionsCount(p: Params, ss: seq<State>, steps: seq<Step>, i: nat, k: Key)
    requires Execution(p, ss, steps) && i < |steps|
    ensures |ss| == |steps| + 1 && ss[i].clock == Batches(steps, i)
    ensures k in ss[i + 1].freqs ==> ss[i + 1].freqs[k] == VersionAfter(ss[i], steps[i], k)
    ensures k in ss[i].fakes ==>
      k in ss[i + 1].fakes
      && ss[i + 1].fakes[k] == if steps[i].BatchStep? && k in steps[i].ch.fakeKeys then ss[i].clock + 1 else ss[i].fakes[k]
  {
    hide Inv, Execution, Run, Enabled, Next, Reads, VersionAfter, SlotsAfter;
    ExecutionLength(p, ss, steps);
    ExecutionKeeps(p, ss, steps, i);
    StepCounts(p, ss[i], steps[i], k);
    ClockCounts(p, ss, steps, i);
  }

  lemma {:induction false} ClockCounts(p: Params, ss: seq<State>, steps: seq<Step>, i: nat)
    requires Execution(p, ss, steps) && i < |ss|
    ensures i <= |steps| && ss[i].clock == Batches(steps, i)
  {
    hide Inv, Execution, Run, Enabled, Next, VersionAfter, SlotsAfter;
    ExecutionLength(p, ss, steps);
    if i == 0 {
      ClockStarts(p, ss, steps);
    } else {
      ClockCounts(p, ss, steps, i - 1);
      ExecutionKeeps(p, ss, steps, i - 1);
      StepCounts(p, ss[i - 1], steps[i - 1], Fake(""));
    }
  }

  lemma ClockStarts(p: Params, ss: seq<State>, steps: seq<Step>)
    requires Execution(p, ss, steps)
    ensures |ss| > 0 && ss[0].clock == 0
  {
    hide Sane, RunAndStep, Indexed, InvCache, InvStored, InvNoise, Live;
  }

  // A round counts one operation for each bucket of a split and one for a PUT, and it takes another request only while it has
  // counted fewer than R.
  lemma RoundCounts(p: Params, ss: seq<State>, steps: seq<Step>, i: nat)
    requires Execution(p, ss, steps) && i < |steps|
    ensures |ss| == |steps| + 1 && ss[i + 1].slots == SlotsAfter(ss[i], steps[i])
    ensures ss[i + 1].nextId == ss[i].nextId + (if steps[i].GetStep? then 1 else 0)
    ensures steps[i].GetStep? || steps[i].PutStep? ==> ss[i].slots < p.R
    ensures ss[i + 1].slots <= p.R - 1 + p.M
  {
    hide Inv, Execution, Run, Next, VersionAfter, SlotsAfter, BatchOk, PutOk, SplitOf;
    ExecutionLength(p, ss, steps);
    ExecutionKeeps(p, ss, steps, i);
    ExecutionKeeps(p, ss, steps, i + 1);
    StepCounts(p, ss[i], steps[i], Fake(""));
    SlotsBound(p, ss[i + 1]);
  }

  // What a request looks for: the buckets of its split, or its victim.
  ghost predicate Needs(s: State, step: Step, k: Key) {
    match step
    case GetStep(item, lo, hi) => k in SplitOf(s, item, lo, hi)
    case PutStep(_, _) => Evicts(s, step, k)
    case ClearStep => false
    case BatchStep(_) => false
  }

  // The store is asked for what is needed and not at hand, once in a round: by a GET for the buckets of its split, the oldest
  // first, and by a PUT for its victim.
  lemma AsksInOrder(p: Params, ss: seq<State>, steps: seq<Step>, i: nat) returns (more: seq<Key>)
    requires Execution(p, ss, steps) && i < |steps| && !steps[i].BatchStep?
    ensures |ss| == |steps| + 1 && ss[i + 1].ops == ss[i].ops + more && OldestFirst(more)
    ensures forall k :: k in more <==> Needs(ss[i], steps[i], k) && k !in KeySet(ss[i].cache) && k !in ss[i].ops
  {
    hide Inv, Execution, Run, Sane, Get, Put, SplitOf, Evicts, KeySet, Oldest;
    ExecutionLength(p, ss, steps);
    ExecutionKeeps(p, ss, steps, i);
    match steps[i]
    case GetStep(item, lo, hi) => more := GetAsks(p, ss[i], item, lo, hi);
    case ClearStep => more := [];
    case PutStep(k, x) =>
      PutAsks(p, ss[i], k, x);
      var victim := Oldest(ss[i].stamps, k.item);
      VictimOfPut(p, ss[i], k, x);
      OneVictim(p, ss[i], k, x);
      more := if victim in KeySet(ss[i].cache) || victim in ss[i].ops then [] else [victim];
  }

  lemma SlotsBound(p: Params, s: State)
    requires Inv(p, s)
    ensures s.slots <= p.R - 1 + p.M
  {
    hide InvKeys, InvCache, InvVersions, InvRecency, InvStored, InvStore, InvWritten, InvFakes;
    hide InvPending, InvTracker, InvAsked, InvCounts, InvWindow, InvBase, InvFakeAges, InvNoise, Resident, Live;
  }

  // k is before o in the padding: touched by an earlier batch, or by the same one and smaller as a text.
  ghost predicate PadsFirst(m: map<Key, int>, k: Key, o: Key) {
    || FreqOf(m, k) < FreqOf(m, o)
    || (FreqOf(m, k) == FreqOf(m, o) && exists n: nat :: SmallerAt(KeyText(k), KeyText(o), n))
  }

  // A batch pads with records from the store, those first that were touched longest ago, and names decide between equals.
  lemma PadsInOrder(p: Params, ss: seq<State>, steps: seq<Step>, i: nat, k: Key, o: Key)
    requires Execution(p, ss, steps) && i < |steps| && steps[i].BatchStep? && k in steps[i].ch.chosen
    requires o in Resident(ss[i].freqs, ss[i].cache) && o !in Reads(ss[i], steps[i].ch)
    ensures k in Resident(ss[i].freqs, ss[i].cache) && k !in ss[i].ops && PadsFirst(ss[i].freqs, k, o)
  {
    hide Inv, Execution, Resident, PadsFirst;
    ExecutionLength(p, ss, steps);
    BatchRuns(p, ss, steps, i);
    ScanOf(p, ss[i], steps[i].ch);
    ScanOrder(ss[i].freqs, Eligible(ss[i]), steps[i].ch.chosen, k, o);
  }

  // Fake records are read in the same order.
  lemma FakesInOrder(p: Params, ss: seq<State>, steps: seq<Step>, i: nat, k: Key, o: Key)
    requires Execution(p, ss, steps) && i < |steps| && steps[i].BatchStep? && k in steps[i].ch.fakeKeys
    requires o in ss[i].fakes && o !in steps[i].ch.fakeKeys
    ensures k in ss[i].fakes && PadsFirst(ss[i].fakes, k, o)
  {
    hide Inv, Execution, Resident, PadsFirst;
    ExecutionLength(p, ss, steps);
    BatchRuns(p, ss, steps, i);
    ScanOf(p, ss[i], steps[i].ch);
    ScanOrder(ss[i].fakes, ss[i].fakes.Keys, steps[i].ch.fakeKeys, k, o);
  }

  lemma ScanOf(p: Params, s: State, ch: Choices)
    requires BatchOk(p, s, ch)
    ensures IsScan(s.freqs, Eligible(s), ch.chosen) && IsScan(s.fakes, s.fakes.Keys, ch.fakeKeys)
  {
  }

  lemma ScanOrder(m: map<Key, int>, pool: set<Key>, picked: seq<Key>, k: Key, o: Key)
    requires IsScan(m, pool, picked) && k in picked && o in pool && o !in picked
    ensures k in pool && PadsFirst(m, k, o)
  {
    assert k in Elems(picked) && o !in Elems(picked);
    FreqCmpIff(Entry(k, FreqOf(m, k)), Entry(o, FreqOf(m, o)));
  }

  // The number of records outside the cache never changes, nor does the store's size less what is queued for deletion.
  lemma SizesStay(p: Params, ss: seq<State>, steps: seq<Step>, i: nat)
    requires Execution(p, ss, steps) && i < |ss|
    ensures |Resident(ss[i].freqs, ss[i].cache)| == p.N - p.C && |ss[i].cache| >= p.C
    ensures |ss[i].store| - |Flatten(ss[i].queue)| == p.N - p.C + p.D
  {
    hide Inv, Execution, Resident, Flatten;
    ExecutionKeeps(p, ss, steps, i);
    Conservation(p, ss[i]);
    StoreSize(p, ss[i]);
  }

  // The padding count never wraps, and there are always enough records for both loops.
  lemma NeverStuck(p: Params, ss: seq<State>, steps: seq<Step>, i: nat)
    requires Execution(p, ss, steps) && i < |ss|
    ensures var need := UnsignedDifference(p.B, |ss[i].ops| + p.F);
            need == p.B - (|ss[i].ops| + p.F) && need <= |Eligible(ss[i])| && p.F <= |ss[i].fakes|
  {
    hide Inv, Eligible, Run, Execution;
    ExecutionLength(p, ss, steps);
    ExecutionKeeps(p, ss, steps, i);
    NoUnderflow(p, ss[i]);
    EnoughEligible(p, ss[i]);
    FakeCount(p, ss[i]);
  }

  // At every moment a batch can run, whatever is deleted meanwhile: no execution is stuck.
  lemma NoDeadlock(p: Params, ss: seq<State>, steps: seq<Step>, i: nat, pops: nat)
    requires Execution(p, ss, steps) && i < |ss| && pops <= |ss[i].queue|
    ensures exists ch: Choices :: ch.pops == pops && Enabled(p, ss[i], BatchStep(ch))
  {
    hide Inv, Execution, Run, BatchOk;
    ExecutionLength(p, ss, steps);
    ExecutionKeeps(p, ss, steps, i);
    var ch := BatchExists(p, ss[i], pops);
    assert Enabled(p, ss[i], BatchStep(ch));
  }

  lemma FakeCount(p: Params, s: State)
    requires Inv(p, s)
    ensures |s.fakes| == p.D
  {
    hide InvKeys, InvCache, InvVersions, InvRecency, InvStored, InvStore, InvWritten, InvFakes, InvRound;
    hide InvPending, InvTracker, InvAsked, InvCounts, InvWindow, InvBase, Resident, Live;
  }

  // After every batch nothing of its round is left behind.
  lemma QuietAfterBatch(p: Params, ss: seq<State>, steps: seq<Step>, i: nat)
    requires Execution(p, ss, steps) && i < |steps| && steps[i].BatchStep?
    ensures var t := ss[i + 1];
            && t.tracker.running == {} && t.tracker.waiting == map[] && t.tracker.requests == map[] && t.tracker.got == map[]
            && t.evicted == map[] && t.pending == [] && t.ops == []
  {
    hide Inv, Execution, BatchOk, Batch;
    ExecutionLength(p, ss, steps);
    BatchRuns(p, ss, steps, i);
    Quiescence(p, ss[i], steps[i].ch);
  }

  // The next pair to be evicted has the least version in the cache, and no record in the store a greater one than a cached
  // record.
  lemma LeastIsEvicted(p: Params, ss: seq<State>, steps: seq<Step>, i: nat, k: Key)
    requires Execution(p, ss, steps) && i < |ss| && k in KeySet(ss[i].cache)
    ensures ss[i].cache != [] && FreqOf(ss[i].freqs, ss[i].cache[0].key) <= FreqOf(ss[i].freqs, k)
    ensures forall q :: q in Resident(ss[i].freqs, ss[i].cache) ==> FreqOf(ss[i].freqs, q) <= FreqOf(ss[i].freqs, k)
  {
    hide Inv, Execution, Resident, KeySet, FreqOf;
    ExecutionKeeps(p, ss, steps, i);
    EvictsLeast(p, ss[i], k);
  }

  // ---- staleness and retention ----

  // At every moment each fake record was read within the last ceil(D / F) batches, or is younger than that.
  lemma FakesFresh(p: Params, ss: seq<State>, steps: seq<Step>, i: nat, k: Key)
    requires Execution(p, ss, steps) && i < |ss| && k in ss[i].fakes
    ensures p.F > 0 && ss[i].fakes[k] >= ss[i].clock - CeilDiv(p.D, p.F) + 1
  {
    hide Inv, Run, Execution, CeilDiv;
    ExecutionLength(p, ss, steps);
    ExecutionKeeps(p, ss, steps, i);
    FakesAreFresh(p, ss[i], k);
  }

  // Two consecutive reads of a fake record are at most ceil(D / F) batches apart.
  lemma FakeReads(p: Params, ss: seq<State>, steps: seq<Step>, i: nat, k: Key)
    requires Execution(p, ss, steps) && i < |steps| && steps[i].BatchStep? && k in steps[i].ch.fakeKeys
    ensures p.F > 0 && k in ss[i].fakes && ss[i + 1].clock - ss[i].fakes[k] <= CeilDiv(p.D, p.F)
    ensures k in ss[i + 1].fakes && ss[i + 1].fakes[k] == ss[i + 1].clock
  {
    hide Inv, Run, Execution, CeilDiv, BatchOk, Batch;
    ExecutionLength(p, ss, steps);
    BatchRuns(p, ss, steps, i);
    FakeReadGap(p, ss[i], steps[i].ch, k);
  }

  lemma PaddedReadInTime(p: Params, ss: seq<State>, steps: seq<Step>, k: Key, n: nat) returns (i: nat)
    requires Run(p, ss, steps) && Inv(p, ss[0]) && Sane(p) && n > 0 && Padded(steps, n)
    requires steps != [] && steps[0].BatchStep? && Waits(ss[0], k)
    requires Batches(steps, |steps|) > Rank(ss[0], k) / n
    ensures i < |steps| && ReadsAt(ss, steps, i, k) && Batches(steps, i) <= Rank(ss[0], k) / n
  {
    hide Inv, Run, Rank, Batches, Waits, ReadsAt, Sane;
    i := ReadInTime(p, ss, steps, k, n);
  }

  lemma ReadsAtSuffix(ss: seq<State>, steps: seq<Step>, i: nat, m: nat, k: Key)
    requires |ss| == |steps| + 1 && i + m < |steps| && ReadsAt(ss[i..], steps[i..], m, k)
    ensures ReadsAt(ss, steps, i + m, k)
  {
    hide Reads;
  }

  // A record in the store at the start of a batch, with r records before it in (frequency, key) order, is read within
  // floor(r / n) + 1 batches when each pads with at least n records, whatever comes between.
  lemma RealReadInTime(p: Params, ss: seq<State>, steps: seq<Step>, i: nat, k: Key, n: nat) returns (j: nat)
    requires Execution(p, ss, steps) && i < |steps| && steps[i].BatchStep? && Waits(ss[i], k) && n > 0
    requires Padded(steps[i..], n)
    requires Batches(steps[i..], |steps| - i) > Rank(ss[i], k) / n
    ensures i <= j < |steps| && ReadsAt(ss, steps, j, k) && Batches(steps[i..], j - i) <= Rank(ss[i], k) / n
  {
    hide Inv, Execution, Run, Rank, Batches, Waits, ReadsAt, Padded, Sane, Resident, Enabled, Next;
    ExecutionLength(p, ss, steps);
    ExecutionKeeps(p, ss, steps, i);
    RunSuffix(p, ss, steps, i);
    var tt, ts := ss[i..], steps[i..];
    assert tt[0] == ss[i] && ts[0] == steps[i];
    var m := PaddedReadInTime(p, tt, ts, k, n);
    ReadsAtSuffix(ss, steps, i, m, k);
    j := i + m;
  }

  // Without any assumption on the batches: they pad with at least Spare(p) records each.
  lemma RealReadAnyway(p: Params, ss: seq<State>, steps: seq<Step>, i: nat, k: Key) returns (j: nat)
    requires Execution(p, ss, steps) && i < |steps| && steps[i].BatchStep? && Waits(ss[i], k) && Spare(p) > 0
    requires Batches(steps[i..], |steps| - i) > Rank(ss[i], k) / Spare(p)
    ensures i <= j < |steps| && ReadsAt(ss, steps, j, k) && Batches(steps[i..], j - i) <= Rank(ss[i], k) / Spare(p)
  {
    hide Inv, Execution, Run, Rank, Batches, Waits, ReadsAt, Padded, Sane, Resident, Enabled, Next, Spare;
    ExecutionLength(p, ss, steps);
    ExecutionKeeps(p, ss, steps, i);
    RunSuffix(p, ss, steps, i);
    assert ss[i..][0] == ss[i];
    RunsPad(p, ss[i..], steps[i..], Spare(p));
    j := RealReadInTime(p, ss, steps, i, k, Spare(p));
  }

  // Every stretch of an execution with ceil(D / F) batches reads every fake record in one of them.
  lemma FakeReadWithin(p: Params, ss: seq<State>, steps: seq<Step>, i: nat, k: Key) returns (j: nat)
    requires Execution(p, ss, steps) && i <= |steps| && k in ss[i].fakes
    requires Batches(steps[i..], |steps| - i) >= CeilDiv(p.D, p.F)
    ensures i <= j < |steps| && steps[j].BatchStep? && k in steps[j].ch.fakeKeys
    ensures Batches(steps[i..], j - i) < CeilDiv(p.D, p.F)
  {
    hide Inv, Execution, Run, Batches, Sane, Enabled, Next, CeilDiv;
    ExecutionLength(p, ss, steps);
    ExecutionKeeps(p, ss, steps, i);
    RunSuffix(p, ss, steps, i);
    assert ss[i..][0] == ss[i];
    var m := FakeReadInTime(p, ss[i..], steps[i..], k);
    j := i + m;
  }

  // A bucket that was live and no longer is, is older than every live bucket of its item.
  lemma WindowSlides(p: Params, ss: seq<State>, steps: seq<Step>, i: nat, j: nat, k: Key, q: Key)
    requires Execution(p, ss, steps) && i <= j < |ss| && k in ss[i].freqs && k !in ss[j].freqs && q in ss[j].freqs
    requires k.Bucket? && q.Bucket? && k.item == q.item
    ensures k.ts < q.ts
  {
    hide Inv, Execution, Run;
    ExecutionLength(p, ss, steps);
    ExecutionKeeps(p, ss, steps, j);
    SlidingWindow(p, ss, steps, i, j, k, q);
  }

  // No item ever has fewer buckets than it started with.
  lemma BucketsNeverFewer(p: Params, ss: seq<State>, steps: seq<Step>, i: nat, item: Item)
    requires Execution(p, ss, steps) && i < |ss| && item in p.base
    ensures |BucketTimes(ss[i].freqs.Keys, item)| >= p.base[item]
  {
    hide Inv, Execution, Run, BucketTimes;
    ExecutionLength(p, ss, steps);
    ExecutionKeeps(p, ss, steps, i);
    BucketsKept(p, ss[i], item);
  }

  // ---- what a PUT removes ----

  // When a PUT finds v to be the oldest live bucket of its item, v is gone from the next batch on, for good.
  lemma VictimGoes(p: Params, ss: seq<State>, steps: seq<Step>, i: nat, j: nat, m: nat, v: Key)
    requires Execution(p, ss, steps) && i < j < m < |ss| && steps[j].BatchStep?
    requires steps[i].PutStep? && steps[i].key.Bucket? && v in ss[i].freqs && v.Bucket? && v.item == steps[i].key.item
    requires forall q :: q in ss[i].freqs && q.Bucket? && q.item == v.item ==> v.ts <= q.ts
    ensures v !in ss[m].freqs
  {
    hide Inv, Execution, Run, Sane, Put, Next, Leaving, PutOk;
    ExecutionLength(p, ss, steps);
    ExecutionKeeps(p, ss, steps, i);
    PutIsNext(p, ss[i], steps[i]);
    PutVictim(p, ss[i], steps[i].key, steps[i].value, v);
    GoneAfter(p, ss, steps, i + 1, j, m, v);
  }

  lemma PutIsNext(p: Params, s: State, step: Step)
    requires Enabled(p, s, step) && step.PutStep?
    ensures PutOk(s, step.key, step.value) && Next(p, s, step) == Put(s, step.key, step.value)
  {
    hide Put;
  }

  // It goes with the PUT when it is cached, and stays to be read by the next batch when it is in the store.
  lemma VictimNow(p: Params, ss: seq<State>, steps: seq<Step>, i: nat, v: Key)
    requires Execution(p, ss, steps) && i < |steps|
    requires steps[i].PutStep? && steps[i].key.Bucket? && v in ss[i].freqs && v.Bucket? && v.item == steps[i].key.item
    requires forall q :: q in ss[i].freqs && q.Bucket? && q.item == v.item ==> v.ts <= q.ts
    ensures |ss| == |steps| + 1 && (v in ss[i + 1].freqs <==> v !in KeySet(ss[i].cache))
  {
    hide Inv, Execution, Run, Sane, Put, Next, Leaving, PutOk, KeySet;
    ExecutionLength(p, ss, steps);
    ExecutionKeeps(p, ss, steps, i);
    PutIsNext(p, ss[i], steps[i]);
    PutVictim(p, ss[i], steps[i].key, steps[i].value, v);
  }

  // Nothing else goes: a record that goes at step j was the oldest live bucket of its item at a PUT for that item, which is
  // step j itself or came earlier in the round that the batch at step j ends.
  lemma OnlyVictimsGo(p: Params, ss: seq<State>, steps: seq<Step>, j: nat, v: Key) returns (i: nat)
    requires Execution(p, ss, steps) && j < |steps| && v in ss[j].freqs && |ss| == |steps| + 1 && v !in ss[j + 1].freqs
    ensures i <= j && (i == j || steps[j].BatchStep?) && forall n :: i <= n < j ==> !steps[n].BatchStep?
    ensures steps[i].PutStep? && steps[i].key.Bucket? && v in ss[i].freqs && v.Bucket? && v.item == steps[i].key.item
    ensures forall q :: q in ss[i].freqs && q.Bucket? && q.item == v.item ==> v.ts <= q.ts
  {
    hide Inv, Execution, Run, Sane, Next;
    ExecutionStart(p, ss, steps);
    i := RemovedBy(p, ss, steps, j, v);
  }
}
