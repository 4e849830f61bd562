// Every run: what holds in each of its states, and what holds across it.
module Runs {
  import opened BatchKeeps
  import opened BatchProofs
  import opened Caches
  import opened Frequencies
  import opened GetProofs
  import opened Invariant
  import opened Keys
  import opened Protocol
  import opened PutProofs
  import opened Running
  import opened Seqs
  import opened Values

  // ---- runs ----

  // Every step of a run is enabled where it is taken, and that is all there is to a run.
  lemma {:induction false} RunIff(p: Params, ss: seq<State>, steps: seq<Step>)
    requires |ss| == |steps| + 1
    ensures Run(p, ss, steps)
       <==> forall i :: 0 <= i < |steps| ==> Enabled(p, ss[i], steps[i]) && ss[i + 1] == Next(p, ss[i], steps[i])
    decreases |steps|
  {
    hide Enabled, Next;
    if steps != [] {
      var n := |steps| - 1;
      var tt, ts := ss[..n + 1], steps[..n];
      RunIff(p, tt, ts);
      if Run(p, ss, steps) {
        assert RunAndStep(p, ss, steps) && Run(p, tt, ts);
        forall i | 0 <= i < |steps| ensures Enabled(p, ss[i], steps[i]) && ss[i + 1] == Next(p, ss[i], steps[i]) {
          if i < n {
            assert Enabled(p, tt[i], ts[i]) && tt[i + 1] == Next(p, tt[i], ts[i]);
          }
        }
      }
      if forall i :: 0 <= i < |steps| ==> Enabled(p, ss[i], steps[i]) && ss[i + 1] == Next(p, ss[i], steps[i]) {
        forall i | 0 <= i < n ensures Enabled(p, tt[i], ts[i]) && tt[i + 1] == Next(p, tt[i], ts[i]) {
          assert Enabled(p, ss[i], steps[i]) && ss[i + 1] == Next(p, ss[i], steps[i]);
        }
      }
    }
  }

  lemma RunAt(p: Params, ss: seq<State>, steps: seq<Step>, i: nat)
    requires Run(p, ss, steps) && i < |steps|
    ensures |ss| == |steps| + 1 && Enabled(p, ss[i], steps[i]) && ss[i + 1] == Next(p, ss[i], steps[i])
  {
    hide Enabled, Next;
    RunIff(p, ss, steps);
  }

  lemma RunLength(p: Params, ss: seq<State>, steps: seq<Step>)
    requires Run(p, ss, steps)
    ensures |ss| == |steps| + 1
  {
  }

  lemma RunStarts(p: Params, s: State)
    ensures Run(p, [s], [])
  {
  }

  lemma RunSnoc(p: Params, ss: seq<State>, steps: seq<Step>, step: Step)
    requires Run(p, ss, steps) && ss != [] && Enabled(p, ss[|ss| - 1], step)
    ensures Run(p, ss + [Next(p, ss[|ss| - 1], step)], steps + [step])
  {
    hide Enabled, Next;
    var n := |steps|;
    assert (ss + [Next(p, ss[|ss| - 1], step)])[..n + 1] == ss && (steps + [step])[..n] == steps;
  }

  lemma {:induction false} RunConcat(p: Params, ss: seq<State>, steps: seq<Step>, tt: seq<State>, more: seq<Step>)
    requires Run(p, ss, steps) && Run(p, tt, more) && ss[|steps|] == tt[0]
    ensures Run(p, ss + tt[1..], steps + more)
    decreases |more|
  {
    hide Enabled, Next;
    if more == [] {
      assert ss + tt[1..] == ss && steps + more == steps;
    } else {
      var n := |more| - 1;
      RunConcat(p, ss, steps, tt[..n + 1], more[..n]);
      var all := ss + tt[..n + 1][1..];
      assert all[|all| - 1] == tt[n];
      RunSnoc(p, all, steps + more[..n], more[n]);
      assert all + [tt[n + 1]] == ss + tt[1..];
      assert steps + more[..n] + [more[n]] == steps + more;
    }
  }

  lemma RunSuffix(p: Params, ss: seq<State>, steps: seq<Step>, i: nat)
    requires Run(p, ss, steps) && i < |ss|
    ensures Run(p, ss[i..], steps[i..])
  {
    hide Enabled, Next;
    RunIff(p, ss, steps);
    var tt, ts := ss[i..], steps[i..];
    forall j | 0 <= j < |ts| ensures Enabled(p, tt[j], ts[j]) && tt[j + 1] == Next(p, tt[j], ts[j]) {
      assert Enabled(p, ss[i + j], steps[i + j]) && ss[i + j + 1] == Next(p, ss[i + j], steps[i + j]);
    }
    RunIff(p, tt, ts);
  }

  // ---- the start ----

  // Where init leaves the proxy: every version 0, the cached records out of the store, everything else in it.
  ghost predicate IsInitial(p: Params, s: State) {
    && |s.freqs| == p.N && |s.fakes| == p.D && |s.cache| == p.C
    && (forall k :: k in s.freqs ==> s.freqs[k] == 0) && (forall k :: k in s.fakes ==> k.Fake? && s.fakes[k] == 0)
    && Indexed(s.freqs.Keys, s.stamps) && s.hist.Keys == s.freqs.Keys
    && (forall k :: k in s.hist ==> NulFree(s.hist[k]))
    && InvCache(s.freqs, s.cache, s.hist)
    && s.store.Keys == Live(s.freqs, s.cache, s.fakes) && s.written == s.store.Keys && s.read == {} && s.queue == []
    && InvStored(Resident(s.freqs, s.cache), s.freqs, s.store, s.hist)
    && InvNoise(s.fakes, s.store, p.objectSize)
    && s.evicted == map[] && s.tracker == Tracker({}, map[], map[], map[], map[])
    && s.pending == [] && s.ops == [] && s.slots == 0 && s.nextId == 0 && s.clock == 0 && s.asked == map[]
    && forall item :: item in p.base ==> |StampsOf(s.stamps, item)| >= p.base[item]
  }

  // An interleaving of requests, batches and background deletions that starts where init leaves the proxy.
  ghost predicate Execution(p: Params, ss: seq<State>, steps: seq<Step>) {
    Sane(p) && Run(p, ss, steps) && IsInitial(p, ss[0])
  }

  lemma InitialKeys(freqs: map<Key, int>, stamps: Stamps, hist: map<Key, Bytes>)
    requires Indexed(freqs.Keys, stamps) && hist.Keys == freqs.Keys && forall k :: k in hist ==> NulFree(hist[k])
    ensures InvKeys(freqs, stamps, hist) && InvWindow(freqs.Keys, hist.Keys)
  {
  }

  lemma InitialTags(freqs: map<Key, int>, cache: List, fakes: map<Key, int>, hist: map<Key, Bytes>, written: set<Tag>)
    requires (forall k :: k in freqs ==> k.Bucket? && freqs[k] == 0) && (forall k :: k in fakes ==> k.Fake? && fakes[k] == 0)
    requires hist.Keys == freqs.Keys && written == Live(freqs, cache, fakes) && KeySet(cache) <= freqs.Keys
    ensures InvWritten(freqs, KeySet(cache), hist.Keys, written) && InvFakes(fakes, written)
    ensures InvVersions(freqs, 0) && InvVersions(fakes, 0)
    ensures InvStore(Live(freqs, cache, fakes), written, [], written, {})
  {
  }

  lemma InitialRecency(freqs: map<Key, int>, cache: List)
    requires (forall k :: k in freqs ==> freqs[k] == 0) && KeySet(cache) <= freqs.Keys
    ensures InvRecency(freqs, cache)
  {
  }

  lemma InitialAges(p: Params, fakes: map<Key, int>)
    requires |fakes| == p.D && forall k :: k in fakes ==> fakes[k] == 0
    ensures InvFakeAges(p, fakes, 0)
  {
    forall j: nat ensures |Stale(fakes, 0 - j)| <= AgeLimit(p, j) {
      if j == 0 {
        AgeLimitStart(p);
        SubsetSize(Stale(fakes, 0), fakes.Keys);
      } else {
        assert Stale(fakes, 0 - j) == {};
      }
    }
  }

  lemma InitialRest(p: Params, s: State)
    requires IsInitial(p, s) && Sane(p)
    ensures InvRound(p, Resident(s.freqs, s.cache), s.tracker.running + s.tracker.waiting.Keys, s.ops, s.slots)
    ensures InvPending(s.freqs.Keys, s.tracker.running, Elems(s.pending))
    ensures InvTracker(s.tracker, Resident(s.freqs, s.cache), s.hist) && InvAsked(s.tracker, s.asked, s.nextId, s.hist)
    ensures InvCounts(p, |s.freqs|, |s.cache|, |Elems(s.pending)|) && InvBase(p.base, s.stamps, Elems(s.pending))
  {
    hide Indexed, InvCache, InvStored, Live;
    assert Elems(s.pending) == {};
  }

  lemma InitialInv(p: Params, s: State)
    requires IsInitial(p, s) && Sane(p)
    ensures Inv(p, s)
  {
    hide InvRecency, InvStored, InvStore, InvWritten, InvFakes, InvRound, InvKeys, InvVersions;
    hide InvPending, InvTracker, InvAsked, InvCounts, InvWindow, InvBase, InvFakeAges, InvNoise, Resident, Live;
    InitialKeys(s.freqs, s.stamps, s.hist);
    InitialTags(s.freqs, s.cache, s.fakes, s.hist, s.written);
    InitialRecency(s.freqs, s.cache);
    InitialAges(p, s.fakes);
    InitialRest(p, s);
  }

  // ---- every state of a run ----

  lemma NextKeeps(p: Params, s: State, step: Step)
    requires Inv(p, s) && Sane(p) && Enabled(p, s, step)
    ensures Inv(p, Next(p, s, step))
  {
    hide Inv, BatchOk, PutOk, Get, Put, Clear, Batch, SplitOf;
    match step
    case GetStep(item, lo, hi) => GetKeeps(p, s, item, lo, hi);
    case PutStep(k, v) => PutKeeps(p, s, k, v);
    case ClearStep => ClearKeeps(p, s, 1);
    case BatchStep(ch) => BatchKeepsInv(p, s, ch);
  }

  lemma {:induction false} RunKeeps(p: Params, ss: seq<State>, steps: seq<Step>, i: nat)
    requires Run(p, ss, steps) && Inv(p, ss[0]) && Sane(p) && i < |ss|
    ensures Inv(p, ss[i])
  {
    hide Inv, Enabled, Next;
    if i > 0 {
      RunKeeps(p, ss, steps, i - 1);
      RunAt(p, ss, steps, i - 1);
      NextKeeps(p, ss[i - 1], steps[i - 1]);
    }
  }

  // ---- history only grows ----

  ghost predicate Grows(s: State, t: State) {
    && s.written <= t.written && s.read <= t.read && s.nextId <= t.nextId && s.clock <= t.clock
    && (forall k :: k in s.hist ==> k in t.hist && t.hist[k] == s.hist[k])
    && (forall r :: r in s.asked && r < s.nextId ==> r in t.asked && t.asked[r] == s.asked[r])
    && (forall r :: r in s.tracker.answers ==> r in t.tracker.answers && t.tracker.answers[r] == s.tracker.answers[r])
  }

  lemma {:induction false} SubGetsAnswers(s: State, r: nat, keys: seq<Key>, n: nat)
    requires n <= |keys|
    ensures SubGets(s, r, keys, n).tracker.answers == s.tracker.answers
  {
    if n != 0 {
      SubGetsAnswers(s, r, keys, n - 1);
    }
  }

  lemma GetGrows(p: Params, s: State, item: Item, lo: int, hi: int)
    requires Inv(p, s)
    ensures Grows(s, Get(s, item, lo, hi))
  {
    hide Inv, SplitOf, SubGets, Touch;
    TouchKeeps(p, s, item);
    GetFields(s, item, lo, hi);
    var keys := SplitOf(s, item, lo, hi);
    SubGetsAnswers(s.(stamps := Touch(s.stamps, item), nextId := s.nextId + 1), s.nextId, keys, |keys|);
  }

  lemma PutGrows(p: Params, s: State, k: Key, v: Bytes)
    requires PutOk(s, k, v)
    ensures Grows(s, Put(s, k, v))
  {
    hide Oldest, PlaceOf, Requested, DropStamp, AddStamp, Erase, StampsOf;
    VictimShape(s.stamps, k.item);
  }

  // What a PUT leaves alone.
  lemma PutFields(s: State, k: Key, v: Bytes)
    requires PutOk(s, k, v)
    ensures k.Bucket? && StampsOf(s.stamps, k.item) != {}
    ensures var t := Put(s, k, v); t.fakes == s.fakes && t.clock == s.clock && t.asked == s.asked
  {
    hide Oldest, PlaceOf, Requested, DropStamp, AddStamp, Erase, StampsOf;
    VictimShape(s.stamps, k.item);
  }

  lemma AnswersStay(p: Params, s: State)
    requires Inv(p, s)
    ensures forall r :: r in s.tracker.answers ==> r !in s.tracker.requests
  {
    hide InvKeys, InvCache, InvVersions, InvRecency, InvStored, InvStore, InvWritten, InvFakes, InvRound;
    hide InvPending, InvTracker, InvCounts, InvWindow, InvBase, InvFakeAges, InvNoise, Resident, Live;
  }

  lemma AnswersKept(p: Params, s: State, ch: Choices)
    requires Inv(p, s) && BatchOk(p, s, ch)
    ensures var t := Batch(p, s, ch).tracker;
            forall r :: r in s.tracker.answers ==> r in t.answers && t.answers[r] == s.tracker.answers[r]
  {
    hide Inv;
    AnswersStay(p, s);
    BatchReadyOnly(p, s, ch);
    hide BatchOk, FreqsAfter, FakesAfter, Through, WriteTags, ReadTags, DropStamps, Fetched, Without, PutAll, Ready;
  }

  lemma HistoryKept(p: Params, s: State, ch: Choices)
    requires BatchOk(p, s, ch)
    ensures var t := Batch(p, s, ch);
            && t.written == s.written + Elems(WriteTags(s, ch)) && t.read == s.read + Elems(ReadTags(s, ch)) && t.nextId == s.nextId && t.clock == s.clock + 1
            && t.hist == s.hist && t.asked == s.asked
  {
    BatchReadyOnly(p, s, ch);
    hide BatchOk, FreqsAfter, FakesAfter, Through, WriteTags, ReadTags, DropStamps, Fetched, Without, PutAll, Ready, AnswerAll;
  }

  lemma BatchGrows(p: Params, s: State, ch: Choices)
    requires Inv(p, s) && BatchOk(p, s, ch)
    ensures Grows(s, Batch(p, s, ch))
  {
    hide Inv, BatchOk, Batch;
    HistoryKept(p, s, ch);
    AnswersKept(p, s, ch);
  }

  lemma BatchReadyOnly(p: Params, s: State, ch: Choices)
    requires BatchOk(p, s, ch)
    ensures Ready(s.tracker.requests.Keys, s.tracker.requests, s.tracker.got + Fetched(s, Reads(s, ch)))
    ensures ch.pops <= |s.queue|
  {
  }

  lemma NextGrows(p: Params, s: State, step: Step)
    requires Inv(p, s) && Enabled(p, s, step)
    ensures Grows(s, Next(p, s, step))
  {
    hide Inv, BatchOk, PutOk, Get, Put, Batch, SplitOf, Grows;
    match step
    case GetStep(item, lo, hi) => GetGrows(p, s, item, lo, hi);
    case PutStep(k, v) => PutGrows(p, s, k, v);
    case ClearStep => ClearGrows(s);
    case BatchStep(ch) => BatchGrows(p, s, ch);
  }

  lemma ClearGrows(s: State)
    requires s.queue != []
    ensures Grows(s, Clear(s, 1))
  {
  }

  lemma GrowsTrans(s: State, t: State, u: State)
    requires Grows(s, t) && Grows(t, u)
    ensures Grows(s, u)
  {
  }

  lemma {:induction false} RunGrows(p: Params, ss: seq<State>, steps: seq<Step>, i: nat, j: nat)
    requires Run(p, ss, steps) && Inv(p, ss[0]) && Sane(p) && i <= j < |ss|
    ensures Grows(ss[i], ss[j])
  {
    hide Inv, Enabled, Next;
    if i == j {
      GrowsSelf(ss[i]);
    } else {
      RunGrows(p, ss, steps, i, j - 1);
      RunKeeps(p, ss, steps, j - 1);
      RunAt(p, ss, steps, j - 1);
      NextGrows(p, ss[j - 1], steps[j - 1]);
      hide Grows;
      GrowsTrans(ss[i], ss[j - 1], ss[j]);
    }
  }

  lemma GrowsSelf(s: State)
    ensures Grows(s, s)
  {
  }
}
