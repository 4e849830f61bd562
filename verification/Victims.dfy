// Which records a PUT removes, and when they go.
module Victims {
  import opened Caches
  import opened Frequencies
  import opened GetProofs
  import opened Invariant
  import opened Keys
  import opened Protocol
  import opened PutProofs
  import opened Refinement
  import opened Runs
  import opened Seqs
  import opened Traffic
  import opened Values

  // A live bucket, and no live bucket of its item is older.
  ghost predicate OldestLive(live: set<Key>, v: Key) {
    v in live && v.Bucket? && forall q :: q in live && q.Bucket? && q.item == v.item ==> v.ts <= q.ts
  }

  // A record that was inserted once and is on its way out: gone, or registered to be dropped.
  ghost predicate Leaving(s: State, v: Key) {
    v in s.hist && (v in s.freqs ==> v in Elems(s.pending))
  }

  lemma OldestOfIndex(live: set<Key>, stamps: Stamps, v: Key)
    requires Indexed(live, stamps) && v.Bucket? && StampsOf(stamps, v.item) != {}
    ensures OldestLive(live, v) <==> Oldest(stamps, v.item) == v
  {
    var o := Oldest(stamps, v.item);
    assert o in live && o.ts in stamps[v.item];
  }

  lemma IndexOfState(p: Params, s: State)
    requires Inv(p, s)
    ensures Indexed(s.freqs.Keys, s.stamps) && s.freqs.Keys <= s.hist.Keys
  {
    hide InvCache, InvVersions, InvRecency, InvStored, InvStore, InvWritten, InvFakes, InvRound, Indexed;
    hide InvPending, InvTracker, InvAsked, InvCounts, InvWindow, InvBase, InvFakeAges, InvNoise, Resident, Live;
  }

  // What a PUT does to its victim.
  lemma PutVictim(p: Params, s: State, k: Key, x: Bytes, v: Key)
    requires Inv(p, s) && PutOk(s, k, x) && v.Bucket? && v.item == k.item && OldestLive(s.freqs.Keys, v)
    ensures Leaving(Put(s, k, x), v) && (v in Put(s, k, x).freqs <==> v !in KeySet(s.cache))
  {
    hide Inv, Put, KeySet, Indexed, OldestLive;
    IndexOfState(p, s);
    OldestOfIndex(s.freqs.Keys, s.stamps, v);
    PutFreqs(p, s, k, x);
    PutPending(p, s, k, x);
    FreshPut(p, s, k, x);
    assert v in s.freqs.Keys by {
      LiveVictim(s.freqs.Keys, v);
    }
  }

  lemma LiveVictim(live: set<Key>, v: Key)
    requires OldestLive(live, v)
    ensures v in live
  {
  }

  // What a PUT registers.
  lemma PutPending(p: Params, s: State, k: Key, x: Bytes)
    requires Inv(p, s) && PutOk(s, k, x)
    ensures var victim := Oldest(s.stamps, k.item);
            Elems(Put(s, k, x).pending) == Elems(s.pending) + (if victim in KeySet(s.cache) then {} else {victim})
  {
    hide Inv;
    VictimIsCachedOrResident(p, s, k.item);
    VictimShape(s.stamps, k.item);
    hide Oldest, PlaceOf, Requested, DropStamp, AddStamp, Erase, KeySet, StampsOf, Elems;
    ElemsConcat(s.pending, [Oldest(s.stamps, k.item)]);
    OneElem(Oldest(s.stamps, k.item));
  }

  lemma OneElem(k: Key)
    ensures Elems([k]) == {k}
  {
  }

  // What a step other than a batch leaves of a leaving record.
  lemma LeavingStays(p: Params, s: State, step: Step, v: Key)
    requires Inv(p, s) && Enabled(p, s, step) && !step.BatchStep? && Leaving(s, v)
    ensures Leaving(Next(p, s, step), v)
  {
    hide Inv, Get, Put, SplitOf, PutOk, Elems, Oldest, KeySet;
    match step
    case GetStep(item, lo, hi) =>
      TouchKeeps(p, s, item);
      GetFields(s, item, lo, hi);
    case PutStep(k, x) =>
      PutFreqs(p, s, k, x);
      PutPending(p, s, k, x);
      FreshPut(p, s, k, x);
    case ClearStep =>
  }

  // A batch drops it for good.
  lemma LeavingGoes(p: Params, s: State, ch: Choices, v: Key)
    requires Inv(p, s) && BatchOk(p, s, ch) && Leaving(s, v)
    ensures var t := Batch(p, s, ch); v in t.hist && v !in t.freqs
  {
    hide Inv, BatchOk, Batch, Elems;
    BatchRecords(p, s, ch);
  }

  lemma GoneStays(p: Params, s: State, step: Step, v: Key)
    requires Inv(p, s) && Enabled(p, s, step) && v in s.hist && v !in s.freqs
    ensures v in Next(p, s, step).hist && v !in Next(p, s, step).freqs
  {
    hide Inv, Get, Put, Batch, SplitOf, PutOk, BatchOk, Elems, Oldest, KeySet;
    match step
    case GetStep(item, lo, hi) =>
      TouchKeeps(p, s, item);
      GetFields(s, item, lo, hi);
    case PutStep(k, x) =>
      PutFreqs(p, s, k, x);
      FreshPut(p, s, k, x);
    case ClearStep =>
    case BatchStep(ch) => BatchRecords(p, s, ch);
  }

  // ---- over a run ----

  lemma {:induction false} LeavingUntil(p: Params, ss: seq<State>, steps: seq<Step>, i: nat, j: nat, v: Key)
    requires Run(p, ss, steps) && Inv(p, ss[0]) && Sane(p) && i <= j < |ss| && Leaving(ss[i], v)
    ensures Leaving(ss[j], v)
  {
    hide Inv, Run, Enabled, Next, Elems, Batch, BatchOk;
    RunLength(p, ss, steps);
    if i < j {
      LeavingUntil(p, ss, steps, i, j - 1, v);
      RunKeeps(p, ss, steps, j - 1);
      RunAt(p, ss, steps, j - 1);
      if steps[j - 1].BatchStep? {
        BatchOfStep(p, ss[j - 1], steps[j - 1]);
        LeavingGoes(p, ss[j - 1], steps[j - 1].ch, v);
      } else {
        LeavingStays(p, ss[j - 1], steps[j - 1], v);
      }
    }
  }

  lemma BatchOfStep(p: Params, s: State, step: Step)
    requires Enabled(p, s, step) && step.BatchStep?
    ensures BatchOk(p, s, step.ch) && Next(p, s, step) == Batch(p, s, step.ch)
  {
    hide BatchOk, Batch;
  }

  // Once a PUT has found v to be the oldest of its item, v is gone from the next batch on.
  lemma {:induction false} GoneAfter(p: Params, ss: seq<State>, steps: seq<Step>, i: nat, j: nat, m: nat, v: Key)
    requires Run(p, ss, steps) && Inv(p, ss[0]) && Sane(p) && i <= j < m < |ss| && steps[j].BatchStep? && Leaving(ss[i], v)
    ensures v in ss[m].hist && v !in ss[m].freqs
  {
    hide Inv, Run, Enabled, Next, Elems, Batch, BatchOk, Leaving;
    RunLength(p, ss, steps);
    RunKeeps(p, ss, steps, m - 1);
    RunAt(p, ss, steps, m - 1);
    if m == j + 1 {
      LeavingUntil(p, ss, steps, i, j, v);
      BatchOfStep(p, ss[j], steps[j]);
      LeavingGoes(p, ss[j], steps[j].ch, v);
    } else {
      GoneAfter(p, ss, steps, i, j, m - 1, v);
      GoneStays(p, ss[m - 1], steps[m - 1], v);
    }
  }

  // ---- and nothing else is removed ----

  // A PUT that finds v to be the oldest live bucket of its item.
  ghost predicate Evicts(s: State, step: Step, v: Key) {
    step.PutStep? && step.key.Bucket? && v.Bucket? && step.key.item == v.item && OldestLive(s.freqs.Keys, v)
  }

  lemma VictimOfPut(p: Params, s: State, k: Key, x: Bytes)
    requires Inv(p, s) && PutOk(s, k, x)
    ensures Evicts(s, PutStep(k, x), Oldest(s.stamps, k.item))
  {
    hide Inv, Indexed, OldestLive;
    IndexOfState(p, s);
    VictimShape(s.stamps, k.item);
    OldestOfIndex(s.freqs.Keys, s.stamps, Oldest(s.stamps, k.item));
  }

  lemma OneVictim(p: Params, s: State, k: Key, x: Bytes)
    requires Inv(p, s) && PutOk(s, k, x)
    ensures forall v :: Evicts(s, PutStep(k, x), v) ==> v == Oldest(s.stamps, k.item)
  {
    hide Inv, Indexed, OldestLive;
    IndexOfState(p, s);
    forall v | Evicts(s, PutStep(k, x), v) ensures v == Oldest(s.stamps, k.item) {
      OldestOfIndex(s.freqs.Keys, s.stamps, v);
    }
  }

  // A record goes at the PUT that removes it, or at a batch when it is registered.
  lemma Goes(p: Params, s: State, step: Step, v: Key)
    requires Inv(p, s) && Enabled(p, s, step) && v in s.freqs && v !in Next(p, s, step).freqs
    ensures Evicts(s, step, v) || (step.BatchStep? && v in Elems(s.pending))
  {
    hide Inv, Get, Put, Batch, SplitOf, PutOk, BatchOk, Elems, Oldest, KeySet, Evicts;
    match step
    case GetStep(item, lo, hi) =>
      TouchKeeps(p, s, item);
      GetFields(s, item, lo, hi);
    case PutStep(k, x) =>
      PutFreqs(p, s, k, x);
      VictimOfPut(p, s, k, x);
    case ClearStep =>
    case BatchStep(ch) => BatchRecords(p, s, ch);
  }

  // A record that is registered after a step was so before, or the step is the PUT that registers it.
  lemma Registers(p: Params, s: State, step: Step, v: Key)
    requires Inv(p, s) && Enabled(p, s, step) && v in Elems(Next(p, s, step).pending)
    ensures !step.BatchStep? && (v in Elems(s.pending) || Evicts(s, step, v))
  {
    hide Inv, Get, Put, Batch, SplitOf, PutOk, BatchOk, Oldest, KeySet, Evicts;
    match step
    case GetStep(item, lo, hi) =>
      TouchKeeps(p, s, item);
      GetFields(s, item, lo, hi);
    case PutStep(k, x) =>
      hide Elems;
      PutPending(p, s, k, x);
      VictimOfPut(p, s, k, x);
    case ClearStep =>
    case BatchStep(ch) => Quiescence(p, s, ch);
  }

  lemma {:induction false} RegisteredBy(p: Params, ss: seq<State>, steps: seq<Step>, j: nat, v: Key) returns (i: nat)
    requires Run(p, ss, steps) && Inv(p, ss[0]) && Sane(p) && ss[0].pending == [] && j < |ss| && v in Elems(ss[j].pending)
    ensures i < j && Evicts(ss[i], steps[i], v) && forall n :: i <= n < j ==> !steps[n].BatchStep?
  {
    hide Inv, Run, Enabled, Next, Evicts;
    RunLength(p, ss, steps);
    if j == 0 {
      assert false;
    }
    RunKeeps(p, ss, steps, j - 1);
    RunAt(p, ss, steps, j - 1);
    Registers(p, ss[j - 1], steps[j - 1], v);
    if v in Elems(ss[j - 1].pending) {
      i := RegisteredBy(p, ss, steps, j - 1, v);
    } else {
      i := j - 1;
    }
  }

  // A record that goes at step j goes for a PUT of its item that found it to be the oldest: step j itself, or one that came
  // earlier in the round that step j ends.
  lemma RemovedBy(p: Params, ss: seq<State>, steps: seq<Step>, j: nat, v: Key) returns (i: nat)
    requires Run(p, ss, steps) && Inv(p, ss[0]) && Sane(p) && ss[0].pending == [] && j < |steps|
    requires |ss| == |steps| + 1 && v in ss[j].freqs && v !in ss[j + 1].freqs
    ensures i <= j && Evicts(ss[i], steps[i], v) && (i == j || steps[j].BatchStep?)
    ensures forall n :: i <= n < j ==> !steps[n].BatchStep?
  {
    hide Inv, Run, Enabled, Next, Evicts, Elems;
    RunKeeps(p, ss, steps, j);
    RunAt(p, ss, steps, j);
    Goes(p, ss[j], steps[j], v);
    if Evicts(ss[j], steps[j], v) {
      i := j;
    } else {
      i := RegisteredBy(p, ss, steps, j, v);
    }
  }
}
