// What stays: the sliding window of every item, and a padding that leaves nothing to chance.
module Retention {
  import opened Frequencies
  import opened Invariant
  import opened Keys
  import opened Protocol
  import opened Runs
  import opened Seqs
  import opened Starting

  // An item never has fewer buckets than it started with.
  lemma BucketsKept(p: Params, s: State, item: Item)
    requires Inv(p, s) && item in p.base
    ensures |BucketTimes(s.freqs.Keys, item)| >= p.base[item]
  {
    hide InvCache, InvVersions, InvRecency, InvStored, InvStore, InvWritten, InvFakes, InvRound, Indexed, BucketTimes;
    hide InvPending, InvTracker, InvAsked, InvCounts, InvWindow, InvFakeAges, InvNoise, Resident, Live;
    IndexedTimes(s.freqs.Keys, s.stamps, item);
  }

  lemma WindowOf(p: Params, s: State, k: Key, q: Key)
    requires Inv(p, s) && k in s.hist && k !in s.freqs && q in s.freqs && k.Bucket? && q.Bucket? && k.item == q.item
    ensures k.ts < q.ts
  {
    hide InvKeys, InvCache, InvVersions, InvRecency, InvStored, InvStore, InvWritten, InvFakes, InvRound;
    hide InvPending, InvTracker, InvAsked, InvCounts, InvBase, InvFakeAges, InvNoise, Resident, Live;
  }

  lemma LiveWasInserted(p: Params, s: State)
    requires Inv(p, s)
    ensures s.freqs.Keys <= s.hist.Keys && forall k :: k in s.freqs ==> k.Bucket?
  {
    hide InvCache, InvVersions, InvRecency, InvStored, InvStore, InvWritten, InvFakes, InvRound, Indexed;
    hide InvPending, InvTracker, InvAsked, InvCounts, InvWindow, InvBase, InvFakeAges, InvNoise, Resident, Live;
  }

  // A bucket that was live at some time of a run and no longer is, is older than every bucket of its item that is live now.
  lemma SlidingWindow(p: Params, ss: seq<State>, steps: seq<Step>, i: nat, j: nat, k: Key, q: Key)
    requires Run(p, ss, steps) && Inv(p, ss[0]) && Sane(p) && i <= j < |ss|
    requires k in ss[i].freqs && k !in ss[j].freqs && q in ss[j].freqs && k.Bucket? && q.Bucket? && k.item == q.item
    ensures k.ts < q.ts
  {
    hide Inv, Run, Enabled, Next;
    RunKeeps(p, ss, steps, i);
    RunKeeps(p, ss, steps, j);
    RunGrows(p, ss, steps, i, j);
    LiveWasInserted(p, ss[i]);
    WindowOf(p, ss[j], k, q);
  }

  // The start of a pool in (frequency, key) order is unique: neither padding scan has a choice.
  lemma {:induction false} ScanUnique(m: map<Key, int>, pool: set<Key>, a: seq<Key>, b: seq<Key>, n: nat)
    requires IsScan(m, pool, a) && IsScan(m, pool, b) && |a| == |b| && n <= |a|
    ensures a[..n] == b[..n]
  {
    if n > 0 {
      ScanUnique(m, pool, a, b, n - 1);
      var i := n - 1;
      var x, y := Entry(a[i], FreqOf(m, a[i])), Entry(b[i], FreqOf(m, b[i]));
      FreqCmpTotal(x, y);
      NotBefore(m, pool, a, b, i);
      NotBefore(m, pool, b, a, i);
      assert a[..n] == a[..i] + [a[i]] && b[..n] == b[..i] + [b[i]];
    }
  }

  lemma NotBefore(m: map<Key, int>, pool: set<Key>, a: seq<Key>, b: seq<Key>, i: nat)
    requires IsScan(m, pool, a) && IsScan(m, pool, b) && i < |a| && i < |b| && a[..i] == b[..i]
    ensures !FreqCmp(Entry(a[i], FreqOf(m, a[i])), Entry(b[i], FreqOf(m, b[i])))
  {
    var x, y := Entry(a[i], FreqOf(m, a[i])), Entry(b[i], FreqOf(m, b[i]));
    assert a[i] in Elems(a) && b[i] in Elems(b);
    assert forall h :: 0 <= h < i ==> a[..i][h] == a[h] && b[..i][h] == b[h];
    if j :| 0 <= j < |b| && b[j] == a[i] {
      assert x == y || FreqCmp(y, x);
    } else {
      assert FreqCmp(y, x);
    }
    if FreqCmp(x, y) {
      FreqCmpAsymmetric(x, y);
    }
  }
}
