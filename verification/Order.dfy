// In what order things come and go: pairs through the cache, tags through the deletion queue, versions and operations.
module Order {
  import opened BatchKeeps
  import opened BatchProofs
  import opened Caches
  import opened Frequencies
  import opened GetProofs
  import opened Invariant
  import opened Keys
  import opened Protocol
  import opened PutProofs
  import opened Refinement
  import opened Running
  import opened Runs
  import opened Seqs
  import opened Splits
  import opened Traffic
  import opened Values

  // ---- the cache is a queue ----

  // a will be evicted before b.
  ghost predicate Before(q: List, a: Key, b: Key) {
    exists x, y :: 0 <= x < y < |q| && q[x].key == a && q[y].key == b
  }

  // A key that a batch reads and does not drop.
  predicate Enters(s: State, ch: Choices, k: Key) {
    k in Reads(s, ch) && k !in s.pending
  }

  // a comes before b in a batch: in the cache, or because only b is new to it, or because it is read first.
  ghost predicate Precedes(s: State, ch: Choices, a: Key, b: Key) {
    || Before(s.cache, a, b)
    || (a in KeySet(s.cache) && Enters(s, ch, b))
    || (Enters(s, ch, a) && Enters(s, ch, b)
        && exists x, y :: 0 <= x < y < |Reads(s, ch)| && Reads(s, ch)[x] == a && Reads(s, ch)[y] == b)
  }

  lemma BeforeConcat(q: List, r: List, a: Key, b: Key)
    ensures Before(q, a, b) || Before(r, a, b) || (a in KeySet(q) && b in KeySet(r)) ==> Before(q + r, a, b)
  {
    var s := q + r;
    assert forall i :: 0 <= i < |q| ==> s[i] == q[i];
    assert forall i :: 0 <= i < |r| ==> s[|q| + i] == r[i];
    if x, y :| 0 <= x < y < |r| && r[x].key == a && r[y].key == b {
      assert s[|q| + x].key == a && s[|q| + y].key == b;
    }
    if a in KeySet(q) && b in KeySet(r) {
      var x :| 0 <= x < |q| && q[x].key == a;
      var y :| 0 <= y < |r| && r[y].key == b;
      assert s[x].key == a && s[|q| + y].key == b;
    }
  }

  lemma {:induction false} KeptBefore(keys: seq<Key>, vals: map<Key, Bytes>, drop: set<Key>, x: nat, y: nat)
    requires x < y < |keys| && Distinct(keys) && Elems(keys) <= vals.Keys && keys[x] !in drop && keys[y] !in drop
    ensures Before(Kept(keys, vals, drop), keys[x], keys[y])
  {
    var n := |keys| - 1;
    var k := keys[n];
    var front := Kept(keys[..n], vals, drop);
    assert keys == keys[..n] + [k];
    ElemsConcat(keys[..n], [k]);
    if y < n {
      KeptBefore(keys[..n], vals, drop, x, y);
      BeforeConcat(front, [Pair(k, vals[k])], keys[x], keys[y]) by {
        assert k in Elems(keys);
      }
    } else {
      KeptKeys(keys[..n], vals, drop);
      assert keys[..n][x] == keys[x];
      assert k in Elems(keys);
      var last := [Pair(k, vals[k])];
      assert last[0].key in KeySet(last);
      BeforeConcat(front, last, keys[x], keys[y]);
    }
  }

  lemma BackOfQueue(q: List, n: nat, a: Key, b: Key)
    requires DistinctKeys(q) && n <= |q| && Before(q, a, b) && a in KeySet(q[n..])
    ensures Before(q[n..], a, b)
  {
    var x, y :| 0 <= x < y < |q| && q[x].key == a && q[y].key == b;
    var i :| 0 <= i < |q[n..]| && q[n..][i].key == a;
    assert q[n + i].key == a && n + i == x;
    assert q[n..][y - n].key == b;
  }

  lemma PassesInOrder(p: Params, s: State, ch: Choices, a: Key, b: Key)
    requires Ripe(p, s, ch) && Precedes(s, ch, a, b)
    ensures DistinctKeys(Through(s, ch)) && Before(Through(s, ch), a, b)
  {
    hide Fetched, Before, Kept, DistinctKeys, Resident;
    var vals, drop := Fetched(s, Reads(s, ch)), Elems(s.pending);
    var kept := Kept(Reads(s, ch), vals, drop);
    BeforeConcat(s.cache, kept, a, b);
    if !Before(s.cache, a, b) {
      assert b in KeySet(kept);
      if a !in KeySet(s.cache) {
        var x, y :| 0 <= x < y < |Reads(s, ch)| && Reads(s, ch)[x] == a && Reads(s, ch)[y] == b;
        KeptBefore(Reads(s, ch), vals, drop, x, y);
      }
    }
  }

  // A batch evicts from the front: whatever stays, all that came after it stays, in the same order.
  lemma BatchOrder(p: Params, s: State, ch: Choices, a: Key, b: Key)
    requires Inv(p, s) && BatchOk(p, s, ch)
    ensures var t := Batch(p, s, ch);
            && (Precedes(s, ch, a, b) && a in KeySet(t.cache) ==> Before(t.cache, a, b))
            && KeySet(t.cache) <= KeySet(s.cache) + Elems(Reads(s, ch)) - Elems(s.pending)
            && |t.cache| + |Elems(s.pending)| == |s.cache|
  {
    hide Inv, BatchOk, Batch, Ripe, Precedes, Before, Through, DistinctKeys;
    FactsOfBatch(p, s, ch);
    BatchCache(p, s, ch);
    CacheSources(p, s, ch);
    if Precedes(s, ch, a, b) && a in KeySet(Batch(p, s, ch).cache) {
      PassesInOrder(p, s, ch, a, b);
      BackOfQueue(Through(s, ch), |Reads(s, ch)|, a, b);
    }
  }

  lemma BatchCache(p: Params, s: State, ch: Choices)
    requires BatchOk(p, s, ch)
    ensures |Reads(s, ch)| <= |Through(s, ch)| && Batch(p, s, ch).cache == Through(s, ch)[|Reads(s, ch)|..]
  {
    BatchReadyOnly(p, s, ch);
    hide FreqsAfter, FakesAfter, Through, WriteTags, ReadTags, DropStamps, Fetched, Without, PutAll, Ready, AnswerAll, IsScan, Wraps;
  }

  lemma CacheSources(p: Params, s: State, ch: Choices)
    requires Ripe(p, s, ch)
    ensures var left := Through(s, ch)[|Reads(s, ch)|..];
            KeySet(left) <= KeySet(s.cache) + Elems(Reads(s, ch)) - Elems(s.pending) && |left| + |Elems(s.pending)| == |s.cache|
  {
    hide Fetched, Kept, Resident, KeySet, DistinctKeys;
    var kept := Kept(Reads(s, ch), Fetched(s, Reads(s, ch)), Elems(s.pending));
    SplitKeySets(Through(s, ch), |Reads(s, ch)|);
    KeySetConcat(s.cache, kept);
    PendingOutside(p, s, ch);
  }

  lemma PendingOutside(p: Params, s: State, ch: Choices)
    requires Ripe(p, s, ch)
    ensures KeySet(s.cache) !! Elems(s.pending)
  {
    hide Fetched, Kept, KeySet, DistinctKeys;
  }

  lemma {:induction false} KeptFrom(keys: seq<Key>, vals: map<Key, Bytes>, drop: set<Key>, x: nat)
    requires x < |Kept(keys, vals, drop)|
    ensures Kept(keys, vals, drop)[x].key in keys && Kept(keys, vals, drop)[x].key !in drop
  {
    var n := |keys| - 1;
    if x < |Kept(keys[..n], vals, drop)| {
      KeptFrom(keys[..n], vals, drop, x);
    }
  }

  lemma {:induction false} KeptInOrder(keys: seq<Key>, vals: map<Key, Bytes>, drop: set<Key>, x: nat, y: nat) returns (a: nat, b: nat)
    requires x < y < |Kept(keys, vals, drop)|
    ensures a < b < |keys| && keys[a] == Kept(keys, vals, drop)[x].key && keys[b] == Kept(keys, vals, drop)[y].key
  {
    var n := |keys| - 1;
    var front := Kept(keys[..n], vals, drop);
    if y < |front| {
      a, b := KeptInOrder(keys[..n], vals, drop, x, y);
    } else {
      KeptFrom(keys[..n], vals, drop, x);
      a :| 0 <= a < n && keys[..n][a] == front[x].key;
      b := n;
    }
  }

  // Pairs leave the cache in the order in which they came.
  lemma EvictedInOrder(p: Params, s: State, ch: Choices, x: nat, y: nat)
    requires Ripe(p, s, ch) && x < y < |Through(s, ch)|
    ensures Precedes(s, ch, Through(s, ch)[x].key, Through(s, ch)[y].key)
  {
    hide Fetched, Kept, DistinctKeys, Resident, BatchFacts;
    var vals, drop, c := Fetched(s, Reads(s, ch)), Elems(s.pending), |s.cache|;
    var full := Through(s, ch);
    if y < c {
      assert s.cache[x].key == full[x].key && s.cache[y].key == full[y].key;
    } else {
      KeptFrom(Reads(s, ch), vals, drop, y - c);
      if x < c {
        assert s.cache[x].key == full[x].key;
      } else {
        KeptFrom(Reads(s, ch), vals, drop, x - c);
        var a, b := KeptInOrder(Reads(s, ch), vals, drop, x - c, y - c);
      }
    }
  }

  // What a batch reads: what the round asked for, then the padding, then fake records, all under their current tags.
  lemma ReadTagAt(p: Params, s: State, ch: Choices, x: nat)
    requires BatchOk(p, s, ch) && x < p.B
    ensures |ReadTags(s, ch)| == p.B
    ensures var n := |s.ops| + |ch.chosen|;
            ReadTags(s, ch)[x] == if x < |s.ops| then TagOf(s.freqs, s.ops[x])
                                  else if x < n then TagOf(s.freqs, ch.chosen[x - |s.ops|])
                                  else TagOf(s.fakes, ch.fakeKeys[x - n])
  {
    hide Through, Evictions, IsScan, TagOf, Wraps, WrapsNoise, Ready;
  }

  // What a batch writes: the pairs it evicts, then the fake records it read, all under their new tags.
  lemma WriteTagAt(p: Params, s: State, ch: Choices, x: nat)
    requires Inv(p, s) && BatchOk(p, s, ch) && x < p.B
    ensures |WriteTags(s, ch)| == p.B
    ensures var n, t := |Reads(s, ch)|, WriteTags(s, ch)[x];
            && (x < n ==>
                  && t.version == VersionAfter(s, BatchStep(ch), t.key) && t.key !in KeySet(Batch(p, s, ch).cache)
                  && forall y :: x < y < n ==> Precedes(s, ch, t.key, WriteTags(s, ch)[y].key))
            && (x >= n ==> x - n < |ch.fakeKeys| && t == Tag(ch.fakeKeys[x - n], s.clock + 1))
  {
    hide Inv, BatchOk, Batch, Ripe, WriteTags, Through, Precedes, KeySet, FreqsAfter;
    FactsOfBatch(p, s, ch);
    BatchCache(p, s, ch);
    FakeTagsAt(p, s, ch);
    var n := |Reads(s, ch)|;
    if x < n {
      EvictedTags(p, s, ch, x);
      forall y | x < y < n ensures Precedes(s, ch, WriteTags(s, ch)[x].key, WriteTags(s, ch)[y].key) {
        EvictedTags(p, s, ch, y);
        EvictedInOrder(p, s, ch, x, y);
      }
    }
  }

  lemma FakeTagsAt(p: Params, s: State, ch: Choices)
    requires Ripe(p, s, ch)
    ensures |WriteTags(s, ch)| == p.B == |Reads(s, ch)| + |ch.fakeKeys|
    ensures forall j :: 0 <= j < |ch.fakeKeys| ==> WriteTags(s, ch)[|Reads(s, ch)| + j] == Tag(ch.fakeKeys[j], s.clock + 1)
  {
    hide Kept, Fetched, Passing, Through, WriteTags, KeySet, Resident, TagOf, FakesAfter;
    FakeTagsBack(p, s, ch);
    FakeVersions(s, ch);
  }

  lemma FakeVersions(s: State, ch: Choices)
    ensures forall j :: 0 <= j < |ch.fakeKeys| ==> TagOf(FakesAfter(s, ch), ch.fakeKeys[j]) == Tag(ch.fakeKeys[j], s.clock + 1)
  {
    assert forall j :: 0 <= j < |ch.fakeKeys| ==> ch.fakeKeys[j] in Elems(ch.fakeKeys);
  }

  lemma EvictedTags(p: Params, s: State, ch: Choices, x: nat)
    requires Ripe(p, s, ch) && x < |Reads(s, ch)|
    ensures |WriteTags(s, ch)| == p.B >= |Reads(s, ch)| && WriteTags(s, ch)[x].key == Through(s, ch)[x].key
    ensures WriteTags(s, ch)[x].version == VersionAfter(s, BatchStep(ch), Through(s, ch)[x].key)
    ensures Through(s, ch)[x].key !in KeySet(Through(s, ch)[|Reads(s, ch)|..])
  {
    WriteTagsFront(p, s, ch);
    EvictedVersion(p, s, ch, x);
    SplitKeySets(Through(s, ch), |Reads(s, ch)|) by {
      ThroughDistinct(p, s, ch);
    }
    hide Ripe, Through, WriteTags, FreqsAfter;
    var ev := Through(s, ch)[..|Reads(s, ch)|];
    assert ev[x].key in KeySet(ev);
  }

  lemma ThroughDistinct(p: Params, s: State, ch: Choices)
    requires Ripe(p, s, ch)
    ensures DistinctKeys(Through(s, ch))
  {
    hide Fetched, Kept, DistinctKeys, Resident;
  }

  lemma EvictedVersion(p: Params, s: State, ch: Choices, x: nat)
    requires Ripe(p, s, ch) && x < |Reads(s, ch)|
    ensures FreqOf(FreqsAfter(s, ch), Through(s, ch)[x].key) == VersionAfter(s, BatchStep(ch), Through(s, ch)[x].key)
  {
    hide Fetched, Kept, DistinctKeys;
    var kept, full := Kept(Reads(s, ch), Fetched(s, Reads(s, ch)), Elems(s.pending)), Through(s, ch);
    KeySetConcat(s.cache, kept);
    assert full[x].key in KeySet(full);
    PendingOutside(p, s, ch);
    StampedIs(s.freqs, Elems(Reads(s, ch)), Elems(s.pending), s.clock + 1);
  }

  // A PUT removes at most its victim, and puts its pair last.
  lemma PutOrder(p: Params, s: State, k: Key, x: Bytes, a: Key, b: Key)
    requires Inv(p, s) && PutOk(s, k, x)
    ensures var t, victim := Put(s, k, x), Oldest(s.stamps, k.item);
            && t.cache != [] && t.cache[|t.cache| - 1] == Pair(k, x)
            && KeySet(t.cache) == KeySet(s.cache) - {victim} + {k}
            && (Before(s.cache, a, b) && a in KeySet(t.cache) && b in KeySet(t.cache) ==> Before(t.cache, a, b))
  {
    hide Inv, Before, KeySet, Erase, Oldest, Put, PlaceOf, NulFree;
    PutCache(p, s, k, x);
    var victim := Oldest(s.stamps, k.item);
    var rest := Erase(s.cache, victim);
    CacheKeys(p, s);
    VictimIsCachedOrResident(p, s, k.item);
    FreshPut(p, s, k, x);
    EraseOrder(s.cache, victim, a, b);
    PushKeys(rest, Pair(k, x));
    BeforeConcat(rest, [Pair(k, x)], a, b);
  }

  lemma CacheKeys(p: Params, s: State)
    requires Inv(p, s)
    ensures DistinctKeys(s.cache) && KeySet(s.cache) <= s.freqs.Keys <= s.hist.Keys
  {
    hide InvVersions, InvRecency, InvStored, InvStore, InvWritten, InvFakes, InvRound, Indexed;
    hide InvPending, InvTracker, InvAsked, InvCounts, InvWindow, InvBase, InvFakeAges, InvNoise, Resident, Live;
  }

  lemma PutCache(p: Params, s: State, k: Key, x: Bytes)
    requires Inv(p, s) && PutOk(s, k, x)
    ensures Put(s, k, x).cache == Erase(s.cache, Oldest(s.stamps, k.item)) + [Pair(k, x)]
  {
    hide Inv;
    VictimIsCachedOrResident(p, s, k.item);
    VictimShape(s.stamps, k.item);
    CacheKeys(p, s);
    var victim := Oldest(s.stamps, k.item);
    hide Oldest, PlaceOf, Requested, DropStamp, AddStamp, KeySet, StampsOf;
    FreshPut(p, s, k, x);
    EraseKeys(s.cache, victim);
    if victim !in KeySet(s.cache) {
      EraseAbsent(s.cache, victim);
    }
    EraseAbsent(Erase(s.cache, victim), k);
  }

  lemma CutOrder(q: List, i: nat, a: Key, b: Key)
    requires i < |q| && a != q[i].key && b != q[i].key
    ensures Before(q, a, b) ==> Before(q[..i] + q[i + 1..], a, b)
  {
    CutPoints(q, i);
    var e := q[..i] + q[i + 1..];
    if x, y :| 0 <= x < y < |q| && q[x].key == a && q[y].key == b {
      assert e[if x < i then x else x - 1] == q[x] && e[if y < i then y else y - 1] == q[y];
    }
  }

  lemma EraseOrder(q: List, v: Key, a: Key, b: Key)
    requires DistinctKeys(q)
    ensures KeySet(Erase(q, v)) == KeySet(q) - {v} && DistinctKeys(Erase(q, v))
    ensures Before(q, a, b) && a != v && b != v ==> Before(Erase(q, v), a, b)
  {
    hide Erase, ListMap, DistinctKeys, Before;
    EraseKeys(q, v);
    if v in KeySet(q) {
      var i := EraseCuts(q, v);
      if a != v && b != v {
        CutOrder(q, i, a, b);
      }
    } else {
      EraseAbsent(q, v);
    }
  }

  // ---- versions and operations ----

  // The number of the batch that last touched k, after a step.
  ghost function VersionAfter(s: State, step: Step, k: Key): int {
    match step
    case GetStep(_, _, _) => FreqOf(s.freqs, k)
    case ClearStep => FreqOf(s.freqs, k)
    case PutStep(key, _) => if k == key then s.clock else FreqOf(s.freqs, k)
    case BatchStep(ch) => if k in Reads(s, ch) then s.clock + 1 else FreqOf(s.freqs, k)
  }

  // The operations a round has counted, after a step: one for each bucket of a split, one for a PUT.
  ghost function SlotsAfter(s: State, step: Step): nat {
    match step
    case GetStep(item, lo, hi) => s.slots + |SplitOf(s, item, lo, hi)|
    case ClearStep => s.slots
    case PutStep(_, _) => s.slots + 1
    case BatchStep(_) => 0
  }

  lemma PutCounts(p: Params, s: State, k: Key, x: Bytes)
    requires Inv(p, s) && PutOk(s, k, x)
    ensures var t := Put(s, k, x);
            && t.slots == s.slots + 1 && t.clock == s.clock && t.fakes == s.fakes && t.nextId == s.nextId
            && t.store == s.store && t.queue == s.queue && t.written == s.written && t.read == s.read
            && k in t.freqs && t.freqs[k] == s.clock && forall q :: q != k && q in t.freqs ==> q in s.freqs && t.freqs[q] == s.freqs[q]
  {
    hide Inv;
    VictimShape(s.stamps, k.item);
    hide Oldest, PlaceOf, Requested, DropStamp, AddStamp, Erase, KeySet, StampsOf;
  }

  lemma BatchFreqs(p: Params, s: State, ch: Choices)
    requires BatchOk(p, s, ch)
    ensures var t := Batch(p, s, ch);
            && t.slots == 0 && t.clock == s.clock + 1 && t.nextId == s.nextId && t.freqs == FreqsAfter(s, ch) && t.fakes == FakesAfter(s, ch)
  {
    BatchReadyOnly(p, s, ch);
    hide FreqsAfter, FakesAfter, Through, WriteTags, ReadTags, DropStamps, Fetched, Without, PutAll, Ready, AnswerAll, IsScan, Wraps;
  }

  lemma VersionsOfBatch(p: Params, s: State, ch: Choices, k: Key)
    requires BatchOk(p, s, ch)
    ensures k in FreqsAfter(s, ch) ==> FreqsAfter(s, ch)[k] == if k in Reads(s, ch) then s.clock + 1 else FreqOf(s.freqs, k)
    ensures k in s.fakes ==>
      k in FakesAfter(s, ch) && FakesAfter(s, ch)[k] == if k in ch.fakeKeys then s.clock + 1 else s.fakes[k]
  {
    hide BatchOk;
  }

  // A step stamps what it touches with the number of the batch, and leaves every other version as it is.
  lemma StepCounts(p: Params, s: State, step: Step, k: Key)
    requires Inv(p, s) && Enabled(p, s, step)
    ensures var t := Next(p, s, step);
            && t.slots == SlotsAfter(s, step) && t.clock == s.clock + (if step.BatchStep? then 1 else 0)
            && t.nextId == s.nextId + (if step.GetStep? then 1 else 0)
            && (k in t.freqs ==> t.freqs[k] == VersionAfter(s, step, k))
            && (k in s.fakes ==>
                  k in t.fakes && t.fakes[k] == if step.BatchStep? && k in step.ch.fakeKeys then s.clock + 1 else s.fakes[k])
  {
    hide Inv, Get, Put, Batch, SplitOf, PutOk, BatchOk, FreqsAfter, FakesAfter;
    match step
    case GetStep(item, lo, hi) =>
      TouchKeeps(p, s, item);
      GetFields(s, item, lo, hi);
    case PutStep(key, x) => PutCounts(p, s, key, x);
    case ClearStep =>
    case BatchStep(ch) =>
      BatchFreqs(p, s, ch);
      VersionsOfBatch(p, s, ch, k);
  }

  // ---- what a round asks the store for ----

  lemma SubGetAsks(p: Params, s: State, r: nat, k: Key)
    requires Inv(p, s) && k in s.freqs
    ensures SubGet(s, r, k).ops == if k in KeySet(s.cache) || k in s.ops then s.ops else s.ops + [k]
  {
    hide InvVersions, InvRecency, InvStored, InvStore, InvWritten, InvFakes;
    hide InvPending, InvTracker, InvAsked, InvCounts, InvWindow, InvBase, InvFakeAges, InvNoise, Live, KeySet, ListMap, Local, Indexed, DistinctKeys;
    LocalIs(s.freqs, s.stamps, s.cache, s.hist, k);
    assert Busy(s.tracker, k) <==> k in Elems(s.ops);
  }

  ghost predicate OldestFirst(keys: seq<Key>) {
    forall a, b :: 0 <= a < b < |keys| ==> keys[a].Bucket? && keys[b].Bucket? && keys[a].ts < keys[b].ts
  }

  lemma {:induction false} SubGetsAsk(p: Params, s: State, r: nat, keys: seq<Key>, n: nat) returns (more: seq<Key>)
    requires Inv(p, s) && r < s.nextId && r !in s.asked && n <= |keys| && OldestFirst(keys)
    requires (forall i :: 0 <= i < |keys| ==> keys[i] in s.freqs) && s.slots + |keys| <= p.R - 1 + p.M
    ensures SubGets(s, r, keys, n).ops == s.ops + more && OldestFirst(more)
    ensures forall k :: k in more <==> k in keys[..n] && k !in KeySet(s.cache) && k !in s.ops
  {
    hide Inv, SubGet, KeySet, OldestFirst;
    if n == 0 {
      more := [];
      NoKeys();
    } else {
      var k, u := keys[n - 1], SubGets(s, r, keys, n - 1);
      more := SubGetsAsk(p, s, r, keys, n - 1);
      SubGetsFields(s, r, keys, n - 1);
      SubGetsKeep(p, s, r, keys, n - 1);
      SubGetAsks(p, u, r, k);
      assert keys[..n] == keys[..n - 1] + [k];
      if k !in KeySet(s.cache) && k !in u.ops {
        LastIsNewest(keys, n, more);
        more := more + [k];
      } else {
        assert k in KeySet(s.cache) || k in s.ops || k in more;
      }
    }
  }

  lemma NoKeys()
    ensures OldestFirst([])
  {
  }

  lemma LastIsNewest(keys: seq<Key>, n: nat, more: seq<Key>)
    requires OldestFirst(keys) && 0 < n <= |keys| && OldestFirst(more) && forall k :: k in more ==> k in keys[..n - 1]
    ensures OldestFirst(more + [keys[n - 1]])
  {
    forall x | 0 <= x < |more| ensures more[x].Bucket? && keys[n - 1].Bucket? && more[x].ts < keys[n - 1].ts {
      assert more[x] in more;
      var a :| 0 <= a < n - 1 && keys[a] == more[x];
    }
  }

  lemma GetAsks(p: Params, s: State, item: Item, lo: int, hi: int) returns (more: seq<Key>)
    requires Inv(p, s) && Enabled(p, s, GetStep(item, lo, hi))
    ensures Get(s, item, lo, hi).ops == s.ops + more && OldestFirst(more)
    ensures forall k :: k in more <==> k in SplitOf(s, item, lo, hi) && k !in KeySet(s.cache) && k !in s.ops
  {
    hide Inv, SubGets, Touch, KeySet, SplitKeys;
    var keys := SplitOf(s, item, lo, hi);
    LiveIndex(p, s);
    SplitIsLive(s, item, lo, hi);
    SplitKeysAre(item, StampsOf(s.stamps, item), lo, hi);
    TouchKeeps(p, s, item);
    assert keys[..|keys|] == keys;
    more := SubGetsAsk(p, s.(stamps := Touch(s.stamps, item), nextId := s.nextId + 1), s.nextId, keys, |keys|);
  }

  lemma PutAsks(p: Params, s: State, k: Key, x: Bytes)
    requires Inv(p, s) && PutOk(s, k, x)
    ensures var victim := Oldest(s.stamps, k.item);
            Put(s, k, x).ops == if victim in KeySet(s.cache) || victim in s.ops then s.ops else s.ops + [victim]
  {
    hide Inv;
    VictimIsCachedOrResident(p, s, k.item);
    VictimShape(s.stamps, k.item);
    BusyIs(p, s);
    hide Oldest, PlaceOf, DropStamp, AddStamp, Erase, KeySet, StampsOf, Busy, ListMap;
  }

  lemma BusyIs(p: Params, s: State)
    requires Inv(p, s)
    ensures forall k :: Busy(s.tracker, k) <==> k in s.ops
  {
    hide InvKeys, InvCache, InvVersions, InvRecency, InvStored, InvStore, InvWritten, InvFakes;
    hide InvPending, InvTracker, InvAsked, InvCounts, InvWindow, InvBase, InvFakeAges, InvNoise, Live, Resident;
    assert forall k :: k in Elems(s.ops) <==> k in s.ops;
  }

  // ---- the deletion queue ----

  // How many lists the clear thread takes in a step.
  function Pops(step: Step): nat {
    match step
    case GetStep(_, _, _) => 0
    case PutStep(_, _) => 0
    case ClearStep => 1
    case BatchStep(ch) => ch.pops
  }

  // What a step reads and leaves to be deleted.
  function ReadIn(s: State, step: Step): seq<seq<Tag>> {
    if step.BatchStep? then [ReadTags(s, step.ch)] else []
  }

  function WrittenIn(s: State, step: Step): set<Tag> {
    if step.BatchStep? then Elems(WriteTags(s, step.ch)) else {}
  }

  // What the batches before step m have read, a list for each batch.
  function AllReads(ss: seq<State>, steps: seq<Step>, m: nat): seq<seq<Tag>>
    requires m <= |steps| <= |ss|
  {
    if m == 0 then [] else AllReads(ss, steps, m - 1) + ReadIn(ss[m - 1], steps[m - 1])
  }

  // How many of those lists the clear thread has taken by then.
  function Popped(steps: seq<Step>, m: nat): nat
    requires m <= |steps|
  {
    if m == 0 then 0 else Popped(steps, m - 1) + Pops(steps[m - 1])
  }

  // The queue and the store after a step.
  lemma StepStore(p: Params, s: State, step: Step)
    requires Inv(p, s) && Enabled(p, s, step)
    ensures var t := Next(p, s, step);
            && Pops(step) <= |s.queue| && t.queue == s.queue[Pops(step)..] + ReadIn(s, step)
            && t.store.Keys == s.store.Keys - Elems(Flatten(s.queue[..Pops(step)])) + WrittenIn(s, step)
            && WrittenIn(s, step) !! s.written && t.written == s.written + WrittenIn(s, step)
  {
    hide Inv, Get, Put, Batch, SplitOf, PutOk, BatchOk, Flatten, WriteTags, ReadTags, Elems;
    NothingPopped(s.queue);
    match step
    case GetStep(item, lo, hi) =>
      TouchKeeps(p, s, item);
      GetFields(s, item, lo, hi);
    case PutStep(key, x) => PutCounts(p, s, key, x);
    case ClearStep =>
    case BatchStep(ch) =>
      BatchReadyOnly(p, s, ch);
      ConstantTraffic(p, s, ch);
      HistoryKept(p, s, ch);
  }

  lemma NothingPopped(queue: seq<seq<Tag>>)
    ensures Elems(Flatten(queue[..0])) == {}
  {
    assert queue[..0] == [];
    assert Flatten<Tag>([]) == [];
  }

  // First in, first out: the queue is what all batches so far have read, less the lists taken by the clear thread, the oldest
  // first.
  lemma {:induction false} QueueIs(p: Params, ss: seq<State>, steps: seq<Step>, m: nat)
    requires Run(p, ss, steps) && Inv(p, ss[0]) && Sane(p) && ss[0].queue == [] && m < |ss|
    ensures m <= |steps| && Popped(steps, m) <= |AllReads(ss, steps, m)|
    ensures ss[m].queue == AllReads(ss, steps, m)[Popped(steps, m)..]
  {
    hide Inv, Run, Enabled, Next, Flatten, WriteTags, ReadTags, Elems, Pops, ReadIn, WrittenIn;
    RunLength(p, ss, steps);
    if m > 0 {
      QueueIs(p, ss, steps, m - 1);
      RunKeeps(p, ss, steps, m - 1);
      RunAt(p, ss, steps, m - 1);
      StepStore(p, ss[m - 1], steps[m - 1]);
    }
  }

  // Tags of the first n lists.
  function Taken(lists: seq<seq<Tag>>, n: nat): set<Tag>
    requires n <= |lists|
  {
    Elems(Flatten(lists[..n]))
  }

  lemma TakenMore(lists: seq<seq<Tag>>, more: seq<seq<Tag>>, n: nat, pops: nat)
    requires n + pops <= |lists|
    ensures Taken(lists + more, n + pops) == Taken(lists, n) + Elems(Flatten(lists[n..][..pops]))
  {
    assert (lists + more)[..n + pops] == lists[..n] + lists[n..][..pops];
    FlattenConcat(lists[..n], lists[n..][..pops]);
    ElemsConcat(Flatten(lists[..n]), Flatten(lists[n..][..pops]));
  }

  lemma PoppedWereWritten(p: Params, s: State, n: nat)
    requires Inv(p, s) && n <= |s.queue|
    ensures Elems(Flatten(s.queue[..n])) <= s.written
  {
    hide Inv, Live, Clear, Flatten;
    LiveStays(p, s, n);
    assert s.queue == s.queue[..n] + s.queue[n..];
    FlattenConcat(s.queue[..n], s.queue[n..]);
  }

  // The store holds every tag that was ever written but those of the lists taken by the clear thread.
  lemma {:induction false} StoreIs(p: Params, ss: seq<State>, steps: seq<Step>, m: nat)
    requires Run(p, ss, steps) && Inv(p, ss[0]) && Sane(p) && ss[0].queue == [] && ss[0].store.Keys == ss[0].written && m < |ss|
    ensures m <= |steps| && Popped(steps, m) <= |AllReads(ss, steps, m)|
    ensures ss[m].store.Keys == ss[m].written - Taken(AllReads(ss, steps, m), Popped(steps, m))
    ensures Taken(AllReads(ss, steps, m), Popped(steps, m)) <= ss[m].written
  {
    hide Inv, Run, Enabled, Next, Flatten, WriteTags, ReadTags, Pops, ReadIn, WrittenIn, Taken, Elems;
    RunLength(p, ss, steps);
    QueueIs(p, ss, steps, m);
    if m == 0 {
      NoneTaken(AllReads(ss, steps, m));
    } else {
      var s, step := ss[m - 1], steps[m - 1];
      QueueIs(p, ss, steps, m - 1);
      StoreIs(p, ss, steps, m - 1);
      RunKeeps(p, ss, steps, m - 1);
      RunAt(p, ss, steps, m - 1);
      StepStore(p, s, step);
      PoppedWereWritten(p, s, Pops(step));
      TakenMore(AllReads(ss, steps, m - 1), ReadIn(s, step), Popped(steps, m - 1), Pops(step));
    }
  }

  lemma NoneTaken(lists: seq<seq<Tag>>)
    ensures Taken(lists, 0) == {}
  {
    NothingPopped(lists);
  }
}
