// The exchange loop of execute_batch: record by record it comes to the closed form of a batch.
module Exchanges {
  import opened BatchKeeps
  import opened BatchProofs
  import opened Caches
  import opened Frequencies
  import opened Keys
  import opened Loops
  import opened Protocol
  import opened Seqs
  import opened Values

  // The cache as one queue after i reads came in.
  function Mid(s: State, ch: Choices, i: nat): List
    requires i <= |Reads(s, ch)|
  {
    s.cache + Kept(Reads(s, ch)[..i], Fetched(s, Reads(s, ch)), Elems(s.pending))
  }

  function StampedReads(s: State, ch: Choices): map<Key, int> {
    Stamped(s.freqs, Elems(Reads(s, ch)), s.clock + 1)
  }

  // Where the loop stands after i records.
  ghost predicate Exchanged(s: State, ch: Choices, i: nat, cache: List, freqs: map<Key, int>, stamps: Stamps, pending: seq<Key>) {
    && i <= |Reads(s, ch)| && i <= |Mid(s, ch, i)| && cache == Mid(s, ch, i)[i..]
    && freqs == StampedReads(s, ch) - (Elems(s.pending) * Elems(Reads(s, ch)[..i]))
    && stamps == DropStamps(s.stamps, Reads(s, ch)[..i], Elems(s.pending))
    && pending == Without(s.pending, Elems(Reads(s, ch)[..i]))
  }

  lemma {:induction false} WithoutNone(pending: seq<Key>)
    ensures Without(pending, {}) == pending
  {
    if pending != [] {
      WithoutNone(pending[..|pending| - 1]);
    }
  }

  lemma {:induction false} WithoutIn(pending: seq<Key>, gone: set<Key>, k: Key)
    ensures k in Without(pending, gone) <==> k in pending && k !in gone
  {
    if pending != [] {
      var n := |pending| - 1;
      WithoutIn(pending[..n], gone, k);
      assert pending == pending[..n] + [pending[n]];
    }
  }

  // std::remove and erase, one key after the other.
  lemma {:induction false} WithoutMore(pending: seq<Key>, gone: set<Key>, k: Key)
    ensures Without(Without(pending, gone), {k}) == Without(pending, gone + {k})
  {
    if pending != [] {
      var n := |pending| - 1;
      WithoutMore(pending[..n], gone, k);
      if pending[n] !in gone {
        var front := Without(pending[..n], gone);
        assert (front + [pending[n]])[..|front|] == front;
      }
    }
  }

  lemma {:induction false} WithoutAbsent(pending: seq<Key>, gone: set<Key>, k: Key)
    requires k !in pending
    ensures Without(pending, gone + {k}) == Without(pending, gone)
  {
    if pending != [] {
      WithoutAbsent(pending[..|pending| - 1], gone, k);
    }
  }

  lemma KeptSnoc(keys: seq<Key>, i: nat, vals: map<Key, Bytes>, drop: set<Key>)
    requires i < |keys| && keys[i] in vals
    ensures Kept(keys[..i + 1], vals, drop)
         == Kept(keys[..i], vals, drop) + (if keys[i] in drop then [] else [Pair(keys[i], vals[keys[i]])])
  {
    assert keys[..i + 1][..i] == keys[..i];
  }

  lemma {:induction false} KeptPrefix(keys: seq<Key>, i: nat, vals: map<Key, Bytes>, drop: set<Key>)
    requires i <= |keys|
    ensures var a, b := Kept(keys[..i], vals, drop), Kept(keys, vals, drop);
            |a| <= |b| <= |a| + |keys| - i && b[..|a|] == a
    decreases |keys|
  {
    if i < |keys| {
      var n := |keys| - 1;
      KeptPrefix(keys[..n], i, vals, drop);
      assert keys[..n][..i] == keys[..i];
    } else {
      assert keys[..i] == keys;
    }
  }

  // The queue so far is the start of the whole queue, and never runs out.
  lemma MidPrefix(p: Params, s: State, ch: Choices, i: nat)
    requires i <= |Reads(s, ch)| < |Through(s, ch)|
    ensures i < |Mid(s, ch, i)| <= |Through(s, ch)| && Mid(s, ch, i) == Through(s, ch)[..|Mid(s, ch, i)|]
    ensures i == |Reads(s, ch)| ==> Mid(s, ch, i) == Through(s, ch)
  {
    hide Fetched;
    KeptPrefix(Reads(s, ch), i, Fetched(s, Reads(s, ch)), Elems(s.pending));
    if i == |Reads(s, ch)| {
      assert Reads(s, ch)[..i] == Reads(s, ch);
    }
  }

  lemma MidMore(p: Params, s: State, ch: Choices, i: nat)
    requires Ripe(p, s, ch) && i < |Reads(s, ch)|
    ensures var k := Reads(s, ch)[i];
            Mid(s, ch, i + 1) == Mid(s, ch, i) + (if k in Elems(s.pending) then [] else [Pair(k, StoredValue(s, k))])
  {
    hide StoredValue, Passing, Through;
    var k := Reads(s, ch)[i];
    assert k in Elems(Reads(s, ch));
    KeptSnoc(Reads(s, ch), i, Fetched(s, Reads(s, ch)), Elems(s.pending));
  }

  lemma FullDistinct(p: Params, s: State, ch: Choices)
    requires Ripe(p, s, ch)
    ensures DistinctKeys(Through(s, ch)) && Distinct(Reads(s, ch))
    ensures forall k :: k in Reads(s, ch) ==> k in s.freqs && k.Bucket? && k !in KeySet(s.cache)
  {
    hide Kept, Fetched;
    assert forall k :: k in Reads(s, ch) ==> k in Elems(Reads(s, ch));
  }

  // The record that comes in is not in the cache, and it is registered for deletion when it was at the start.
  lemma ComesIn(p: Params, s: State, ch: Choices, i: nat)
    requires Ripe(p, s, ch) && i < |Reads(s, ch)| < |Through(s, ch)| && i < |Mid(s, ch, i)|
    ensures var k := Reads(s, ch)[i];
            && k.Bucket? && k in s.freqs
            && (k in Without(s.pending, Elems(Reads(s, ch)[..i])) <==> k in Elems(s.pending))
            && (k !in Elems(s.pending) ==> k !in KeySet(Mid(s, ch, i)[i + 1..]))
  {
    hide Ripe, Mid, StoredValue, Through;
    var k, m := Reads(s, ch)[i], Mid(s, ch, i);
    FullDistinct(p, s, ch);
    WithoutIn(s.pending, Elems(Reads(s, ch)[..i]), k);
    if k !in Elems(s.pending) {
      MidMore(p, s, ch, i);
      MidPrefix(p, s, ch, i + 1);
      var full := Through(s, ch);
      assert full[|m|].key == k && forall j :: 0 <= j < |m| ==> full[j] == m[j];
      assert forall j :: i + 1 <= j < |m| ==> m[j].key != k;
    }
  }

  // The record that goes out is live, with the version it is written under.
  lemma GoesOut(p: Params, s: State, ch: Choices, i: nat)
    requires Ripe(p, s, ch) && i < |Reads(s, ch)| < |Through(s, ch)|
    ensures i < |Mid(s, ch, i)| && Mid(s, ch, i)[i] == Through(s, ch)[i]
    ensures Through(s, ch)[i].key in StampedReads(s, ch) && Through(s, ch)[i].key !in Elems(s.pending)
  {
    hide Kept, Fetched, Mid, Distinct;
    MidPrefix(p, s, ch, i);
    var kept := Kept(Reads(s, ch), Fetched(s, Reads(s, ch)), Elems(s.pending));
    KeySetConcat(s.cache, kept);
    assert Through(s, ch)[i].key in KeySet(Through(s, ch));
  }

  lemma ElemsNext(keys: seq<Key>, i: nat)
    requires i < |keys|
    ensures Elems(keys[..i + 1]) == Elems(keys[..i]) + {keys[i]}
  {
    assert keys[..i + 1] == keys[..i] + [keys[i]];
  }

  // Dropping the record that was read.
  lemma DropStep(p: Params, s: State, ch: Choices, i: nat, cache: List, freqs: map<Key, int>, stamps: Stamps, pending: seq<Key>)
    requires Ripe(p, s, ch) && Exchanged(s, ch, i, cache, freqs, stamps, pending) && i < |Reads(s, ch)| && cache != []
    requires Reads(s, ch)[i].Bucket? && Reads(s, ch)[i] in Elems(s.pending)
    ensures var k := Reads(s, ch)[i];
            Exchanged(s, ch, i + 1, cache[1..], freqs - {k}, DropStamp(stamps, k), Without(pending, {k}))
  {
    hide Ripe, Mid, StampedReads, DropStamp, Elems;
    var k := Reads(s, ch)[i];
    MidMore(p, s, ch, i);
    ElemsNext(Reads(s, ch), i);
    WithoutMore(s.pending, Elems(Reads(s, ch)[..i]), k);
    assert Reads(s, ch)[..i + 1][..i] == Reads(s, ch)[..i];
    RemovedMore(StampedReads(s, ch), Elems(s.pending), Elems(Reads(s, ch)[..i]), k);
  }

  lemma RemovedMore(m: map<Key, int>, drop: set<Key>, past: set<Key>, k: Key)
    ensures k in drop ==> (m - (drop * past)) - {k} == m - (drop * (past + {k}))
    ensures k !in drop ==> m - (drop * past) == m - (drop * (past + {k}))
  {
    if k !in drop {
      assert drop * past == drop * (past + {k});
    } else {
      assert drop * (past + {k}) == drop * past + {k};
    }
  }

  // Keeping it.
  lemma KeepStep(p: Params, s: State, ch: Choices, i: nat, cache: List, freqs: map<Key, int>, stamps: Stamps, pending: seq<Key>)
    requires Ripe(p, s, ch) && Exchanged(s, ch, i, cache, freqs, stamps, pending) && i < |Reads(s, ch)| && cache != []
    requires Reads(s, ch)[i] !in Elems(s.pending)
    ensures var k := Reads(s, ch)[i];
            Exchanged(s, ch, i + 1, cache[1..] + [Pair(k, StoredValue(s, k))], freqs, stamps, pending)
  {
    hide Ripe, Mid, StampedReads, DropStamp, StoredValue;
    var k := Reads(s, ch)[i];
    MidMore(p, s, ch, i);
    ElemsNext(Reads(s, ch), i);
    WithoutAbsent(s.pending, Elems(Reads(s, ch)[..i]), k);
    assert Reads(s, ch)[..i + 1][..i] == Reads(s, ch)[..i];
    RemovedMore(StampedReads(s, ch), Elems(s.pending), Elems(Reads(s, ch)[..i]), k);
  }

  lemma ExchangeStart(s: State, ch: Choices)
    ensures Exchanged(s, ch, 0, s.cache, StampedReads(s, ch), s.stamps, s.pending)
  {
    hide StampedReads;
    assert Reads(s, ch)[..0] == [];
    assert Elems<Key>([]) == {};
    WithoutNone(s.pending);
    assert StampedReads(s, ch) - (Elems(s.pending) * {}) == StampedReads(s, ch);
  }

  lemma ExchangeEnd(p: Params, s: State, ch: Choices, cache: List, freqs: map<Key, int>, stamps: Stamps, pending: seq<Key>)
    requires Ripe(p, s, ch) && |Reads(s, ch)| < |Through(s, ch)|
    requires Exchanged(s, ch, |Reads(s, ch)|, cache, freqs, stamps, pending)
    ensures cache == Through(s, ch)[|Reads(s, ch)|..] && freqs == FreqsAfter(s, ch)
    ensures stamps == DropStamps(s.stamps, Reads(s, ch), Elems(s.pending))
    ensures pending == Without(s.pending, Elems(Reads(s, ch)))
  {
    hide Mid, Through, Ripe, DropStamps, Without;
    MidPrefix(p, s, ch, |Reads(s, ch)|);
    assert Reads(s, ch)[..|Reads(s, ch)|] == Reads(s, ch);
    Dropped(p, s, ch);
    assert Elems(s.pending) * Elems(Reads(s, ch)) == Elems(s.pending);
  }

  lemma FetchedMore(s: State, keys: seq<Key>, i: nat)
    requires i < |keys|
    ensures Fetched(s, keys[..i + 1]) == Fetched(s, keys[..i])[keys[i] := StoredValue(s, keys[i])]
  {
    hide StoredValue;
    ElemsNext(keys, i);
  }

  // What get_batch returned.
  ghost predicate Fetches(s: State, tags: seq<Tag>, responses: seq<Cell>) {
    |responses| == |tags| && forall i :: 0 <= i < |tags| ==> tags[i] in s.store && responses[i] == s.store[tags[i]]
  }

  lemma ReadAt(s: State, ch: Choices, i: nat, tags: seq<Tag>, readMap: map<Tag, Key>, responses: seq<Cell>)
    requires i < |Reads(s, ch)| && tags == ReadTags(s, ch) && KeyedBy(tags, readMap) && Fetches(s, tags, responses)
    ensures i < |tags| && i < |responses| && tags[i] in readMap && readMap[tags[i]] == Reads(s, ch)[i]
    ensures DecryptNonDeterministic(responses[i]) == StoredValue(s, Reads(s, ch)[i])
  {
    hide DecryptNonDeterministic;
    assert tags[i] == TagOf(s.freqs, Reads(s, ch)[i]);
  }

  // What is to be written after i records.
  ghost predicate Rewritten(s: State, ch: Choices, i: nat, keys: seq<Tag>, values: seq<Cell>) {
    && i <= |Through(s, ch)| && |keys| == |values| == i
    && forall j :: 0 <= j < i ==> keys[j] == TagOf(StampedReads(s, ch), Through(s, ch)[j].key) && Wraps(values[j], Through(s, ch)[j].value)
  }

  lemma NothingRewritten(s: State, ch: Choices)
    ensures Rewritten(s, ch, 0, [], []) && Fetched(s, Reads(s, ch)[..0]) == map[]
  {
    assert Elems(Reads(s, ch)[..0]) == {};
  }

  lemma RewrittenMore(s: State, ch: Choices, i: nat, keys: seq<Tag>, values: seq<Cell>, key: Tag, value: Cell)
    requires Rewritten(s, ch, i, keys, values) && i < |Through(s, ch)|
    requires key == TagOf(StampedReads(s, ch), Through(s, ch)[i].key) && Wraps(value, Through(s, ch)[i].value)
    ensures Rewritten(s, ch, i + 1, keys + [key], values + [value])
  {
    hide Through, StampedReads, Wraps;
  }

  // ---- the fake records ----

  // From the n-th on, the tags asked for are those of the fake records.
  ghost predicate FakeSlots(tags: seq<Tag>, n: nat, fakeKeys: seq<Key>, freqs: map<Key, int>, fetched: map<Key, Bytes>) {
    && |tags| == n + |fakeKeys|
    && forall j :: 0 <= j < |fakeKeys| ==> tags[n + j].key == fakeKeys[j] && fakeKeys[j] in freqs && fakeKeys[j] !in fetched
  }

  lemma FakeSlot(tags: seq<Tag>, readMap: map<Tag, Key>, n: nat, fakeKeys: seq<Key>, freqs: map<Key, int>, fetched: map<Key, Bytes>, i: nat)
    requires FakeSlots(tags, n, fakeKeys, freqs, fetched) && KeyedBy(tags, readMap) && n <= i < |tags|
    ensures i - n < |fakeKeys| && tags[i] in readMap && readMap[tags[i]] == fakeKeys[i - n] && fakeKeys[i - n] in freqs
    ensures fakeKeys[i - n] !in fetched
  {
    assert tags[n + (i - n)].key == fakeKeys[i - n];
  }

  ghost predicate NoiseAfter(values: seq<Cell>, cells: seq<Cell>, size: nat) {
    && |values| <= |cells| && cells[..|values|] == values
    && forall j :: |values| <= j < |cells| ==> WrapsNoise(cells[j], size)
  }

  ghost predicate Extends(m: map<Key, Bytes>, n: map<Key, Bytes>) {
    forall k :: k in m ==> k in n && n[k] == m[k]
  }

  lemma NoNoise(values: seq<Cell>, m: map<Key, Bytes>, size: nat)
    ensures NoiseAfter(values, values, size) && Extends(m, m)
  {
  }

  lemma MoreNoise(values: seq<Cell>, cells: seq<Cell>, cell: Cell, size: nat)
    requires NoiseAfter(values, cells, size) && WrapsNoise(cell, size)
    ensures NoiseAfter(values, cells + [cell], size)
  {
    hide WrapsNoise;
  }

  lemma ExtendsMore(m: map<Key, Bytes>, n: map<Key, Bytes>, k: Key, v: Bytes)
    requires Extends(m, n) && k !in m
    ensures Extends(m, n[k := v])
  {
  }
}
