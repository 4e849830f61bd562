// A range GET keeps the invariant.
module GetProofs {
  import opened Caches
  import opened Frequencies
  import opened Invariant
  import opened Keys
  import opened Protocol
  import opened Running
  import opened Seqs
  import opened Splits
  import opened Texts
  import opened Values

  lemma CacheLookup(freqs: map<Key, int>, cache: List, hist: map<Key, Bytes>, k: Key)
    requires InvCache(freqs, cache, hist)
    ensures k in ListMap(cache) <==> k in KeySet(cache)
    ensures k in KeySet(cache) ==> k in hist && ListMap(cache)[k] == hist[k]
  {
    ListMapOf(cache);
    if k in KeySet(cache) {
      var i :| 0 <= i < |cache| && cache[i].key == k;
    }
  }

  // ---- a sub-operation that hits the cache ----

  lemma HitKeeps(t: Tracker, resident: set<Key>, hist: map<Key, Bytes>, r: nat, k: Key)
    requires InvTracker(t, resident, hist) && k !in resident && k in hist
    ensures InvTracker(Hit(t, r, k, hist[k]), resident, hist)
  {
  }

  // ---- a sub-operation that misses ----

  lemma WaitKeeps(t: Tracker, resident: set<Key>, hist: map<Key, Bytes>, r: nat, k: Key)
    requires InvTracker(t, resident, hist) && k in resident
    ensures InvTracker(WaitFor(t, k, r), resident, hist)
  {
    var u := WaitFor(t, k, r);
    forall q, x | q in u.requests && x in u.requests[q]
      ensures x in u.got || (x in u.waiting && q in u.waiting[x])
    {
      assert q != r ==> x in t.requests[q];
      assert q == r && x != k ==> r in t.requests && x in t.requests[r];
    }
    forall x, q | x in u.waiting && q in u.waiting[x] ensures q in u.requests && x in u.requests[q] {
      assert !(x == k && q == r) ==> x in t.waiting && q in t.waiting[x];
    }
  }

  lemma AskedGrows(t: Tracker, u: Tracker, asked: map<nat, seq<Key>>, nextId: nat, hist: map<Key, Bytes>, r: nat, k: Key)
    requires InvAsked(t, asked, nextId, hist) && r < nextId && k in hist && (r in asked ==> r in t.requests)
    requires u.requests == t.requests[r := KeysOf(t, r) + [k]] && u.answers == t.answers
    ensures var before := if r in asked then asked[r] else [];
            InvAsked(u, asked[r := before + [k]], nextId, hist)
  {
    var grown := asked[r := (if r in asked then asked[r] else []) + [k]];
    forall q | q in grown ensures q < nextId && grown[q] != [] && Fulfilled(grown[q], hist) {
      assert q != r ==> q in asked;
    }
  }

  lemma RoundGrows(p: Params, resident: set<Key>, t: Tracker, ops: seq<Key>, slots: nat, k: Key, r: nat)
    requires InvRound(p, resident, t.running + t.waiting.Keys, ops, slots) && k in resident
    requires slots + 1 <= p.R - 1 + p.M
    ensures var u := WaitFor(t, k, r);
            InvRound(p, resident, u.running + u.waiting.Keys, if Busy(t, k) then ops else ops + [k], slots + 1)
  {
    var u := WaitFor(t, k, r);
    assert u.waiting.Keys == t.waiting.Keys + {k};
    ElemsConcat(ops, [k]);
    assert Elems([k]) == {k};
    if !Busy(t, k) {
      DistinctConcat(ops, [k]);
    }
  }

  // What one sub-operation of the GET numbered r may rely on.
  ghost predicate SubGetOk(p: Params, s: State, r: nat, k: Key) {
    k in s.freqs && r < s.nextId && (r in s.asked ==> r in s.tracker.requests) && s.slots + 1 <= p.R - 1 + p.M
  }

  // The fields a GET leaves alone.
  ghost predicate SameRecords(s: State, t: State) {
    && t.freqs == s.freqs && t.fakes == s.fakes && t.cache == s.cache && t.evicted == s.evicted
    && t.pending == s.pending && t.clock == s.clock && t.store == s.store && t.queue == s.queue
    && t.hist == s.hist && t.written == s.written && t.read == s.read
  }

  // Between batches the proxy holds a live record's value exactly when it is cached.
  lemma LocalIs(freqs: map<Key, int>, stamps: Stamps, cache: List, hist: map<Key, Bytes>, k: Key)
    requires InvKeys(freqs, stamps, hist) && InvCache(freqs, cache, hist) && k in freqs
    ensures k in hist
    ensures Local(cache, map[], k) == if k in Resident(freqs, cache) then None else Some(hist[k])
  {
    CacheLookup(freqs, cache, hist, k);
  }

  lemma SubGetKeeps(p: Params, s: State, r: nat, k: Key)
    requires Inv(p, s) && SubGetOk(p, s, r, k)
    ensures Inv(p, SubGet(s, r, k)) && r in SubGet(s, r, k).tracker.requests
  {
    hide InvKeys, InvCache, InvVersions, InvRecency, InvStored, InvStore, InvWritten, InvFakes;
    hide InvRound, InvPending, InvTracker, InvAsked, InvCounts, InvWindow, InvBase, InvFakeAges, InvNoise;
    hide Resident, Live, KeySet, ListMap, Elems, Local;
    var resident := Resident(s.freqs, s.cache);
    LocalIs(s.freqs, s.stamps, s.cache, s.hist, k);
    AskedGrows(s.tracker, SubGet(s, r, k).tracker, s.asked, s.nextId, s.hist, r, k);
    if k in resident {
      WaitKeeps(s.tracker, resident, s.hist, r, k);
      RoundGrows(p, resident, s.tracker, s.ops, s.slots, k, r);
    } else {
      HitKeeps(s.tracker, resident, s.hist, r, k);
      RoundIdles(p, resident, s.tracker, s.ops, s.slots);
    }
  }

  lemma RoundIdles(p: Params, resident: set<Key>, t: Tracker, ops: seq<Key>, slots: nat)
    requires InvRound(p, resident, t.running + t.waiting.Keys, ops, slots) && slots + 1 <= p.R - 1 + p.M
    ensures InvRound(p, resident, t.running + t.waiting.Keys, ops, slots + 1)
  {
  }

  lemma SubGetFields(s: State, r: nat, k: Key)
    ensures var t := SubGet(s, r, k);
            && SameRecords(s, t) && t.stamps == s.stamps && t.slots == s.slots + 1 && t.nextId == s.nextId
            && t.asked == s.asked[r := Asked(s, r) + [k]]
  {
    hide Local, SubGetTracker, Requested;
  }

  // Which fields n sub-operations change.
  lemma {:induction false} SubGetsFields(s: State, r: nat, keys: seq<Key>, n: nat)
    requires n <= |keys|
    ensures var t := SubGets(s, r, keys, n);
            && SameRecords(s, t) && t.stamps == s.stamps && t.slots == s.slots + n && t.nextId == s.nextId
            && (r !in s.asked ==> t.asked == if n == 0 then s.asked else s.asked[r := keys[..n]])
  {
    hide SubGet;
    if n != 0 {
      SubGetsFields(s, r, keys, n - 1);
      SubGetFields(SubGets(s, r, keys, n - 1), r, keys[n - 1]);
      assert keys[..n] == keys[..n - 1] + [keys[n - 1]];
    }
  }

  lemma {:induction false} SubGetsKeep(p: Params, s: State, r: nat, keys: seq<Key>, n: nat)
    requires Inv(p, s) && r < s.nextId && r !in s.asked && n <= |keys|
    requires forall i :: 0 <= i < |keys| ==> keys[i] in s.freqs
    requires s.slots + |keys| <= p.R - 1 + p.M
    ensures Inv(p, SubGets(s, r, keys, n)) && (n != 0 ==> r in SubGets(s, r, keys, n).tracker.requests)
  {
    hide Inv, SubGet;
    if n != 0 {
      SubGetsFields(s, r, keys, n - 1);
      SubGetsKeep(p, s, r, keys, n - 1);
      SubGetKeeps(p, SubGets(s, r, keys, n - 1), r, keys[n - 1]);
    }
  }

  // Every sub-operation of a split names a live record, so "No record found" is never answered.
  lemma SplitIsLive(s: State, item: Item, lo: int, hi: int)
    requires Indexed(s.freqs.Keys, s.stamps)
    ensures forall i :: 0 <= i < |SplitOf(s, item, lo, hi)| ==> SplitOf(s, item, lo, hi)[i] in s.freqs
    ensures Distinct(SplitOf(s, item, lo, hi))
  {
    var times := Sorted(Wanted(StampsOf(s.stamps, item), lo, hi));
    forall i | 0 <= i < |times| ensures Bucket(item, times[i]) in s.freqs {
      assert times[i] in Elems(times);
    }
  }

  lemma LiveIndex(p: Params, s: State)
    requires Inv(p, s)
    ensures Indexed(s.freqs.Keys, s.stamps)
  {
  }

  lemma TouchKeeps(p: Params, s: State, item: Item)
    requires Inv(p, s)
    ensures Inv(p, s.(stamps := Touch(s.stamps, item), nextId := s.nextId + 1))
    ensures s.nextId !in s.asked
  {
    TouchIndex(s.freqs, s.stamps, s.hist, item);
    TouchBase(p.base, s.stamps, Elems(s.pending), item);
    TouchAsked(s.tracker, s.asked, s.nextId, s.hist);
    hide InvKeys, InvCache, InvVersions, InvRecency, InvStored, InvStore, InvWritten, InvFakes;
    hide InvRound, InvPending, InvTracker, InvAsked, InvCounts, InvWindow, InvBase, InvFakeAges, InvNoise;
    hide Resident, Live, KeySet, ListMap, Elems, Touch;
  }

  lemma TouchIndex(freqs: map<Key, int>, stamps: Stamps, hist: map<Key, Bytes>, item: Item)
    requires InvKeys(freqs, stamps, hist)
    ensures InvKeys(freqs, Touch(stamps, item), hist)
  {
  }

  lemma TouchBase(base: map<Item, nat>, stamps: Stamps, pending: set<Key>, item: Item)
    requires InvBase(base, stamps, pending)
    ensures InvBase(base, Touch(stamps, item), pending)
  {
    forall i | i in base ensures |StampsOf(Touch(stamps, item), i)| >= base[i] + Doomed(pending, i) {
      assert StampsOf(Touch(stamps, item), i) == StampsOf(stamps, i);
    }
  }

  lemma TouchAsked(t: Tracker, asked: map<nat, seq<Key>>, nextId: nat, hist: map<Key, Bytes>)
    requires InvAsked(t, asked, nextId, hist)
    ensures InvAsked(t, asked, nextId + 1, hist) && nextId !in asked
  {
  }

  // Which fields a GET changes.
  lemma GetFields(s: State, item: Item, lo: int, hi: int)
    requires s.nextId !in s.asked
    ensures var t, keys := Get(s, item, lo, hi), SplitOf(s, item, lo, hi);
            && SameRecords(s, t) && t.nextId == s.nextId + 1 && t.slots == s.slots + |keys|
            && t.stamps == Touch(s.stamps, item)
            && t.asked == if keys == [] then s.asked else s.asked[s.nextId := keys]
  {
    hide SubGets, SplitOf, Touch;
    var keys := SplitOf(s, item, lo, hi);
    SubGetsFields(s.(stamps := Touch(s.stamps, item), nextId := s.nextId + 1), s.nextId, keys, |keys|);
    assert keys[..|keys|] == keys;
  }

  lemma GetKeeps(p: Params, s: State, item: Item, lo: int, hi: int)
    requires Inv(p, s) && Enabled(p, s, GetStep(item, lo, hi))
    ensures Inv(p, Get(s, item, lo, hi))
  {
    hide Inv, SubGets, SplitOf, Touch;
    var keys := SplitOf(s, item, lo, hi);
    LiveIndex(p, s);
    SplitIsLive(s, item, lo, hi);
    TouchKeeps(p, s, item);
    SubGetsKeep(p, s.(stamps := Touch(s.stamps, item), nextId := s.nextId + 1), s.nextId, keys, |keys|);
  }

  // The clients' map does not change.
  lemma SameRecordsRefine(s: State, t: State)
    requires SameRecords(s, t)
    ensures Logical(t) == Logical(s)
  {
  }
}
