// FrequencySmoother: when each record was last touched, in three views that have to agree.
module Frequencies {
  import opened Keys
  import opened Seqs

  type Stamps = map<Item, set<int>>

  // The ordered set a frequency map stands for.
  function Graph(freqs: map<Key, int>): set<Entry> {
    set k | k in freqs :: Entry(k, freqs[k])
  }

  // The per-item timestamp index names exactly the keys of the frequency map.
  ghost predicate Indexed(keys: set<Key>, stamps: Stamps) {
    && (forall k :: k in keys ==> k.Bucket? && k.item in stamps && k.ts in stamps[k.item])
    && (forall item, ts :: item in stamps && ts in stamps[item] ==> Bucket(item, ts) in keys)
  }

  function StampsOf(stamps: Stamps, item: Item): set<int> {
    if item in stamps then stamps[item] else {}
  }

  // operator[] on the index: reading an unknown item leaves an empty set behind.
  function Touch(stamps: Stamps, item: Item): Stamps {
    if item in stamps then stamps else stamps[item := {}]
  }

  function AddStamp(stamps: Stamps, k: Key): Stamps
    requires k.Bucket?
  {
    stamps[k.item := StampsOf(stamps, k.item) + {k.ts}]
  }

  function DropStamp(stamps: Stamps, k: Key): Stamps
    requires k.Bucket?
  {
    if k.item !in stamps then stamps
    else
      var left := stamps[k.item] - {k.ts};
      if left == {} then stamps - {k.item} else stamps[k.item := left]
  }

  lemma AddStampIndexed(keys: set<Key>, stamps: Stamps, k: Key)
    requires Indexed(keys, stamps) && k.Bucket?
    ensures Indexed(keys + {k}, AddStamp(stamps, k))
  {
  }

  lemma DropStampIndexed(keys: set<Key>, stamps: Stamps, k: Key)
    requires Indexed(keys, stamps) && k.Bucket?
    ensures Indexed(keys - {k}, DropStamp(stamps, k))
  {
    var s := DropStamp(stamps, k);
    forall q | q in keys - {k} ensures q.Bucket? && q.item in s && q.ts in s[q.item] {
      assert q.item == k.item ==> q.ts in stamps[k.item] - {k.ts};
    }
  }

  lemma GraphSet(freqs: map<Key, int>, k: Key, v: int)
    ensures Graph(freqs[k := v]) == Graph(freqs - {k}) + {Entry(k, v)}
    ensures Graph(freqs - {k}) == Graph(freqs) - (if k in freqs then {Entry(k, freqs[k])} else {})
  {
    var g, h := Graph(freqs[k := v]), Graph(freqs - {k});
    forall e | e in g ensures e in h + {Entry(k, v)} {
      assert e.key != k ==> e.key in freqs - {k};
    }
    assert Entry(k, v) in g by {
      assert k in freqs[k := v];
    }
    forall e | e in h ensures e in g {
      assert e.key in freqs[k := v];
    }
    forall e | e in Graph(freqs) && e.key != k ensures e in h {
      assert e.key in freqs - {k};
    }
  }

  class FrequencySmoother {
    var accessFreqs: map<Key, int>
    var accessTree: set<Entry>
    var uniqueItemWithTimeStamp: Stamps
    var needTimeStamp: bool

    // The three views agree.
    ghost predicate Valid()
      reads this
    {
      && accessTree == Graph(accessFreqs)
      && (needTimeStamp ==> Indexed(accessFreqs.Keys, uniqueItemWithTimeStamp))
    }

    constructor (needTimeStamp: bool)
      ensures Valid() && accessFreqs == map[] && this.needTimeStamp == needTimeStamp
      ensures uniqueItemWithTimeStamp == map[]
    {
      accessFreqs, accessTree, uniqueItemWithTimeStamp := map[], {}, map[];
      this.needTimeStamp := needTimeStamp;
    }

    // Inserting leaves the views in agreement exactly when the key was not there under another frequency:
    // the old node of a live key stays in the tree.
    method Insert(key: Key)
      requires needTimeStamp ==> key.Bucket?
      modifies this
      ensures needTimeStamp == old(needTimeStamp)
      ensures accessFreqs == old(accessFreqs)[key := 0]
      ensures accessTree == old(accessTree) + {Entry(key, 0)}
      ensures uniqueItemWithTimeStamp
           == if needTimeStamp then AddStamp(old(uniqueItemWithTimeStamp), key) else old(uniqueItemWithTimeStamp)
      ensures old(Valid()) ==> (Valid() <==> key !in old(accessFreqs) || old(accessFreqs)[key] == 0)
    {
      GraphSet(accessFreqs, key, 0);
      ghost var before := accessFreqs;
      accessFreqs := accessFreqs[key := 0];
      accessTree := accessTree + {Entry(key, 0)};
      if needTimeStamp {
        if old(Valid()) {
          AddStampIndexed(before.Keys, uniqueItemWithTimeStamp, key);
          assert before.Keys + {key} == accessFreqs.Keys;
        }
        uniqueItemWithTimeStamp := AddStamp(uniqueItemWithTimeStamp, key);
      }
    }

    method SetFrequency(key: Key, value: int)
      modifies this`accessFreqs, this`accessTree
      ensures accessFreqs == old(accessFreqs)[key := value]
      ensures accessTree == old(accessTree) - {Entry(key, if key in old(accessFreqs) then old(accessFreqs)[key] else 0)} + {Entry(key, value)}
      ensures old(Valid()) && key in old(accessFreqs) ==> Valid()
    {
      GraphSet(accessFreqs, key, value);
      ghost var before := accessFreqs;
      accessTree := accessTree - {Entry(key, if key in accessFreqs then accessFreqs[key] else 0)};
      accessFreqs := accessFreqs[key := value];
      accessTree := accessTree + {Entry(key, value)};
      assert key in before ==> accessFreqs.Keys == before.Keys;
    }

    method RemoveKey(key: Key)
      requires needTimeStamp ==> key.Bucket?
      modifies this`accessFreqs, this`accessTree, this`uniqueItemWithTimeStamp
      ensures accessFreqs == old(accessFreqs) - {key}
      ensures uniqueItemWithTimeStamp
           == if needTimeStamp then DropStamp(old(uniqueItemWithTimeStamp), key) else old(uniqueItemWithTimeStamp)
      ensures old(Valid()) ==> Valid()
    {
      GraphSet(accessFreqs, key, 0);
      ghost var before := accessFreqs;
      ghost var graph := Graph(accessFreqs);
      assert key !in accessFreqs ==> Entry(key, 0) !in graph;
      accessTree := accessTree - {Entry(key, if key in accessFreqs then accessFreqs[key] else 0)};
      accessFreqs := accessFreqs - {key};
      if needTimeStamp {
        if old(Valid()) {
          DropStampIndexed(before.Keys, uniqueItemWithTimeStamp, key);
          assert before.Keys - {key} == accessFreqs.Keys;
        }
        uniqueItemWithTimeStamp := DropStamp(uniqueItemWithTimeStamp, key);
      }
    }

    // operator[] gives an absent key the frequency 0.
    method GetFrequency(key: Key) returns (freq: int)
      modifies this`accessFreqs
      ensures freq == if key in old(accessFreqs) then old(accessFreqs)[key] else 0
      ensures accessFreqs == if key in old(accessFreqs) then old(accessFreqs) else old(accessFreqs)[key := 0]
    {
      if key !in accessFreqs {
        accessFreqs := accessFreqs[key := 0];
      }
      freq := accessFreqs[key];
    }

    function CheckIfUniqueItemWithTimeStampExists(key: Key): bool
      reads this
    {
      key in accessFreqs
    }

    // accessTree.begin(): a true minimum.
    method GetKeyWithMinFrequency() returns (key: Key)
      requires Valid() && accessFreqs != map[]
      ensures key in accessFreqs && IsFirst(Graph(accessFreqs), Entry(key, accessFreqs[key]))
    {
      var k :| k in accessFreqs;
      assert Entry(k, accessFreqs[k]) in accessTree;
      ghost var first := FirstExists(accessTree);
      var e :| e in accessTree && forall o :: o in accessTree && o != e ==> FreqCmp(e, o);
      key := e.key;
    }

    // What an iterator from accessTree.begin() runs through.
    method Ordered() returns (order: seq<Entry>)
      requires Valid()
      ensures Elems(order) == Graph(accessFreqs)
      ensures forall i, j :: 0 <= i < j < |order| ==> FreqCmp(order[i], order[j])
      ensures Distinct(order)
    {
      var rest := accessTree;
      order := [];
      while rest != {}
        invariant rest <= accessTree && Elems(order) == accessTree - rest
        invariant forall i, j :: 0 <= i < j < |order| ==> FreqCmp(order[i], order[j])
        invariant forall i, o :: 0 <= i < |order| && o in rest ==> FreqCmp(order[i], o)
        invariant Distinct(order)
      {
        ghost var first := FirstExists(rest);
        var e :| e in rest && forall o :: o in rest && o != e ==> FreqCmp(e, o);
        assert e !in Elems(order);
        ElemsConcat(order, [e]);
        rest := rest - {e};
        order := order + [e];
      }
    }

    // The oldest bucket of the item of currentKey. keys_to_be_deleted is passed in the source but not looked at.
    method GetOldestKey(currentKey: Key) returns (oldest: Key)
      requires currentKey.Bucket? && StampsOf(uniqueItemWithTimeStamp, currentKey.item) != {}
      ensures oldest.Bucket? && oldest.item == currentKey.item
      ensures oldest.ts in StampsOf(uniqueItemWithTimeStamp, currentKey.item)
      ensures forall t :: t in StampsOf(uniqueItemWithTimeStamp, currentKey.item) ==> oldest.ts <= t
    {
      var stamps := uniqueItemWithTimeStamp[currentKey.item];
      ghost var least := LeastExists(stamps);
      var t :| t in stamps && forall o :: o in stamps ==> t <= o;
      oldest := Bucket(currentKey.item, t);
    }

    method GetTimestampForKey(item: Item) returns (stamps: set<int>)
      modifies this`uniqueItemWithTimeStamp
      ensures uniqueItemWithTimeStamp == Touch(old(uniqueItemWithTimeStamp), item)
      ensures stamps == StampsOf(old(uniqueItemWithTimeStamp), item)
      ensures old(Valid()) ==> Valid()
    {
      if item !in uniqueItemWithTimeStamp {
        uniqueItemWithTimeStamp := uniqueItemWithTimeStamp[item := {}];
      }
      stamps := uniqueItemWithTimeStamp[item];
    }
  }
}
