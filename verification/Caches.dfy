// Cache: an access list and a map into it, kept in step.
module Caches {
  import opened Keys
  import opened Texts
  import opened Values

  datatype Pair = Pair(key: Key, value: Bytes)

  // Lists are written from back to front, so index 0 is the next pair to be evicted.
  type List = seq<Pair>

  predicate DistinctKeys(q: List) {
    forall i, j :: 0 <= i < j < |q| ==> q[i].key != q[j].key
  }

  function KeySet(q: List): set<Key> {
    set i | 0 <= i < |q| :: q[i].key
  }

  function ListMap(q: List): map<Key, Bytes> {
    if q == [] then map[] else ListMap(q[..|q| - 1])[q[|q| - 1].key := q[|q| - 1].value]
  }

  // list::erase at the node of key k.
  function Erase(q: List, k: Key): List {
    if q == [] then [] else if q[0].key == k then q[1..] else [q[0]] + Erase(q[1..], k)
  }

  lemma KeySetConcat(a: List, b: List)
    ensures KeySet(a + b) == KeySet(a) + KeySet(b)
  {
    var s := a + b;
    forall k | k in KeySet(b) ensures k in KeySet(s) {
      var i :| 0 <= i < |b| && b[i].key == k;
      assert s[|a| + i].key == k;
    }
    forall k | k in KeySet(a) ensures k in KeySet(s) {
      var i :| 0 <= i < |a| && a[i].key == k;
      assert s[i].key == k;
    }
  }

  lemma DistinctKeysConcat(a: List, b: List)
    ensures DistinctKeys(a + b) <==> DistinctKeys(a) && DistinctKeys(b) && KeySet(a) !! KeySet(b)
  {
    var s := a + b;
    assert forall i :: 0 <= i < |a| ==> s[i] == a[i];
    assert forall i :: 0 <= i < |b| ==> s[|a| + i] == b[i];
    if DistinctKeys(s) {
      forall i, j | 0 <= i < |a| && 0 <= j < |b| ensures a[i].key != b[j].key {
        assert s[i].key != s[|a| + j].key;
      }
      forall i, j | 0 <= i < j < |b| ensures b[i].key != b[j].key {
        assert s[|a| + i].key != s[|a| + j].key;
      }
      assert forall i, j :: 0 <= i < j < |a| ==> s[i].key != s[j].key;
    }
    if DistinctKeys(a) && DistinctKeys(b) && KeySet(a) !! KeySet(b) {
      forall i, j | 0 <= i < j < |s| ensures s[i].key != s[j].key {
        if i < |a| <= j {
          assert a[i].key in KeySet(a) && b[j - |a|].key in KeySet(b);
        }
      }
    }
  }

  lemma {:induction false} KeySetSize(q: List)
    requires DistinctKeys(q)
    ensures |KeySet(q)| == |q|
  {
    if q != [] {
      var n := |q| - 1;
      KeySetSize(q[..n]);
      assert q == q[..n] + [q[n]];
      KeySetConcat(q[..n], [q[n]]);
      DistinctKeysConcat(q[..n], [q[n]]);
      assert KeySet([q[n]]) == {q[n].key} by {
        assert [q[n]][0].key in KeySet([q[n]]);
      }
    }
  }

  lemma {:induction false} ListMapKeys(q: List)
    ensures ListMap(q).Keys == KeySet(q)
  {
    if q != [] {
      var n := |q| - 1;
      ListMapKeys(q[..n]);
      assert q == q[..n] + [q[n]];
      KeySetConcat(q[..n], [q[n]]);
      assert KeySet([q[n]]) == {q[n].key} by {
        assert [q[n]][0].key in KeySet([q[n]]);
      }
    }
  }

  lemma {:induction false} ListMapOf(q: List)
    requires DistinctKeys(q)
    ensures ListMap(q).Keys == KeySet(q)
    ensures forall i :: 0 <= i < |q| ==> q[i].key in ListMap(q) && ListMap(q)[q[i].key] == q[i].value
  {
    ListMapKeys(q);
    if q != [] {
      ListMapOf(q[..|q| - 1]);
    }
  }

  // A map that has a list's keys and values is that list's map.
  lemma ListMapIs(q: List, m: map<Key, Bytes>)
    requires DistinctKeys(q) && m.Keys == KeySet(q)
    requires forall i :: 0 <= i < |q| ==> q[i].key in m && m[q[i].key] == q[i].value
    ensures m == ListMap(q)
  {
    ListMapOf(q);
    forall k | k in m ensures m[k] == ListMap(q)[k] {
      var i :| 0 <= i < |q| && q[i].key == k;
    }
  }

  lemma {:induction false} EraseAbsent(q: List, k: Key)
    requires k !in KeySet(q)
    ensures Erase(q, k) == q
  {
    if q != [] {
      assert q[0].key in KeySet(q);
      forall x | x in KeySet(q[1..]) ensures x in KeySet(q) {
        var i :| 0 <= i < |q[1..]| && q[1..][i].key == x;
        assert q[i + 1].key == x;
      }
      EraseAbsent(q[1..], k);
    }
  }

  // Erasing a key that is there cuts its node out.
  lemma {:induction false} EraseCuts(q: List, k: Key) returns (i: nat)
    requires k in KeySet(q)
    ensures i < |q| && q[i].key == k && Erase(q, k) == q[..i] + q[i + 1..]
  {
    if q[0].key == k {
      i := 0;
    } else {
      var j :| 0 <= j < |q| && q[j].key == k;
      assert q[1..][j - 1].key == k;
      var n := EraseCuts(q[1..], k);
      i := n + 1;
      assert q[..i] == [q[0]] + q[1..][..n];
    }
  }

  lemma EraseKeys(q: List, k: Key)
    requires DistinctKeys(q)
    ensures DistinctKeys(Erase(q, k)) && KeySet(Erase(q, k)) == KeySet(q) - {k}
    ensures |Erase(q, k)| == |q| - (if k in KeySet(q) then 1 else 0)
    ensures ListMap(Erase(q, k)) == ListMap(q) - {k}
  {
    ListMapOf(q);
    if k !in KeySet(q) {
      EraseAbsent(q, k);
      assert ListMap(q) - {k} == ListMap(q);
    } else {
      var i := EraseCuts(q, k);
      CutOut(q, i);
    }
  }

  lemma CutOut(q: List, i: nat)
    requires DistinctKeys(q) && i < |q|
    ensures var e := q[..i] + q[i + 1..];
            DistinctKeys(e) && KeySet(e) == KeySet(q) - {q[i].key} && ListMap(e) == ListMap(q) - {q[i].key}
  {
    var e, k := q[..i] + q[i + 1..], q[i].key;
    assert forall j :: 0 <= j < |e| ==> e[j] == q[if j < i then j else j + 1];
    assert DistinctKeys(e);
    forall x | x in KeySet(q) && x != k ensures x in KeySet(e) {
      var j :| 0 <= j < |q| && q[j].key == x;
      assert e[if j < i then j else j - 1].key == x;
    }
    assert KeySet(e) == KeySet(q) - {k};
    ListMapOf(q);
    var m := ListMap(q) - {k};
    assert forall j :: 0 <= j < |e| ==> e[j].key in m && m[e[j].key] == e[j].value;
    ListMapIs(e, m);
  }

  lemma PushKeys(q: List, p: Pair)
    requires DistinctKeys(q) && p.key !in KeySet(q)
    ensures DistinctKeys(q + [p]) && KeySet(q + [p]) == KeySet(q) + {p.key}
    ensures ListMap(q + [p]) == ListMap(q)[p.key := p.value]
  {
    assert KeySet([p]) == {p.key} by {
      assert [p][0].key in KeySet([p]);
    }
    DistinctKeysConcat(q, [p]);
    KeySetConcat(q, [p]);
    assert (q + [p])[..|q|] == q;
  }

  lemma PopKeys(q: List)
    requires DistinctKeys(q) && q != []
    ensures DistinctKeys(q[1..]) && KeySet(q[1..]) == KeySet(q) - {q[0].key}
    ensures ListMap(q[1..]) == ListMap(q) - {q[0].key}
  {
    assert q[0].key in KeySet(q);
    assert Erase(q, q[0].key) == q[1..];
    EraseKeys(q, q[0].key);
  }

  class Cache {
    var accessList: List
    var cacheMap: map<Key, Bytes>

    // Distinct keys in the list, and the map agrees with it.
    ghost predicate Valid()
      reads this
    {
      DistinctKeys(accessList) && cacheMap == ListMap(accessList)
    }

    constructor ()
      ensures Valid() && accessList == []
    {
      accessList, cacheMap := [], map[];
    }

    function CheckIfKeyExists(key: Key): bool
      reads this
    {
      key in cacheMap
    }

    method InsertIntoCache(key: Key, value: Bytes)
      requires Valid()
      modifies this
      ensures Valid() && accessList == Erase(old(accessList), key) + [Pair(key, value)]
    {
      hide DistinctKeys, ListMap, Erase;
      ListMapOf(accessList);
      EraseKeys(accessList, key);
      PushKeys(Erase(accessList, key), Pair(key, value));
      if key !in cacheMap {
        EraseAbsent(accessList, key);
      } else {
        accessList := Erase(accessList, key);
      }
      accessList := accessList + [Pair(key, value)];
      cacheMap := cacheMap[key := value];
      assert cacheMap == (ListMap(old(accessList)) - {key})[key := value];
    }

    // None stands for the pair of empty strings an empty cache gives.
    method EvictLRElementFromCache() returns (evicted: Option<Pair>)
      requires Valid()
      modifies this
      ensures Valid()
      ensures old(accessList) == [] ==> evicted == None && accessList == []
      ensures old(accessList) != [] ==> evicted == Some(old(accessList)[0]) && accessList == old(accessList)[1..]
    {
      if accessList == [] {
        return None;
      }
      PopKeys(accessList);
      evicted := Some(accessList[0]);
      cacheMap := cacheMap - {accessList[0].key};
      accessList := accessList[1..];
    }

    method RemoveKey(key: Key) returns (removed: bool)
      requires Valid()
      modifies this
      ensures Valid() && accessList == Erase(old(accessList), key)
      ensures removed <==> key in KeySet(old(accessList))
    {
      ListMapOf(accessList);
      EraseKeys(accessList, key);
      if key !in cacheMap {
        EraseAbsent(accessList, key);
        return false;
      }
      accessList := Erase(accessList, key);
      cacheMap := cacheMap - {key};
      removed := true;
    }

    method GetValueWithoutPositionChangeNew(key: Key) returns (value: Bytes, isPresent: bool)
      requires Valid()
      ensures isPresent <==> key in KeySet(accessList)
      ensures isPresent ==> key in ListMap(accessList) && value == ListMap(accessList)[key]
      ensures !isPresent ==> value == []
    {
      ListMapOf(accessList);
      if key !in cacheMap {
        return [], false;
      }
      return cacheMap[key], true;
    }
  }
}
