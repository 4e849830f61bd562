// waffle_proxy::get_split_keys: the buckets a range GET has to read.
module Splits {
  import opened Seqs
  import opened Keys

  // The buckets of [lo, hi], and the last one before lo: it may still hold points of the range.
  function Wanted(stamps: set<int>, lo: int, hi: int): set<int> {
    set t | t in stamps && t <= hi && (lo <= t || !exists u :: u in stamps && t < u < lo)
  }

  predicate Ascending(v: seq<int>) {
    forall i, j :: 0 <= i < j < |v| ==> v[i] < v[j]
  }

  ghost function Least(s: set<int>): (t: int)
    requires s != {}
    ensures t in s && forall o :: o in s ==> t <= o
  {
    assert exists t :: t in s && forall o :: o in s ==> t <= o by {
      var t := LeastExists(s);
    }
    var t :| t in s && forall o :: o in s ==> t <= o;
    t
  }

  lemma SortedCons(t: int, rest: seq<int>)
    requires Ascending(rest) && forall o :: o in Elems(rest) ==> t < o
    ensures Ascending([t] + rest) && Elems([t] + rest) == {t} + Elems(rest)
  {
    assert forall i :: 0 <= i < |rest| ==> rest[i] in Elems(rest);
    ElemsConcat([t], rest);
  }

  // The elements of a set in ascending order.
  ghost function Sorted(s: set<int>): (v: seq<int>)
    ensures Ascending(v) && Elems(v) == s
    decreases |s|
  {
    if s == {} then []
    else
      var t := Least(s);
      var rest := Sorted(s - {t});
      SortedCons(t, rest);
      assert s == {t} + (s - {t});
      [t] + rest
  }

  lemma {:induction false} AscendingUnique(v: seq<int>, w: seq<int>)
    requires Ascending(v) && Ascending(w) && Elems(v) == Elems(w)
    ensures v == w
    decreases |v|
  {
    if v == [] {
      ElemsEmpty(w);
    } else {
      assert v[0] in Elems(w) && w != [];
      assert w[0] in Elems(v);
      assert v[0] == w[0];
      forall x | x in Elems(v[1..]) ensures x in Elems(w[1..]) {
        assert x in Elems(w) && x != w[0];
      }
      forall x | x in Elems(w[1..]) ensures x in Elems(v[1..]) {
        assert x in Elems(v) && x != v[0];
      }
      AscendingUnique(v[1..], w[1..]);
      assert v == [v[0]] + v[1..] && w == [w[0]] + w[1..];
    }
  }

  // std::lower_bound.
  method LowerBound(v: seq<int>, x: int) returns (n: nat)
    requires Ascending(v)
    ensures n <= |v| && (forall i :: 0 <= i < n ==> v[i] < x) && (forall i :: n <= i < |v| ==> x <= v[i])
  {
    n := 0;
    while n < |v| && v[n] < x
      invariant n <= |v| && forall i :: 0 <= i < n ==> v[i] < x
    {
      n := n + 1;
    }
  }

  // std::upper_bound.
  method UpperBound(v: seq<int>, x: int) returns (n: nat)
    requires Ascending(v)
    ensures n <= |v| && (forall i :: 0 <= i < n ==> v[i] <= x) && (forall i :: n <= i < |v| ==> x < v[i])
  {
    n := 0;
    while n < |v| && v[n] <= x
      invariant n <= |v| && forall i :: 0 <= i < n ==> v[i] <= x
    {
      n := n + 1;
    }
  }

  // The set of timestamps as a sorted vector.
  method SortedVector(stamps: set<int>) returns (v: seq<int>)
    ensures Ascending(v) && Elems(v) == stamps
  {
    var rest := stamps;
    v := [];
    while rest != {}
      invariant rest <= stamps && Elems(v) == stamps - rest && Ascending(v)
      invariant forall i, o :: 0 <= i < |v| && o in rest ==> v[i] < o
    {
      ghost var least := LeastExists(rest);
      var t :| t in rest && forall o :: o in rest ==> t <= o;
      ElemsConcat(v, [t]);
      v := v + [t];
      rest := rest - {t};
    }
  }

  // The cut the source takes, from one before the lower bound up to the upper bound, is exactly Wanted.
  method SplitTimes(stamps: set<int>, lo: int, hi: int) returns (db: seq<int>)
    ensures db == Sorted(Wanted(stamps, lo, hi))
  {
    var v := SortedVector(stamps);
    var lower := LowerBound(v, lo);
    if lower != 0 {
      lower := lower - 1;
    }
    var upper := UpperBound(v, hi);
    db := [];
    if lower < upper {
      db := v[lower..upper];
    }
    CutIsWanted(v, stamps, lo, hi, lower, upper, db);
    AscendingUnique(db, Sorted(Wanted(stamps, lo, hi)));
  }

  // Where the two bounds cut a sorted vector.
  ghost predicate Cuts(v: seq<int>, lo: int, hi: int, lower: nat, upper: nat) {
    && lower <= |v| && upper <= |v| && (lower == |v| ==> v == [])
    && (forall i :: 0 <= i < upper ==> v[i] <= hi) && (forall i :: upper <= i < |v| ==> hi < v[i])
    && (forall i :: lower < i < |v| ==> lo <= v[i])
    && (lower > 0 ==> v[lower] < lo)
  }

  lemma CutHasWanted(v: seq<int>, stamps: set<int>, lo: int, hi: int, lower: nat, upper: nat, t: int)
    requires Ascending(v) && Elems(v) == stamps && Cuts(v, lo, hi, lower, upper) && t in Wanted(stamps, lo, hi)
    ensures lower < upper && t in v[lower..upper]
  {
    var i :| 0 <= i < |v| && v[i] == t;
    assert lower < |v| && v[lower] in Elems(v);
    assert lower <= i < upper;
    assert v[lower..upper][i - lower] == t;
  }

  lemma CutIsInWanted(v: seq<int>, stamps: set<int>, lo: int, hi: int, lower: nat, upper: nat, i: nat)
    requires Ascending(v) && Elems(v) == stamps && Cuts(v, lo, hi, lower, upper) && lower <= i < upper
    ensures v[i] in Wanted(stamps, lo, hi)
  {
    assert v[i] in Elems(v);
    if v[i] < lo {
      assert i == lower;
      forall u | u in stamps && v[i] < u ensures lo <= u {
        var m :| 0 <= m < |v| && v[m] == u;
        assert m > i;
      }
    }
  }

  lemma CutIsWanted(v: seq<int>, stamps: set<int>, lo: int, hi: int, lower: nat, upper: nat, db: seq<int>)
    requires Ascending(v) && Elems(v) == stamps && Cuts(v, lo, hi, lower, upper)
    requires db == if lower < upper then v[lower..upper] else []
    ensures Ascending(db) && Elems(db) == Wanted(stamps, lo, hi)
  {
    hide Wanted, Ascending;
    forall t | t in Wanted(stamps, lo, hi) ensures t in db {
      CutHasWanted(v, stamps, lo, hi, lower, upper, t);
    }
    forall t | t in db ensures t in Wanted(stamps, lo, hi) {
      var j :| 0 <= j < |db| && db[j] == t;
      CutIsInWanted(v, stamps, lo, hi, lower, upper, lower + j);
    }
    CutAscends(v, lower, upper, db);
  }

  lemma CutAscends(v: seq<int>, lower: nat, upper: nat, db: seq<int>)
    requires Ascending(v) && upper <= |v| && db == if lower < upper then v[lower..upper] else []
    ensures Ascending(db)
  {
  }

  // For a range that is not empty: every bucket in it, and the greatest one below its start if there is one.
  lemma WantedIsRangeAndPredecessor(stamps: set<int>, lo: int, hi: int, t: int)
    requires lo <= hi
    ensures t in Wanted(stamps, lo, hi)
       <==> t in stamps && (lo <= t <= hi || (t < lo && forall u :: u in stamps && u < lo ==> u <= t))
  {
  }

  // A range that ends before its start selects the bucket just below the start, if that is not after the end.
  lemma WantedOfInvertedRange(stamps: set<int>, lo: int, hi: int, t: int)
    requires hi < lo
    ensures t in Wanted(stamps, lo, hi)
       <==> t in stamps && t <= hi && forall u :: u in stamps && u < lo ==> u <= t
  {
  }

  // A split is empty exactly when every bucket is after the end, or, for a range that ends before its start, some bucket
  // lies strictly between the two.
  lemma EmptySplit(stamps: set<int>, lo: int, hi: int)
    ensures Wanted(stamps, lo, hi) == {} <==> (forall t :: t in stamps ==> hi < t) || exists u :: u in stamps && hi < u < lo
  {
    var early := set t | t in stamps && t <= hi;
    var v := Sorted(early);
    assert forall t :: t in early ==> t in Elems(v);
    if v == [] {
      assert forall t :: t in stamps && t <= hi ==> t in early;
    } else {
      var t := v[|v| - 1];
      assert t in Elems(v) && forall u :: u in early ==> u <= t;
      if !exists u :: u in stamps && hi < u < lo {
        forall u | u in stamps && t < u ensures lo <= u {
          assert u !in early;
        }
        assert t in early && t in Wanted(stamps, lo, hi);
      }
    }
  }

  ghost function BucketsAt(item: Item, times: seq<int>): (keys: seq<Key>)
    ensures |keys| == |times|
  {
    seq(|times|, i requires 0 <= i < |times| => Bucket(item, times[i]))
  }

  // The sub-operations of a range GET.
  ghost function SplitKeys(item: Item, stamps: set<int>, lo: int, hi: int): seq<Key> {
    BucketsAt(item, Sorted(Wanted(stamps, lo, hi)))
  }

  // A split names the item's buckets in the range and the last one before it, each once, from the oldest to the newest.
  lemma SplitKeysAre(item: Item, stamps: set<int>, lo: int, hi: int)
    ensures var keys := SplitKeys(item, stamps, lo, hi);
            && (forall k :: k in keys <==>
                  (k.Bucket? && k.item == item && k.ts in stamps && k.ts <= hi
                   && (lo <= k.ts || !exists u :: u in stamps && k.ts < u < lo)))
            && (forall i, j :: 0 <= i < j < |keys| ==> keys[i].Bucket? && keys[j].Bucket? && keys[i].ts < keys[j].ts)
  {
    var times := Sorted(Wanted(stamps, lo, hi));
    var keys := SplitKeys(item, stamps, lo, hi);
    assert forall i :: 0 <= i < |times| ==> keys[i] == Bucket(item, times[i]) && times[i] in Elems(times);
    forall t | t in Wanted(stamps, lo, hi) ensures Bucket(item, t) in keys {
      assert t in Elems(times);
      var i :| 0 <= i < |times| && times[i] == t;
      assert keys[i] == Bucket(item, t);
    }
    assert forall k :: k in keys ==> k.Bucket? && k.item == item && k.ts in Wanted(stamps, lo, hi);
  }

  lemma SplitKeysEmpty(item: Item, stamps: set<int>, lo: int, hi: int)
    ensures SplitKeys(item, stamps, lo, hi) == [] <==> Wanted(stamps, lo, hi) == {}
  {
    ElemsEmpty(Sorted(Wanted(stamps, lo, hi)));
  }
}
