// Facts about sequences without repetitions.
module Seqs {
  function Elems<T>(s: seq<T>): set<T> {
    set x | x in s
  }

  predicate Distinct<T(==)>(s: seq<T>) {
    forall i, j :: 0 <= i < j < |s| ==> s[i] != s[j]
  }

  lemma {:induction false} DistinctSize<T>(s: seq<T>)
    requires Distinct(s)
    ensures |Elems(s)| == |s|
  {
    if s != [] {
      var n := |s| - 1;
      DistinctSize(s[..n]);
      assert s == s[..n] + [s[n]];
      assert Elems(s) == Elems(s[..n]) + {s[n]};
      assert s[n] !in s[..n];
    }
  }

  lemma ElemsConcat<T>(a: seq<T>, b: seq<T>)
    ensures Elems(a + b) == Elems(a) + Elems(b)
  {
  }

  lemma ElemsEmpty<T>(s: seq<T>)
    ensures Elems(s) == {} <==> s == []
  {
    if s != [] {
      assert s[0] in Elems(s);
    }
  }

  lemma DistinctConcat<T>(a: seq<T>, b: seq<T>)
    ensures Distinct(a + b) <==> Distinct(a) && Distinct(b) && Elems(a) !! Elems(b)
  {
    var s := a + b;
    assert forall i :: 0 <= i < |a| ==> s[i] == a[i];
    assert forall i :: 0 <= i < |b| ==> s[|a| + i] == b[i];
    if Distinct(s) {
      forall i, j | 0 <= i < |a| && 0 <= j < |b| ensures a[i] != b[j] {
        assert s[i] != s[|a| + j];
      }
      forall i, j | 0 <= i < j < |b| ensures b[i] != b[j] {
        assert s[|a| + i] != s[|a| + j];
      }
      assert forall i, j :: 0 <= i < j < |a| ==> s[i] != s[j];
    }
    if Distinct(a) && Distinct(b) && Elems(a) !! Elems(b) {
      forall i, j | 0 <= i < j < |s| ensures s[i] != s[j] {
        if i < |a| <= j {
          assert a[i] in Elems(a) && b[j - |a|] in Elems(b);
        }
      }
    }
  }

  // What is left of a sequence of draws when every repetition is rejected.
  function Fresh<T(==)>(draws: seq<T>): seq<T> {
    if draws == [] then []
    else
      var front, last := Fresh(draws[..|draws| - 1]), draws[|draws| - 1];
      if last in front then front else front + [last]
  }

  lemma {:induction false} FreshIs<T>(draws: seq<T>)
    ensures Distinct(Fresh(draws)) && Elems(Fresh(draws)) == Elems(draws)
  {
    if draws != [] {
      var n := |draws| - 1;
      FreshIs(draws[..n]);
      var front := Fresh(draws[..n]);
      assert draws[n] in front <==> draws[n] in Elems(front);
      assert draws == draws[..n] + [draws[n]];
      ElemsConcat(draws[..n], [draws[n]]);
      ElemsConcat(front, [draws[n]]);
      DistinctConcat(front, [draws[n]]);
      assert Elems([draws[n]]) == {draws[n]};
    }
  }

  lemma {:induction false} FreshPrefix<T>(draws: seq<T>, i: nat)
    requires i <= |draws|
    ensures var a, b := Fresh(draws[..i]), Fresh(draws); |a| <= |b| && b[..|a|] == a
    decreases |draws|
  {
    if i < |draws| {
      var n := |draws| - 1;
      FreshPrefix(draws[..n], i);
      assert draws[..n][..i] == draws[..i];
    } else {
      assert draws[..i] == draws;
    }
  }

  lemma FreshNext<T>(draws: seq<T>, i: nat)
    requires i < |draws|
    ensures var a := Fresh(draws[..i]); Fresh(draws[..i + 1]) == if draws[i] in a then a else a + [draws[i]]
  {
    assert draws[..i + 1][..i] == draws[..i];
  }

  // The first n that are accepted, if there are so many.
  function Accepted<T(==)>(draws: seq<T>, n: nat): (a: seq<T>)
    ensures |a| <= n
  {
    if |Fresh(draws)| <= n then Fresh(draws) else Fresh(draws)[..n]
  }

  function Flatten<T>(ss: seq<seq<T>>): seq<T> {
    if ss == [] then [] else ss[0] + Flatten(ss[1..])
  }

  lemma {:induction false} FlattenConcat<T>(a: seq<seq<T>>, b: seq<seq<T>>)
    ensures Flatten(a + b) == Flatten(a) + Flatten(b)
  {
    if a == [] {
      assert a + b == b;
    } else {
      FlattenConcat(a[1..], b);
      assert (a + b)[0] == a[0] && (a + b)[1..] == a[1..] + b;
      assert a[0] + (Flatten(a[1..]) + Flatten(b)) == (a[0] + Flatten(a[1..])) + Flatten(b);
    }
  }

  lemma FlattenSnoc<T>(ss: seq<seq<T>>, s: seq<T>)
    ensures Flatten(ss + [s]) == Flatten(ss) + s
  {
    FlattenConcat(ss, [s]);
    assert Flatten([s]) == s + Flatten([]);
  }

  lemma Inhabited(s: set<int>)
    ensures s == {} || exists c :: c in s
  {
    if forall c :: c !in s {
      assert s == {};
    }
  }

  lemma {:induction false} LeastExists(s: set<int>) returns (t: int)
    requires s != {}
    ensures t in s && forall o :: o in s ==> t <= o
  {
    Inhabited(s);
    var c :| c in s;
    if s == {c} {
      t := c;
    } else {
      assert s == s - {c} + {c};
      t := LeastExists(s - {c});
      if c < t {
        t := c;
      }
    }
  }
}
