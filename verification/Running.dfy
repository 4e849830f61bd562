// ThreadSafeUnorderedMap: which records are being read, and which range GETs wait for them.
module Running {
  import opened Keys
  import opened Seqs
  import opened Texts
  import opened Values

  // What a promise is set to. Floating-point addition is left symbolic: the values to be added, in order. NoRecordFound is
  // the answer for an unknown key.
  datatype Answer = Total(sum: int) | FloatTotal(values: seq<Bytes>) | NoRecordFound

  // m_map_, get_map, request_map and get_cache, and the set_value calls each GET's promise has seen.
  // A GET's promise is identified with its request id.
  datatype Tracker = Tracker(running: set<Key>, waiting: map<Key, set<nat>>, requests: map<nat, seq<Key>>,
                             got: map<Key, Bytes>, answers: map<nat, seq<Answer>>)

  // DataType::get_data_type: what stands between the first two ampersands.
  function DataType(text: string): string {
    var first := Find(text, '&');
    if first == |text| then "string"
    else
      var rest := text[first + 1..];
      var second := Find(rest, '&');
      if second == |rest| then "string" else rest[..second]
  }

  function Summand(kind: string, b: Bytes): int {
    if kind == "int" then SumInts(DeserializeInts(b)) else CountTrue(DeserializeBools(b))
  }

  predicate Fulfilled(keys: seq<Key>, got: map<Key, Bytes>) {
    forall k :: k in keys ==> k in got
  }

  function SumOver(kind: string, keys: seq<Key>, vals: map<Key, Bytes>): int
    requires Fulfilled(keys, vals)
  {
    if keys == [] then 0
    else SumOver(kind, keys[..|keys| - 1], vals) + Summand(kind, vals[keys[|keys| - 1]])
  }

  function ValuesOf(keys: seq<Key>, vals: map<Key, Bytes>): seq<Bytes>
    requires Fulfilled(keys, vals)
  {
    if keys == [] then [] else ValuesOf(keys[..|keys| - 1], vals) + [vals[keys[|keys| - 1]]]
  }

  // The answer to a GET that was split into keys, when their values are vals.
  function AnswerOf(keys: seq<Key>, vals: map<Key, Bytes>): Answer
    requires keys != [] && Fulfilled(keys, vals)
  {
    var kind := DataType(KeyText(keys[0]));
    if kind == "float" then FloatTotal(ValuesOf(keys, vals))
    else Total(SumOver(kind, keys, vals))
  }

  // ---- what the answer is ----

  lemma {:induction false} SumOverConcat(kind: string, a: seq<Key>, b: seq<Key>, m: map<Key, Bytes>)
    requires Fulfilled(a, m) && Fulfilled(b, m)
    ensures Fulfilled(a + b, m) && SumOver(kind, a + b, m) == SumOver(kind, a, m) + SumOver(kind, b, m)
  {
    if b == [] {
      assert a + b == a;
    } else {
      var front := b[..|b| - 1];
      SumOverConcat(kind, a, front, m);
      assert (a + b)[..|a + b| - 1] == a + front;
    }
  }

  // One key adds the numbers of its vector.
  lemma SumOverOneInts(k: Key, m: map<Key, Bytes>, ws: seq<Word>)
    requires k in m && m[k] == SerializeInts(ws)
    ensures SumOver("int", [k], m) == SumInts(ws)
  {
    DeserializeSerialize(ws);
    assert [k][..0] == [];
    assert SumOver("int", [], m) == 0;
  }

  // Any other type than int or float counts the elements that are true.
  lemma SumOverOneBools(kind: string, k: Key, m: map<Key, Bytes>, vs: seq<bool>)
    requires kind != "int" && k in m && m[k] == SerializedBools(vs)
    ensures SumOver(kind, [k], m) == CountTrue(vs)
  {
    assert DeserializeBools(m[k]) == vs;
    assert [k][..0] == [];
    assert SumOver(kind, [], m) == 0;
  }

  // keys[i] holds the ints wss[i].
  ghost predicate HoldInts(keys: seq<Key>, m: map<Key, Bytes>, wss: seq<seq<Word>>) {
    |wss| == |keys| && forall i :: 0 <= i < |keys| ==> keys[i] in m && m[keys[i]] == SerializeInts(wss[i])
  }

  ghost predicate HoldBools(keys: seq<Key>, m: map<Key, Bytes>, vss: seq<seq<bool>>) {
    |vss| == |keys| && forall i :: 0 <= i < |keys| ==> keys[i] in m && m[keys[i]] == SerializedBools(vss[i])
  }

  // Every int of every key is added once, the first key's included.
  lemma {:induction false} SumOfInts(keys: seq<Key>, m: map<Key, Bytes>, wss: seq<seq<Word>>)
    requires HoldInts(keys, m, wss)
    ensures Fulfilled(keys, m) && SumOver("int", keys, m) == SumInts(Flatten(wss))
  {
    if keys != [] {
      SumOfInts(keys[1..], m, wss[1..]);
      SumOverOneInts(keys[0], m, wss[0]);
      SumOverConcat("int", [keys[0]], keys[1..], m);
      assert keys == [keys[0]] + keys[1..];
      SumIntsConcat(wss[0], Flatten(wss[1..]));
    }
  }

  lemma {:induction false} SumOfBools(kind: string, keys: seq<Key>, m: map<Key, Bytes>, vss: seq<seq<bool>>)
    requires kind != "int" && HoldBools(keys, m, vss)
    ensures Fulfilled(keys, m) && SumOver(kind, keys, m) == CountTrue(Flatten(vss))
  {
    if keys != [] {
      SumOfBools(kind, keys[1..], m, vss[1..]);
      SumOverOneBools(kind, keys[0], m, vss[0]);
      SumOverConcat(kind, [keys[0]], keys[1..], m);
      assert keys == [keys[0]] + keys[1..];
      CountTrueConcat(vss[0], Flatten(vss[1..]));
    }
  }

  lemma {:induction false} ValuesInOrder(keys: seq<Key>, m: map<Key, Bytes>, i: nat)
    requires Fulfilled(keys, m) && i < |keys|
    ensures |ValuesOf(keys, m)| == |keys| && ValuesOf(keys, m)[i] == m[keys[i]]
  {
    var n := |keys| - 1;
    if n > 0 {
      ValuesInOrder(keys[..n], m, if i < n then i else 0);
    }
  }

  // What stands between the first two ampersands.
  lemma DataTypeIs(a: string, t: string, rest: string)
    requires '&' !in a && '&' !in t
    ensures DataType(a + "&" + t + "&" + rest) == t
  {
    var text := a + "&" + t + "&" + rest;
    assert text == a + ['&'] + (t + ['&'] + rest);
    CutAt(a, '&', t + ['&'] + rest);
    CutAt(t, '&', rest);
  }

  // A name with fewer ampersands is a string's.
  lemma NoType(a: string, b: string)
    requires '&' !in a && '&' !in b
    ensures DataType(a) == "string" && DataType(a + "&" + b) == "string"
  {
    CutAt(a, '&', b);
    assert a + ['&'] + b == a + "&" + b;
  }

  // The name of an item whose values have the given type.
  ghost predicate HasType(item: Item, kind: string) {
    '&' !in kind && exists a: string, rest: string :: '&' !in a && item == a + "&" + kind + "&" + rest
  }

  lemma Regroup(a: string, b: string, c: string)
    ensures a + b + c == a + (b + c)
  {
  }

  lemma TypeOfBucket(item: Item, ts: int, kind: string)
    requires HasType(item, kind)
    ensures DataType(KeyText(Bucket(item, ts))) == kind
  {
    hide DataType, IntText;
    var a: string, rest: string :| '&' !in a && item == a + "&" + kind + "&" + rest;
    Regroup(a + "&" + kind + "&", rest, "@" + IntText(ts));
    Regroup(item, "@", IntText(ts));
    Regroup(rest, "@", IntText(ts));
    DataTypeIs(a, kind, rest + "@" + IntText(ts));
  }

  // An int item is answered with the sum of all its ints in the split.
  lemma AnswerOfInts(item: Item, keys: seq<Key>, m: map<Key, Bytes>, wss: seq<seq<Word>>)
    requires HasType(item, "int") && keys != [] && keys[0].Bucket? && keys[0].item == item && HoldInts(keys, m, wss)
    ensures Fulfilled(keys, m) && AnswerOf(keys, m) == Total(SumInts(Flatten(wss)))
  {
    TypeOfBucket(item, keys[0].ts, "int");
    SumOfInts(keys, m, wss);
  }

  // An item of any type but int and float is answered with the number of elements that are true.
  lemma AnswerOfBools(item: Item, kind: string, keys: seq<Key>, m: map<Key, Bytes>, vss: seq<seq<bool>>)
    requires HasType(item, kind) && kind != "int" && kind != "float"
    requires keys != [] && keys[0].Bucket? && keys[0].item == item && HoldBools(keys, m, vss)
    ensures Fulfilled(keys, m) && AnswerOf(keys, m) == Total(CountTrue(Flatten(vss)))
  {
    TypeOfBucket(item, keys[0].ts, kind);
    SumOfBools(kind, keys, m, vss);
  }

  // A float item with the values to be added, in the order of the split.
  lemma AnswerOfFloats(item: Item, keys: seq<Key>, m: map<Key, Bytes>, i: nat)
    requires HasType(item, "float") && i < |keys| && keys[0].Bucket? && keys[0].item == item && Fulfilled(keys, m)
    ensures var answer := AnswerOf(keys, m);
            answer.FloatTotal? && |answer.values| == |keys| && answer.values[i] == m[keys[i]]
  {
    TypeOfBucket(item, keys[0].ts, "float");
    ValuesInOrder(keys, m, i);
  }

  function Calls(answers: map<nat, seq<Answer>>, r: nat): seq<Answer> {
    if r in answers then answers[r] else []
  }

  predicate Ready(done: set<nat>, requests: map<nat, seq<Key>>, vals: map<Key, Bytes>) {
    forall r :: r in done ==> r in requests && requests[r] != [] && Fulfilled(requests[r], vals)
  }

  // The requests that are answered get one more call each.
  function Record(answers: map<nat, seq<Answer>>, done: set<nat>, requests: map<nat, seq<Key>>,
                  vals: map<Key, Bytes>): map<nat, seq<Answer>>
    requires Ready(done, requests, vals)
  {
    map r | r in answers.Keys + done ::
      if r in done then Calls(answers, r) + [AnswerOf(requests[r], vals)] else answers[r]
  }

  // Nothing the clearing code would look up has been erased, and no request is empty.
  predicate Clearable(t: Tracker, key: Key) {
    && (key in t.waiting ==> t.waiting[key] <= t.requests.Keys)
    && (forall r :: r in t.requests ==> t.requests[r] != [])
  }

  function FulfilledOf(ids: set<nat>, requests: map<nat, seq<Key>>, got: map<Key, Bytes>): (done: set<nat>)
    requires ids <= requests.Keys
    ensures done <= ids
  {
    set r | r in ids && Fulfilled(requests[r], got)
  }

  lemma FulfilledOfMore(ids: set<nat>, requests: map<nat, seq<Key>>, got: map<Key, Bytes>, r: nat)
    requires ids <= requests.Keys && r in requests
    ensures FulfilledOf(ids + {r}, requests, got)
         == FulfilledOf(ids, requests, got) + (if Fulfilled(requests[r], got) then {r} else {})
  {
  }

  function TryClear(t: Tracker, key: Key, value: Bytes): Tracker
    requires Clearable(t, key)
  {
    if key !in t.waiting then t.(running := t.running - {key})
    else
      var got := t.got[key := value];
      var done := FulfilledOf(t.waiting[key], t.requests, got);
      var requests := t.requests - done;
      var answers := Record(t.answers, done, t.requests, got);
      if done != {} && requests == map[] then Tracker(t.running - {key}, map[], map[], map[], answers)
      else Tracker(t.running - {key}, t.waiting, requests, got, answers)
  }

  function TryClearAll(t: Tracker): Tracker
    requires forall r :: r in t.requests ==> t.requests[r] != []
  {
    var done := FulfilledOf(t.requests.Keys, t.requests, t.got);
    var requests := t.requests - done;
    var answers := Record(t.answers, done, t.requests, t.got);
    if requests == map[] then Tracker(t.running, map[], map[], map[], answers)
    else Tracker(t.running, t.waiting, requests, t.got, answers)
  }

  function Busy(t: Tracker, key: Key): bool {
    key in t.running || key in t.waiting
  }

  function WaitFor(t: Tracker, key: Key, r: nat): Tracker {
    var ids := if key in t.waiting then t.waiting[key] else {};
    t.(waiting := t.waiting[key := ids + {r}], requests := t.requests[r := KeysOf(t, r) + [key]])
  }

  function KeysOf(t: Tracker, r: nat): seq<Key> {
    if r in t.requests then t.requests[r] else []
  }

  function Hit(t: Tracker, r: nat, key: Key, value: Bytes): Tracker {
    t.(got := t.got[key := value], requests := t.requests[r := KeysOf(t, r) + [key]])
  }

  function Refused(t: Tracker, r: nat): Tracker {
    t.(answers := t.answers[r := Calls(t.answers, r) + [NoRecordFound]])
  }

  lemma RecordMore(answers: map<nat, seq<Answer>>, done: set<nat>, requests: map<nat, seq<Key>>,
                   vals: map<Key, Bytes>, r: nat)
    requires Ready(done, requests, vals) && r !in done && r in requests && requests[r] != [] && Fulfilled(requests[r], vals)
    ensures var a := Record(answers, done, requests, vals);
            a[r := Calls(a, r) + [AnswerOf(requests[r], vals)]] == Record(answers, done + {r}, requests, vals)
  {
  }

  // deserializeAndSumInt and deserializeAndSumBool.
  method DeserializeAndSum(kind: string, keys: seq<Key>, vals: map<Key, Bytes>) returns (total: int)
    requires Fulfilled(keys, vals)
    ensures total == SumOver(kind, keys, vals)
  {
    total := 0;
    for i := 0 to |keys|
      invariant total == SumOver(kind, keys[..i], vals)
    {
      assert keys[..i + 1][..i] == keys[..i];
      assert keys[i] in vals;
      if kind == "int" {
        total := AddInts(total, vals[keys[i]]);
      } else {
        total := AddBools(total, vals[keys[i]]);
      }
    }
    assert keys[..|keys|] == keys;
  }

  method Answered(keys: seq<Key>, vals: map<Key, Bytes>) returns (answer: Answer)
    requires keys != [] && Fulfilled(keys, vals)
    ensures answer == AnswerOf(keys, vals)
  {
    var kind := DataType(KeyText(keys[0]));
    if kind == "float" {
      answer := FloatTotal(ValuesOf(keys, vals));
    } else {
      var total := DeserializeAndSum(kind, keys, vals);
      answer := Total(total);
    }
  }

  method IsFulfilled(keys: seq<Key>, got: map<Key, Bytes>) returns (b: bool)
    ensures b == Fulfilled(keys, got)
  {
    for i := 0 to |keys|
      invariant forall j :: 0 <= j < i ==> keys[j] in got
    {
      if keys[i] !in got {
        return false;
      }
    }
    return true;
  }

  // The loop both clearing operations run over request ids: every fulfilled request gets its answer.
  // Each id is looked up once, and must still be there.
  method AnswerFulfilled(ids: set<nat>, requests: map<nat, seq<Key>>, got: map<Key, Bytes>, calls: map<nat, seq<Answer>>)
    returns (done: set<nat>, answers: map<nat, seq<Answer>>)
    requires ids <= requests.Keys && forall r :: r in requests ==> requests[r] != []
    ensures done == FulfilledOf(ids, requests, got)
    ensures answers == Record(calls, done, requests, got)
  {
    done, answers := {}, calls;
    var todo := ids;
    while todo != {}
      invariant todo <= ids && done == FulfilledOf(ids - todo, requests, got)
      invariant answers == Record(calls, done, requests, got)
    {
      var requestId :| requestId in todo;
      var b := IsFulfilled(requests[requestId], got);
      FulfilledOfMore(ids - todo, requests, got, requestId);
      todo := todo - {requestId};
      assert ids - todo == (ids - (todo + {requestId})) + {requestId};
      if b {
        RecordMore(calls, done, requests, got, requestId);
        var answer := Answered(requests[requestId], got);
        answers := answers[requestId := (if requestId in answers then answers[requestId] else []) + [answer]];
        done := done + {requestId};
      }
    }
    assert ids - todo == ids;
  }

  class RunningKeys {
    var mMap: set<Key>
    var getMap: map<Key, set<nat>>
    var requestMap: map<nat, seq<Key>>
    var getCache: map<Key, Bytes>
    var answers: map<nat, seq<Answer>>

    ghost function View(): Tracker
      reads this
    {
      Tracker(mMap, getMap, requestMap, getCache, answers)
    }

    constructor ()
      ensures View() == Tracker({}, map[], map[], map[], map[])
    {
      mMap, getMap, requestMap, getCache, answers := {}, map[], map[], map[], map[];
    }

    // Inserts anyway, and says whether the key was there.
    method InsertIfNotPresent(key: Key) returns (isPresent: bool)
      modifies this`mMap
      ensures isPresent == Busy(old(View()), key)
      ensures View() == old(View()).(running := old(mMap) + {key})
    {
      isPresent := false;
      if key in mMap {
        isPresent := true;
      }
      if key in getMap {
        isPresent := true;
      }
      mMap := mMap + {key};
    }

    method InsertGetIfNotPresent(key: Key, requestId: nat) returns (isPresent: bool)
      modifies this
      ensures isPresent == Busy(old(View()), key)
      ensures View() == WaitFor(old(View()), key, requestId)
    {
      isPresent := false;
      if key in mMap {
        isPresent := true;
      }
      if key in getMap {
        isPresent := true;
      }
      getMap := getMap[key := (if key in getMap then getMap[key] else {}) + {requestId}];
      requestMap := requestMap[requestId := (if requestId in requestMap then requestMap[requestId] else []) + [key]];
    }

    // conflict is the branch that ends the process.
    method InsertCache(requestId: nat, key: Key, value: Bytes) returns (conflict: bool)
      modifies this
      ensures conflict <==> key in old(getCache) && old(getCache)[key] != value
      ensures View() == if conflict then old(View()) else Hit(old(View()), requestId, key, value)
    {
      if key in getCache {
        if getCache[key] != value {
          return true;
        }
      }
      conflict := false;
      getCache := getCache[key := value];
      if requestId !in requestMap {
        requestMap := requestMap[requestId := []];
      }
      requestMap := requestMap[requestId := requestMap[requestId] + [key]];
    }

    // The promise that came with the request is set at once.
    method Refuse(requestId: nat)
      modifies this`answers
      ensures View() == Refused(old(View()), requestId)
    {
      answers := answers[requestId := (if requestId in answers then answers[requestId] else []) + [NoRecordFound]];
    }

    method TryClearPromises(key: Key, value: Bytes)
      requires Clearable(View(), key)
      modifies this
      ensures View() == TryClear(old(View()), key, value)
    {
      mMap := mMap - {key};
      if key in getMap {
        getCache := getCache[key := value];
        var done;
        done, answers := AnswerFulfilled(getMap[key], requestMap, getCache, answers);
        requestMap := requestMap - done;
        if done != {} && requestMap == map[] {
          getMap := map[];
          getCache := map[];
        }
      }
    }

    method TryClearAllPromises()
      requires forall r :: r in requestMap ==> requestMap[r] != []
      modifies this
      ensures View() == TryClearAll(old(View()))
    {
      var toErase;
      toErase, answers := AnswerFulfilled(requestMap.Keys, requestMap, getCache, answers);
      requestMap := requestMap - toErase;
      if requestMap == map[] {
        getMap := map[];
        getCache := map[];
      }
    }
  }
}
